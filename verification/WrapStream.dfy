/** WrapStreamHandler of internal/proxy/think.go: inline <think> blocks of the text events
    become reasoning events before any protocol adapter sees them. */
module WrapStream {
  import opened Basics
  import opened StreamEvents
  import opened ThinkSplitter

  /** What the decorated handler answers to the k-th event it was given; the oracle for its error. */
  type Handler = (nat, StreamEvent) -> Option<string>

  function ToEvent(seg: Segment): StreamEvent {
    if seg.thinking then Reasoning(seg.text) else Text(seg.text)
  }

  function ToEvents(segs: seq<Segment>): (r: seq<StreamEvent>)
    ensures |r| == |segs|
  {
    seq(|segs|, i requires 0 <= i < |segs| => ToEvent(segs[i]))
  }

  datatype Produced = Produced(events: seq<StreamEvent>, buf: string, inThink: bool)

  predicate EndsText(e: StreamEvent) {
    e.Finish? || e.Error?
  }

  /** What one upstream event turns into when the handler accepts everything. */
  function Produce(buf: string, inThink: bool, e: StreamEvent): Produced {
    if e.Text? then
      var d := Drain(buf + e.text, inThink, false);
      Produced(ToEvents(d.out), d.buf, d.inThink)
    else if EndsText(e) then
      var d := Drain(buf, inThink, true);
      Produced(ToEvents(d.out) + [e], d.buf, d.inThink)
    else Produced([e], buf, inThink)
  }

  lemma {:induction false} ProduceCases(buf: string, inThink: bool, e: StreamEvent)
    ensures var p := Produce(buf, inThink, e);
            var d := if e.Text? then Drain(buf + e.text, inThink, false)
                     else if e.Finish? || e.Error? then Drain(buf, inThink, true)
                     else Drained([], buf, inThink);
            && p.events == ToEvents(d.out) + (if e.Text? then [] else [e])
            && p.buf == d.buf && p.inThink == d.inThink
            && ToEvents(d.out) + [] == ToEvents(d.out)
            && (!e.Text? && !e.Finish? && !e.Error? ==> p.events == [e])
  {
    hide Drain;
  }

  /** The handler sees events in order up to and including the first one it rejects. */
  function Accepted(before: nat, events: seq<StreamEvent>, handle: Handler): (r: seq<StreamEvent>)
    ensures r <= events
    decreases |events|
  {
    if events == [] then []
    else if handle(before, events[0]).Some? then [events[0]]
    else
      var rest := Accepted(before + 1, events[1..], handle);
      assert [events[0]] + events[1..] == events;
      [events[0]] + rest
  }

  function Rejection(before: nat, events: seq<StreamEvent>, handle: Handler): Option<string>
    decreases |events|
  {
    if events == [] then None
    else if handle(before, events[0]).Some? then handle(before, events[0])
    else Rejection(before + 1, events[1..], handle)
  }

  lemma {:induction false} AcceptedConcat(before: nat, a: seq<StreamEvent>, b: seq<StreamEvent>, handle: Handler)
    ensures Rejection(before, a, handle).Some? ==>
              Accepted(before, a + b, handle) == Accepted(before, a, handle)
              && Rejection(before, a + b, handle) == Rejection(before, a, handle)
    ensures Rejection(before, a, handle).None? ==>
              Accepted(before, a + b, handle) == a + Accepted(before + |a|, b, handle)
              && Accepted(before, a, handle) == a
              && Rejection(before, a + b, handle) == Rejection(before + |a|, b, handle)
    decreases |a|
  {
    if a == [] {
      assert a + b == b;
    } else {
      assert (a + b)[1..] == a[1..] + b;
      AcceptedConcat(before + 1, a[1..], b, handle);
    }
  }

  lemma {:induction false} AcceptedOne(before: nat, e: StreamEvent, handle: Handler)
    ensures Accepted(before, [e], handle) == [e]
    ensures Rejection(before, [e], handle) == handle(before, e)
  {
    assert [e][1..] == [];
  }

  lemma {:induction false} RejectionNil(before: nat, handle: Handler)
    ensures Accepted(before, [], handle) == [] && Rejection(before, [], handle) == None
  {
  }

  lemma {:induction false} ToEventsAt(segs: seq<Segment>, i: nat)
    requires i < |segs|
    ensures ToEvents(segs)[i] == ToEvent(segs[i])
  {
  }

  class Wrapper {
    const sp: Splitter
    const handle: Handler
    var delivered: seq<StreamEvent>

    constructor (handle: Handler)
      ensures fresh(sp) && sp.buf == "" && !sp.inThink
      ensures delivered == [] && this.handle == handle
    {
      sp := new Splitter();
      this.handle := handle;
      delivered := [];
    }

    method Deliver(e: StreamEvent) returns (err: Option<string>)
      modifies this
      ensures delivered == old(delivered) + [e] && err == handle(|old(delivered)|, e)
    {
      err := handle(|delivered|, e);
      delivered := delivered + [e];
    }

    /** Hands segments on until the handler rejects one. */
    method EmitAll(segs: seq<Segment>) returns (err: Option<string>)
      modifies this
      ensures delivered == old(delivered) + Accepted(|old(delivered)|, ToEvents(segs), handle)
      ensures err == Rejection(|old(delivered)|, ToEvents(segs), handle)
    {
      hide *;
      ghost var n := |delivered|;
      ghost var evs := ToEvents(segs);
      RejectionNil(n, handle);
      for i := 0 to |segs|
        invariant delivered == old(delivered) + evs[..i]
        invariant Accepted(n, evs[..i], handle) == evs[..i] && Rejection(n, evs[..i], handle).None?
      {
        var e := ToEvent(segs[i]);
        ToEventsAt(segs, i);
        AcceptedConcat(n, evs[..i], [e], handle);
        AcceptedOne(n + i, e, handle);
        assert evs[..i + 1] == evs[..i] + [e] && evs == evs[..i + 1] + evs[i + 1..];
        AcceptedConcat(n, evs[..i + 1], evs[i + 1..], handle);
        err := Deliver(e);
        if err.Some? {
          return;
        }
      }
      err := None;
      assert evs[..|segs|] == evs;
    }

    /** Drains the held-back tail (the flush closure). */
    method Flush() returns (err: Option<string>)
      modifies this, sp
      ensures var d := Drain(old(sp.buf), old(sp.inThink), true);
              && delivered == old(delivered) + Accepted(|old(delivered)|, ToEvents(d.out), handle)
              && err == Rejection(|old(delivered)|, ToEvents(d.out), handle)
              && sp.buf == d.buf == "" && sp.inThink == d.inThink
    {
      hide *;
      DrainLeaves(sp.buf, sp.inThink, true);
      var segs := sp.Flush();
      err := EmitAll(segs);
    }

    /** The wrapped handler itself. */
    method OnEvent(e: StreamEvent) returns (err: Option<string>)
      modifies this, sp
      ensures var p := Produce(old(sp.buf), old(sp.inThink), e);
              && delivered == old(delivered) + Accepted(|old(delivered)|, p.events, handle)
              && err == Rejection(|old(delivered)|, p.events, handle)
              && sp.buf == p.buf && sp.inThink == p.inThink
    {
      hide *;
      ProduceCases(sp.buf, sp.inThink, e);
      if e.Text? {
        var segs := sp.Feed(e.text);
        err := EmitAll(segs);
        return;
      }
      if e.Finish? || e.Error? {
        ghost var n := |delivered|;
        ghost var d := Drain(sp.buf, sp.inThink, true);
        AcceptedConcat(n, ToEvents(d.out), [e], handle);
        err := Flush();
        if err.Some? {
          return;
        }
      }
      AcceptedOne(|delivered|, e, handle);
      err := Deliver(e);
    }
  }

  // ---- Whole streams, with a handler that accepts everything ----

  function ProduceAll(es: seq<StreamEvent>, buf: string, inThink: bool): Produced {
    if es == [] then Produced([], buf, inThink)
    else
      var p := Produce(buf, inThink, es[0]);
      var rest := ProduceAll(es[1..], p.buf, p.inThink);
      Produced(p.events + rest.events, rest.buf, rest.inThink)
  }

  /** The events the adapter sees when the stream body is followed by one Finish or Error. */
  function Seen(body: seq<StreamEvent>, end: StreamEvent): seq<StreamEvent> {
    ProduceAll(body + [end], "", false).events
  }

  lemma {:induction false} SegmentsAsEvents(segs: seq<Segment>)
    ensures AllText(ToEvents(segs)) == TextOf(segs, false)
    ensures AllReasoning(ToEvents(segs)) == TextOf(segs, true)
  {
    if segs == [] {
      assert ToEvents(segs) == [];
    } else {
      var first := [ToEvent(segs[0])];
      assert ToEvents(segs) == first + ToEvents(segs[1..]);
      TextConcat(first, ToEvents(segs[1..]));
      SingleEvent(ToEvent(segs[0]));
      SegmentsAsEvents(segs[1..]);
    }
  }

  lemma {:induction false} SingleEvent(e: StreamEvent)
    ensures AllText([e]) == (if e.Text? then e.text else "")
    ensures AllReasoning([e]) == (if e.Reasoning? then e.reasoning else "")
  {
    TextSnoc([], e);
    assert [] + [e] == [e];
  }

  // ---- The characters delivered, in order and with their channels ----

  function MarksOf(e: StreamEvent): seq<Mark> {
    if e.Text? then Paint(e.text, false) else if e.Reasoning? then Paint(e.reasoning, true) else []
  }

  function EventMarks(es: seq<StreamEvent>): seq<Mark> {
    if es == [] then [] else EventMarks(Front(es)) + MarksOf(Last(es))
  }

  lemma {:induction false} EventMarksSnoc(es: seq<StreamEvent>, e: StreamEvent)
    ensures EventMarks(es + [e]) == EventMarks(es) + MarksOf(e)
  {
    SnocParts(es, e);
  }

  lemma {:induction false} EventMarksOne(e: StreamEvent)
    ensures EventMarks([]) == [] && EventMarks([e]) == MarksOf(e)
  {
    assert Front([e]) == [];
  }

  lemma {:induction false} EventMarksConcat(a: seq<StreamEvent>, b: seq<StreamEvent>)
    ensures EventMarks(a + b) == EventMarks(a) + EventMarks(b)
  {
    hide MarksOf;
    if b == [] {
      assert a + b == a;
    } else {
      EventMarksConcat(a, Front(b));
      assert a + b == (a + Front(b)) + [Last(b)];
      EventMarksSnoc(a + Front(b), Last(b));
    }
  }

  lemma {:induction false} SegmentMarks(segs: seq<Segment>)
    ensures EventMarks(ToEvents(segs)) == Marks(segs)
  {
    hide EventMarks, Paint;
    if segs == [] {
      assert ToEvents(segs) == [];
      EventMarksOne(Text(""));
    } else {
      var first := ToEvent(segs[0]);
      assert ToEvents(segs) == [first] + ToEvents(segs[1..]);
      EventMarksConcat([first], ToEvents(segs[1..]));
      EventMarksOne(first);
      SegmentMarks(segs[1..]);
    }
  }

  /** Order and channels of the characters determine the text and the reasoning. */
  lemma {:induction false} ChannelsOfMarks(es: seq<StreamEvent>)
    ensures Channel(EventMarks(es), false) == AllText(es) && Channel(EventMarks(es), true) == AllReasoning(es)
  {
    hide Paint, Channel;
    if es == [] {
      NothingMarked();
    } else {
      var e := Last(es);
      ChannelsOfMarks(Front(es));
      NothingMarked();
      forall think: bool
        ensures Channel(EventMarks(es), think) == Channel(EventMarks(Front(es)), think) + Channel(MarksOf(e), think)
      {
        ChannelConcat(EventMarks(Front(es)), MarksOf(e), think);
      }
      if e.Text? || e.Reasoning? {
        ChannelPaint(if e.Text? then e.text else e.reasoning, e.Reasoning?, false);
        ChannelPaint(if e.Text? then e.text else e.reasoning, e.Reasoning?, true);
      }
    }
  }

  lemma {:induction false} NothingMarked()
    ensures forall think: bool :: Channel([], think) == ""
  {
  }

  // ---- Where each delivered event comes from ----

  /** An event handed to the adapter: upstream's own, passed on, or made from its text. */
  datatype Delivery = Delivery(event: StreamEvent, own: bool)

  function Derived(events: seq<StreamEvent>): (r: seq<Delivery>)
    ensures |r| == |events|
  {
    seq(|events|, i requires 0 <= i < |events| => Delivery(events[i], false))
  }

  function DeliveriesOf(buf: string, inThink: bool, e: StreamEvent): seq<Delivery> {
    if e.Text? then Derived(ToEvents(Drain(buf + e.text, inThink, false).out))
    else if EndsText(e) then Derived(ToEvents(Drain(buf, inThink, true).out)) + [Delivery(e, true)]
    else [Delivery(e, true)]
  }

  function Deliveries(es: seq<StreamEvent>, buf: string, inThink: bool): seq<Delivery> {
    if es == [] then []
    else
      var p := Produce(buf, inThink, es[0]);
      DeliveriesOf(buf, inThink, es[0]) + Deliveries(es[1..], p.buf, p.inThink)
  }

  function Events(ds: seq<Delivery>): (r: seq<StreamEvent>)
    ensures |r| == |ds|
  {
    seq(|ds|, i requires 0 <= i < |ds| => ds[i].event)
  }

  /** Upstream's own events among the deliveries, or the others, in order. */
  function Part(ds: seq<Delivery>, own: bool): seq<StreamEvent> {
    if ds == [] then [] else Part(Front(ds), own) + if Last(ds).own == own then [Last(ds).event] else []
  }

  /** All events but the text: what the splitter is to pass on. */
  function NotText(es: seq<StreamEvent>): seq<StreamEvent> {
    if es == [] then [] else NotText(Front(es)) + if Last(es).Text? then [] else [Last(es)]
  }

  lemma {:induction false} PartSnoc(ds: seq<Delivery>, d: Delivery, own: bool)
    ensures Part([], own) == [] && Part(ds + [d], own) == Part(ds, own) + if d.own == own then [d.event] else []
  {
    SnocParts(ds, d);
  }

  lemma {:induction false} PartConcat(a: seq<Delivery>, b: seq<Delivery>, own: bool)
    ensures Part(a + b, own) == Part(a, own) + Part(b, own)
  {
    hide Part;
    PartSnoc([], Delivery(Finish(""), true), own);
    if b == [] {
      assert a + b == a;
    } else {
      PartConcat(a, Front(b), own);
      PartSnoc(Front(b), Last(b), own);
      PartSnoc(a + Front(b), Last(b), own);
      assert Front(b) + [Last(b)] == b && a + b == (a + Front(b)) + [Last(b)];
    }
  }

  lemma {:induction false} PartDerived(events: seq<StreamEvent>)
    ensures Part(Derived(events), false) == events && Part(Derived(events), true) == []
    ensures Events(Derived(events)) == events
  {
    hide Part;
    PartSnoc([], Delivery(Finish(""), true), true);
    PartSnoc([], Delivery(Finish(""), true), false);
    if events == [] {
      assert Derived(events) == [];
    } else {
      var before, e := Front(events), Last(events);
      PartDerived(before);
      PartSnoc(Derived(before), Delivery(e, false), true);
      PartSnoc(Derived(before), Delivery(e, false), false);
      assert Derived(events) == Derived(before) + [Delivery(e, false)];
    }
  }

  lemma {:induction false} PartOwn(e: StreamEvent)
    ensures Part([Delivery(e, true)], true) == [e] && Part([Delivery(e, true)], false) == []
    ensures Events([Delivery(e, true)]) == [e]
  {
    PartSnoc([], Delivery(e, true), true);
    PartSnoc([], Delivery(e, true), false);
    assert [] + [Delivery(e, true)] == [Delivery(e, true)];
  }

  lemma {:induction false} NotTextSnoc(es: seq<StreamEvent>, e: StreamEvent)
    ensures NotText([]) == [] && NotText(es + [e]) == NotText(es) + if e.Text? then [] else [e]
  {
    SnocParts(es, e);
  }

  lemma {:induction false} NotTextConcat(a: seq<StreamEvent>, b: seq<StreamEvent>)
    ensures NotText(a + b) == NotText(a) + NotText(b)
  {
    hide NotText;
    NotTextSnoc([], Finish(""));
    if b == [] {
      assert a + b == a;
    } else {
      NotTextConcat(a, Front(b));
      NotTextSnoc(Front(b), Last(b));
      NotTextSnoc(a + Front(b), Last(b));
      assert Front(b) + [Last(b)] == b && a + b == (a + Front(b)) + [Last(b)];
    }
  }

  lemma {:induction false} EventsConcat(a: seq<Delivery>, b: seq<Delivery>)
    ensures Events(a + b) == Events(a) + Events(b)
  {
  }

  lemma {:induction false} DeliveredOne(buf: string, inThink: bool, e: StreamEvent)
    ensures var ds := DeliveriesOf(buf, inThink, e);
            && Events(ds) == Produce(buf, inThink, e).events
            && Part(ds, true) == NotText([e])
            && Part(ds, false)
               == if e.Text? then Produce(buf, inThink, e).events
                  else if EndsText(e) then ToEvents(Drain(buf, inThink, true).out) else []
  {
    hide Drain, ToEvents, Part, NotText, Events, Derived;
    NotTextSnoc([], e);
    PartOwn(e);
    assert [] + [e] == [e];
    if e.Text? {
      PartDerived(ToEvents(Drain(buf + e.text, inThink, false).out));
    } else if EndsText(e) {
      var events := ToEvents(Drain(buf, inThink, true).out);
      PartDerived(events);
      PartConcat(Derived(events), [Delivery(e, true)], true);
      PartConcat(Derived(events), [Delivery(e, true)], false);
      EventsConcat(Derived(events), [Delivery(e, true)]);
      assert events + [] == events;
    }
  }

  lemma {:induction false} DeliveriesUnfold(es: seq<StreamEvent>, buf: string, inThink: bool)
    ensures Deliveries([], buf, inThink) == [] && Events([]) == []
    ensures es != [] ==>
              var p := Produce(buf, inThink, es[0]);
              Deliveries(es, buf, inThink) == DeliveriesOf(buf, inThink, es[0]) + Deliveries(es[1..], p.buf, p.inThink)
  {
    hide Produce, DeliveriesOf;
  }

  lemma {:induction false} DeliveriesConcat(a: seq<StreamEvent>, b: seq<StreamEvent>, buf: string, inThink: bool)
    ensures var p := ProduceAll(a, buf, inThink);
            Deliveries(a + b, buf, inThink) == Deliveries(a, buf, inThink) + Deliveries(b, p.buf, p.inThink)
  {
    hide Deliveries, DeliveriesOf, ProduceAll, Produce;
    DeliveriesUnfold(a + b, buf, inThink);
    DeliveriesUnfold(a, buf, inThink);
    BodyNil(buf, inThink, "");
    if a == [] {
      assert a + b == b;
    } else {
      var p := Produce(buf, inThink, a[0]);
      ProduceAllUnfolds(a, buf, inThink);
      assert (a + b)[0] == a[0] && (a + b)[1..] == a[1..] + b;
      DeliveriesConcat(a[1..], b, p.buf, p.inThink);
      var q := ProduceAll(a[1..], p.buf, p.inThink);
      Assoc(DeliveriesOf(buf, inThink, a[0]), Deliveries(a[1..], p.buf, p.inThink), Deliveries(b, q.buf, q.inThink));
    }
  }

  /** The deliveries are what the adapter is handed, and upstream's own events, its reasoning included, are
      handed on once each, unchanged and in order. */
  lemma {:induction false} DeliveriesAre(es: seq<StreamEvent>, buf: string, inThink: bool)
    ensures var ds := Deliveries(es, buf, inThink);
            Events(ds) == ProduceAll(es, buf, inThink).events && Part(ds, true) == NotText(es)
  {
    hide *;
    DeliveriesUnfold(es, buf, inThink);
    if es == [] {
      BodyNil(buf, inThink, "");
      PartSnoc([], Delivery(Finish(""), true), true);
      NotTextSnoc([], Finish(""));
    } else {
      var p := Produce(buf, inThink, es[0]);
      var one, rest := DeliveriesOf(buf, inThink, es[0]), Deliveries(es[1..], p.buf, p.inThink);
      TailParts(es);
      ProduceAllUnfolds(es, buf, inThink);
      DeliveriesAre(es[1..], p.buf, p.inThink);
      DeliveredOne(buf, inThink, es[0]);
      EventsConcat(one, rest);
      PartConcat(one, rest, true);
      NotTextConcat([es[0]], es[1..]);
    }
  }

  /** The text of upstream is split as a whole: what is delivered of it so far, then the reference on the
      held text. This is the invariant of a stream without Finish or Error so far. */
  lemma {:induction false} BodySound(es: seq<StreamEvent>, buf: string, inThink: bool, more: string)
    requires forall e :: e in es ==> !EndsText(e)
    ensures var p := ProduceAll(es, buf, inThink);
            Classify(buf + AllText(es) + more, inThink)
            == EventMarks(Part(Deliveries(es, buf, inThink), false)) + Classify(p.buf + more, p.inThink)
  {
    hide *;
    DeliveriesUnfold(es, buf, inThink);
    if es == [] {
      BodyNil(buf, inThink, more);
      EventMarksOne(Text(""));
      PartSnoc([], Delivery(Finish(""), true), false);
      assert EventMarks([]) + Classify(buf + more, inThink) == Classify(buf + more, inThink);
    } else {
      var e, rest := es[0], es[1..];
      var p := Produce(buf, inThink, e);
      var q := ProduceAll(rest, p.buf, p.inThink);
      var one, others := DeliveriesOf(buf, inThink, e), Deliveries(rest, p.buf, p.inThink);
      TailParts(es);
      BodySound(rest, p.buf, p.inThink, more);
      ProduceAllUnfolds(es, buf, inThink);
      TextConcat([e], rest);
      PartConcat(one, others, false);
      EventMarksConcat(Part(one, false), Part(others, false));
      StepSound(e, buf, inThink, AllText(rest) + more);
      assert buf + AllText(es) + more == buf + AllText([e]) + (AllText(rest) + more);
      assert p.buf + AllText(rest) + more == p.buf + (AllText(rest) + more);
      Assoc(EventMarks(Part(one, false)), EventMarks(Part(others, false)), Classify(q.buf + more, q.inThink));
    }
  }

  /** The answer channel is right even when upstream mixes in reasoning of its own. */
  lemma {:induction false} BodyText(es: seq<StreamEvent>, buf: string, inThink: bool, more: string)
    requires forall e :: e in es ==> !EndsText(e)
    ensures var p := ProduceAll(es, buf, inThink);
            Channel(Classify(buf + AllText(es) + more, inThink), false)
            == AllText(p.events) + Channel(Classify(p.buf + more, p.inThink), false)
  {
    hide *;
    if es == [] {
      BodyNil(buf, inThink, more);
      Assoc("", "", Channel(Classify(buf + more, inThink), false));
    } else {
      var e, rest := es[0], es[1..];
      var p := Produce(buf, inThink, e);
      var q := ProduceAll(rest, p.buf, p.inThink);
      TailParts(es);
      BodyText(rest, p.buf, p.inThink, more);
      ProduceAllUnfolds(es, buf, inThink);
      TextConcat([e], rest);
      TextConcat(p.events, q.events);
      StepText(e, buf, inThink, AllText(rest) + more);
      assert buf + AllText(es) + more == buf + AllText([e]) + (AllText(rest) + more);
      assert p.buf + AllText(rest) + more == p.buf + (AllText(rest) + more);
      Assoc(AllText(p.events), AllText(q.events), Channel(Classify(q.buf + more, q.inThink), false));
    }
  }

  lemma {:induction false} TailParts(es: seq<StreamEvent>)
    requires es != []
    ensures es == [es[0]] + es[1..] && es[0] in es
    ensures forall e :: e in es[1..] ==> e in es
  {
  }

  lemma {:induction false} BodyNil(buf: string, inThink: bool, more: string)
    ensures ProduceAll([], buf, inThink) == Produced([], buf, inThink)
    ensures AllText([]) == "" && AllReasoning([]) == ""
    ensures buf + AllText([]) + more == buf + more
  {
  }

  lemma {:induction false} ProduceAllUnfolds(es: seq<StreamEvent>, buf: string, inThink: bool)
    requires es != []
    ensures var p := Produce(buf, inThink, es[0]);
            var q := ProduceAll(es[1..], p.buf, p.inThink);
            ProduceAll(es, buf, inThink) == Produced(p.events + q.events, q.buf, q.inThink)
  {
    hide Produce;
  }

  lemma {:induction false} StepSound(e: StreamEvent, buf: string, inThink: bool, more: string)
    requires !EndsText(e)
    ensures var p := Produce(buf, inThink, e);
            Classify(buf + AllText([e]) + more, inThink)
            == EventMarks(Part(DeliveriesOf(buf, inThink, e), false)) + Classify(p.buf + more, p.inThink)
  {
    hide Classify, Drain, AllText, AllReasoning, ToEvents, EventMarks, Part, DeliveriesOf;
    SingleEvent(e);
    EventMarksOne(e);
    DeliveredOne(buf, inThink, e);
    if e.Text? {
      DrainSound(buf + e.text, inThink, false, more);
      SegmentMarks(Drain(buf + e.text, inThink, false).out);
    } else {
      assert buf + "" + more == buf + more;
      assert [] + Classify(buf + more, inThink) == Classify(buf + more, inThink);
    }
  }

  lemma {:induction false} StepText(e: StreamEvent, buf: string, inThink: bool, more: string)
    requires !EndsText(e)
    ensures var p := Produce(buf, inThink, e);
            Channel(Classify(buf + AllText([e]) + more, inThink), false)
            == AllText(p.events) + Channel(Classify(p.buf + more, p.inThink), false)
  {
    hide Classify, Channel, Drain, AllText, AllReasoning, ToEvents, EventMarks, Part, DeliveriesOf;
    var p := Produce(buf, inThink, e);
    if e.Text? {
      StepSound(e, buf, inThink, more);
      DeliveredOne(buf, inThink, e);
      ChannelConcat(EventMarks(p.events), Classify(p.buf + more, p.inThink), false);
      ChannelsOfMarks(p.events);
    } else {
      SingleEvent(e);
      assert buf + "" + more == buf + more;
      assert "" + Channel(Classify(buf + more, inThink), false) == Channel(Classify(buf + more, inThink), false);
    }
  }

  /** A last drain delivers all that is held, in order. */
  lemma {:induction false} FinalDrain(buf: string, inThink: bool)
    ensures var d := Drain(buf, inThink, true);
            d.buf == "" && EventMarks(ToEvents(d.out)) == Classify(buf, inThink)
  {
    hide *;
    var d := Drain(buf, inThink, true);
    DrainSound(buf, inThink, true, "");
    DrainLeaves(buf, inThink, true);
    NothingLeft(d.inThink);
    SegmentMarks(d.out);
    assert buf + "" == buf && d.buf + "" == "" && Marks(d.out) + [] == Marks(d.out);
  }

  /** Up to the first Finish or Error, the characters made from upstream's text are those of the one-shot
      split of all of it, in order and each on its channel, whatever stands between them; upstream's own
      events, its reasoning included, are handed on once each, unchanged and in order. */
  lemma {:induction false} WrappedStreamSplits(body: seq<StreamEvent>, end: StreamEvent)
    requires EndsText(end) && forall e :: e in body ==> !EndsText(e)
    ensures var ds := Deliveries(body + [end], "", false); var marks := Classify(AllText(body), false);
            && Events(ds) == Seen(body, end) && Part(ds, true) == NotText(body + [end])
            && EventMarks(Part(ds, false)) == marks
            && AllText(Part(ds, false)) == Channel(marks, false)
            && AllReasoning(Part(ds, false)) == Channel(marks, true)
    ensures AllText(Seen(body, end)) == Channel(Classify(AllText(body), false), false)
  {
    hide *;
    var p := ProduceAll(body, "", false);
    var ds, last := Deliveries(body, "", false), Deliveries([end], p.buf, p.inThink);
    var held := ToEvents(Drain(p.buf, p.inThink, true).out);
    SeenParts(body, end);
    DeliveriesAre(body + [end], "", false);
    DeliveriesConcat(body, [end], "", false);
    LastDeliveries(end, p.buf, p.inThink);
    PartConcat(ds, last, false);
    FinalDrain(p.buf, p.inThink);
    EventMarksConcat(Part(ds, false), held);
    BodySound(body, "", false, "");
    ChannelsOfMarks(Part(Deliveries(body + [end], "", false), false));
    assert "" + AllText(body) + "" == AllText(body) && p.buf + "" == p.buf;
    BodyText(body, "", false, "");
    EventMarksOne(end);
    EventMarksConcat(held, [end]);
    assert EventMarks(held) + [] == EventMarks(held);
    TextConcat(p.events, held + [end]);
    ChannelsOfMarks(held + [end]);
  }

  lemma {:induction false} LastDeliveries(end: StreamEvent, buf: string, inThink: bool)
    requires EndsText(end)
    ensures Part(Deliveries([end], buf, inThink), false) == ToEvents(Drain(buf, inThink, true).out)
  {
    hide Drain, ToEvents, Part, Deliveries, DeliveriesOf, Produce;
    DeliveriesUnfold([end], buf, inThink);
    assert [end][1..] == [];
    DeliveriesUnfold([], Produce(buf, inThink, end).buf, Produce(buf, inThink, end).inThink);
    DeliveredOne(buf, inThink, end);
    assert DeliveriesOf(buf, inThink, end) + [] == DeliveriesOf(buf, inThink, end);
  }

  // ---- Text may be overtaken ----

  /** The events before have delivered exactly the text that upstream sent before iff nothing is held
      back; then, and only then, an event that goes through at once keeps its place in the text. */
  lemma {:induction false} InPlaceIff(es: seq<StreamEvent>, e: StreamEvent)
    requires forall e :: e in es ==> !EndsText(e)
    requires !e.Text? && !EndsText(e)
    ensures var p := ProduceAll(es, "", false);
            && ProduceAll(es + [e], "", false).events == p.events + [e]
            && (EventMarks(Part(Deliveries(es, "", false), false)) == Classify(AllText(es), false) <==> p.buf == "")
  {
    hide Classify, Drain, ToEvents, ProduceAll, Produce, EventMarks, AllText, Deliveries, Part;
    var p := ProduceAll(es, "", false);
    var marks := EventMarks(Part(Deliveries(es, "", false), false));
    ProduceAllConcat(es, [e], "", false);
    ProduceAllOne(e, p.buf, p.inThink);
    ProduceCases(p.buf, p.inThink, e);
    BodySound(es, "", false, "");
    assert "" + AllText(es) + "" == AllText(es) && p.buf + "" == p.buf;
    HeldIsProper(es, "", false);
    HeldIsText(p.buf, p.inThink);
    assert marks + [] == marks;
  }

  lemma {:induction false} HeldIsProper(es: seq<StreamEvent>, buf: string, inThink: bool)
    requires buf < Tag(inThink)
    ensures var p := ProduceAll(es, buf, inThink); p.buf < Tag(p.inThink)
  {
    hide Tag, Drain, ToEvents;
    if es != [] {
      var p := Produce(buf, inThink, es[0]);
      if es[0].Text? {
        DrainLeaves(buf + es[0].text, inThink, false);
      } else if EndsText(es[0]) {
        DrainLeaves(buf, inThink, true);
      }
      HeldIsProper(es[1..], p.buf, p.inThink);
    }
  }

  /** A part of a tag is text of its own until the rest of the tag comes. */
  lemma {:induction false} HeldIsText(buf: string, think: bool)
    requires buf < Tag(think)
    ensures Classify(buf, think) == [] <==> buf == ""
  {
  }

  /** Such an input: a tool call overtakes the character that might have begun a tag. */
  lemma {:induction false} CallOvertakesText(tc: ToolCallDelta)
    ensures Forwarded([Text("a<"), ToolCall(tc), Text("b")]) == [Text("a"), ToolCall(tc), Text("<b")]
  {
    hide Produce, ToEvents, Drain, ProduceAll, Forwarded, Emit;
    var es := [Text("a<"), ToolCall(tc), Text("b")];
    ProducePlain("", "a<", "a", "<");
    ProducePlain("<", "b", "<b", "");
    ProduceCases("<", false, ToolCall(tc));
    ProduceAllUnfolds(es, "", false);
    ProduceAllUnfolds(es[1..], "<", false);
    ProduceAllUnfolds(es[2..], "<", false);
    assert es[1..][1..] == es[2..] && es[2..][1..] == [];
    BodyNil("", false, "");
    DrainNothing();
    ForwardedParts(es);
    assert [Text("a")] + ([ToolCall(tc)] + ([Text("<b")] + [])) + [] == [Text("a"), ToolCall(tc), Text("<b")];
  }

  lemma {:induction false} DrainNothing()
    ensures ToEvents(Drain("", false, true).out) == []
  {
    hide Drain, Emit;
    DrainPlain("", 0);
    OneSegment("a");
  }

  lemma {:induction false} ProducePlain(buf: string, text: string, out: string, rest: string)
    requires buf + text == out + rest && out != "" && |out + rest| <= 2 && 't' !in out + rest
    requires rest == if Last(out + rest) == '<' then "<" else ""
    ensures Produce(buf, false, Text(text)) == Produced([Text(out)], rest, false)
  {
    hide Drain, ToEvents;
    DrainPlain(buf + text, |rest|);
    OneSegment(out);
    assert (out + rest)[..|out|] == out && (out + rest)[|out|..] == rest;
  }

  /** A short text outside a think block holds no tag: it comes out but for a last '<'. */
  lemma {:induction false} DrainPlain(s: string, held: nat)
    requires |s| <= 2 && 't' !in s && held == if s != "" && Last(s) == '<' then 1 else 0
    ensures Drain(s, false, false) == Drained(Emit(s[..|s| - held], false), s[|s| - held..], false)
    ensures Drain("", false, true) == Drained([], "", false)
  {
    hide Drain, Emit, Tag;
    HeldPlain(s, held);
    DrainUnfolds(s, false, false);
    DrainUnfolds("", false, true);
    PrependNothing(s[..|s| - held], s[|s| - held..]);
    PrependNothing("", "");
    assert OPEN_TAG == Tag(false);
  }

  lemma {:induction false} PrependNothing(text: string, rest: string)
    ensures Prepend(Emit(text, false), Drained([], rest, false)) == Drained(Emit(text, false), rest, false)
    ensures Emit("", false) == [] && Tag(false) == OPEN_TAG && |OPEN_TAG| == 7
  {
  }

  lemma {:induction false} HeldPlain(s: string, held: nat)
    requires |s| <= 2 && 't' !in s && held == if s != "" && Last(s) == '<' then 1 else 0
    ensures Held(s, OPEN_TAG) == held
  {
    hide Held;
    var h := Held(s, OPEN_TAG);
    assert OPEN_TAG[0] == '<' && OPEN_TAG[1] == 't';
    assert IsPartialTag(s, OPEN_TAG, 1) <==> held == 1;
    if |s| == 2 {
      assert s[1] in s && s[|s| - 2 + 1] != OPEN_TAG[1];
      assert !IsPartialTag(s, OPEN_TAG, 2);
    }
    assert IsPartialTag(s, OPEN_TAG, h);
  }

  lemma {:induction false} OneSegment(text: string)
    requires text != ""
    ensures ToEvents(Emit(text, false)) == [Text(text)] && ToEvents(Emit("", false)) == []
  {
  }

  lemma {:induction false} SeenParts(body: seq<StreamEvent>, end: StreamEvent)
    requires EndsText(end)
    ensures var p := ProduceAll(body, "", false);
            Seen(body, end) == p.events + (ToEvents(Drain(p.buf, p.inThink, true).out) + [end])
    ensures MarksOf(end) == [] && Seen(body, end) == ProduceAll(body + [end], "", false).events
  {
    hide Drain, ToEvents;
    var p := ProduceAll(body, "", false);
    ProduceAllConcat(body, [end], "", false);
    ProduceAllOne(end, p.buf, p.inThink);
  }

  lemma {:induction false} NothingLeft(think: bool)
    ensures Classify("", think) == []
  {
  }

  lemma {:induction false} ProduceAllOne(e: StreamEvent, buf: string, inThink: bool)
    ensures ProduceAll([e], buf, inThink).events == Produce(buf, inThink, e).events
  {
    hide Produce;
    assert [e][1..] == [];
  }

  lemma {:induction false} ProduceAllConcat(a: seq<StreamEvent>, b: seq<StreamEvent>, buf: string, inThink: bool)
    ensures var p := ProduceAll(a, buf, inThink); var q := ProduceAll(b, p.buf, p.inThink);
            ProduceAll(a + b, buf, inThink) == Produced(p.events + q.events, q.buf, q.inThink)
  {
    hide Produce;
    if a == [] {
      assert a + b == b;
    } else {
      var p := Produce(buf, inThink, a[0]);
      assert (a + b)[1..] == a[1..] + b;
      ProduceAllConcat(a[1..], b, p.buf, p.inThink);
    }
  }

  /** Everything a stream produces when it ends without a Finish and the tail is flushed. */
  function Forwarded(es: seq<StreamEvent>): seq<StreamEvent> {
    var p := ProduceAll(es, "", false);
    p.events + ToEvents(Drain(p.buf, p.inThink, true).out)
  }

  /** The forwarding loop of doChatCompletion: wrap the handler, feed every event, flush. */
  method Forward(es: seq<StreamEvent>, handle: Handler) returns (delivered: seq<StreamEvent>, err: Option<string>)
    ensures delivered == Accepted(0, Forwarded(es), handle)
    ensures err == Rejection(0, Forwarded(es), handle)
  {
    hide *;
    var w := new Wrapper(handle);
    RejectionNil(0, handle);
    BodyNil("", false, "");
    assert es[..0] == [];
    for i := 0 to |es|
      invariant var p := ProduceAll(es[..i], "", false);
                w.delivered == p.events && w.sp.buf == p.buf && w.sp.inThink == p.inThink
                && w.handle == handle && Rejection(0, p.events, handle).None?
      invariant fresh(w) && fresh(w.sp)
    {
      ghost var p := ProduceAll(es[..i], "", false);
      ghost var q := Produce(p.buf, p.inThink, es[i]);
      assert es[..i + 1] == es[..i] + [es[i]] && es == es[..i + 1] + es[i + 1..];
      ProduceAllConcat(es[..i], [es[i]], "", false);
      ProduceAllUnfolds([es[i]], p.buf, p.inThink);
      BodyNil(q.buf, q.inThink, "");
      assert [es[i]][1..] == [] && q.events + [] == q.events;
      AcceptedConcat(0, p.events, q.events, handle);
      AcceptedConcat(|p.events|, q.events, [], handle);
      err := w.OnEvent(es[i]);
      if err.Some? {
        RejectedEarly(es, i, handle);
        return w.delivered, err;
      }
    }
    assert es[..|es|] == es;
    ForwardedParts(es);
    ghost var p := ProduceAll(es, "", false);
    AcceptedConcat(0, p.events, ToEvents(Drain(p.buf, p.inThink, true).out), handle);
    err := w.Flush();
    delivered := w.delivered;
  }

  lemma {:induction false} ForwardedParts(es: seq<StreamEvent>)
    ensures var p := ProduceAll(es, "", false);
            Forwarded(es) == p.events + ToEvents(Drain(p.buf, p.inThink, true).out)
  {
    hide ProduceAll, Drain, ToEvents;
  }

  /** A rejection while event i is handled decides the outcome of the whole stream. */
  lemma {:induction false} RejectedEarly(es: seq<StreamEvent>, i: nat, handle: Handler)
    requires i < |es| && Rejection(0, ProduceAll(es[..i + 1], "", false).events, handle).Some?
    ensures var events := ProduceAll(es[..i + 1], "", false).events;
            Accepted(0, Forwarded(es), handle) == Accepted(0, events, handle)
            && Rejection(0, Forwarded(es), handle) == Rejection(0, events, handle)
  {
    hide *;
    var p := ProduceAll(es[..i + 1], "", false);
    var q := ProduceAll(es[i + 1..], p.buf, p.inThink);
    var tail := ToEvents(Drain(q.buf, q.inThink, true).out);
    assert es == es[..i + 1] + es[i + 1..];
    ProduceAllConcat(es[..i + 1], es[i + 1..], "", false);
    ForwardedParts(es);
    assert Forwarded(es) == p.events + (q.events + tail);
    AcceptedConcat(0, p.events, q.events + tail, handle);
  }

  /** Events that carry no text pass through once each, unchanged and in order. */
  function Untouched(es: seq<StreamEvent>): seq<StreamEvent> {
    if es == [] then []
    else (if es[0].Text? || es[0].Reasoning? then [] else [es[0]]) + Untouched(es[1..])
  }

  lemma {:induction false} UntouchedConcat(a: seq<StreamEvent>, b: seq<StreamEvent>)
    ensures Untouched(a + b) == Untouched(a) + Untouched(b)
  {
    if a == [] {
      assert a + b == b;
    } else {
      assert (a + b)[1..] == a[1..] + b;
      UntouchedConcat(a[1..], b);
    }
  }

  lemma {:induction false} UntouchedSegments(segs: seq<Segment>)
    ensures Untouched(ToEvents(segs)) == []
  {
    if segs != [] {
      assert ToEvents(segs)[1..] == ToEvents(segs[1..]);
      UntouchedSegments(segs[1..]);
    }
  }

  lemma {:induction false} OtherEventsPassThrough(es: seq<StreamEvent>, buf: string, inThink: bool)
    ensures Untouched(ProduceAll(es, buf, inThink).events) == Untouched(es)
    ensures Part(Deliveries(es, buf, inThink), true) == NotText(es)
  {
    hide *;
    DeliveriesAre(es, buf, inThink);
    if es == [] {
      UntouchedNil(buf, inThink);
    } else {
      var p := Produce(buf, inThink, es[0]);
      var q := ProduceAll(es[1..], p.buf, p.inThink);
      TailParts(es);
      ProduceAllUnfolds(es, buf, inThink);
      OtherEventsPassThrough(es[1..], p.buf, p.inThink);
      UntouchedConcat(p.events, q.events);
      UntouchedConcat([es[0]], es[1..]);
      UntouchedStep(es[0], buf, inThink);
    }
  }

  lemma {:induction false} UntouchedNil(buf: string, inThink: bool)
    ensures Untouched(ProduceAll([], buf, inThink).events) == Untouched([]) == []
  {
  }

  lemma {:induction false} UntouchedStep(e: StreamEvent, buf: string, inThink: bool)
    ensures Untouched(Produce(buf, inThink, e).events) == Untouched([e])
  {
    hide Drain, ToEvents;
    assert [e][1..] == [];
    if e.Text? {
      UntouchedSegments(Drain(buf + e.text, inThink, false).out);
    } else if EndsText(e) {
      var segs := Drain(buf, inThink, true).out;
      UntouchedSegments(segs);
      UntouchedConcat(ToEvents(segs), [e]);
    }
  }
}
