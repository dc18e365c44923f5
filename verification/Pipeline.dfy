/** The stream pipeline end to end: upstream events through the <think> splitter into the adapters. */
module Pipeline {
  import opened Basics
  import opened StreamEvents
  import opened ThinkSplitter
  import opened WrapStream
  import opened Collect
  import Anthropic
  import Responses
  import ResponsesProtocol

  predicate HasNoText(es: seq<StreamEvent>) {
    forall e :: e in es ==> !e.Text?
  }

  /** An upstream stream: the events up to the last text, none of them an end, and then the rest. */
  predicate Upstream(body: seq<StreamEvent>, after: seq<StreamEvent>) {
    (forall e :: e in body ==> !EndsText(e)) && HasNoText(after)
  }

  // ---- Two sequences of characters interleaved ----

  /** w is a and b, each in its order, shuffled into one another. */
  ghost predicate Interleaves(w: seq<Mark>, a: seq<Mark>, b: seq<Mark>)
    decreases |w|
  {
    if w == [] then a == [] && b == []
    else
      (a != [] && Last(a) == Last(w) && Interleaves(Front(w), Front(a), b))
      || (b != [] && Last(b) == Last(w) && Interleaves(Front(w), a, Front(b)))
  }

  lemma {:induction false} InterleavesSnoc(w: seq<Mark>, a: seq<Mark>, b: seq<Mark>, m: Mark)
    requires Interleaves(w, a, b)
    ensures Interleaves(w + [m], a + [m], b) && Interleaves(w + [m], a, b + [m])
  {
    SnocParts(w, m);
    SnocParts(a, m);
    SnocParts(b, m);
  }

  lemma {:induction false} InterleavesGrow(w: seq<Mark>, a: seq<Mark>, b: seq<Mark>, more: seq<Mark>)
    requires Interleaves(w, a, b)
    ensures Interleaves(w + more, a + more, b) && Interleaves(w + more, a, b + more)
  {
    hide Interleaves;
    if more == [] {
      assert w + more == w && a + more == a && b + more == b;
    } else {
      var before, m := Front(more), Last(more);
      InterleavesGrow(w, a, b, before);
      InterleavesSnoc(w + before, a + before, b, m);
      InterleavesSnoc(w + before, a, b + before, m);
      assert before + [m] == more;
      Assoc(w, before, [m]);
      Assoc(a, before, [m]);
      Assoc(b, before, [m]);
    }
  }

  lemma {:induction false} InterleavesNothing(w: seq<Mark>, a: seq<Mark>)
    ensures Interleaves([], [], [])
    ensures Interleaves(w, a, []) ==> w == a
  {
    if w != [] && a != [] {
      InterleavesNothing(Front(w), Front(a));
      assert Front(w) + [Last(w)] == w && Front(a) + [Last(a)] == a;
    }
  }

  /** A channel that b says nothing on is the channel of a. */
  lemma {:induction false} InterleavesChannel(w: seq<Mark>, a: seq<Mark>, b: seq<Mark>, think: bool)
    requires Interleaves(w, a, b) && Channel(b, think) == ""
    ensures Channel(w, think) == Channel(a, think)
    decreases |w|
  {
    hide Channel;
    if w != [] {
      ChannelSnoc(w, think);
      if a != [] && Last(a) == Last(w) && Interleaves(Front(w), Front(a), b) {
        ChannelSnoc(a, think);
        InterleavesChannel(Front(w), Front(a), b, think);
      } else {
        ChannelSnoc(b, think);
        InterleavesChannel(Front(w), a, Front(b), think);
      }
    }
  }

  lemma {:induction false} ChannelSnoc(ms: seq<Mark>, think: bool)
    requires ms != []
    ensures Channel(ms, think) == Channel(Front(ms), think) + Channel([Last(ms)], think)
    ensures Channel(ms, think) == "" ==> Channel(Front(ms), think) == "" && Channel([Last(ms)], think) == ""
    ensures Channel(Front(ms), think) + "" == Channel(Front(ms), think)
  {
    ChannelConcat(Front(ms), [Last(ms)], think);
    assert Front(ms) + [Last(ms)] == ms;
  }

  /** What is delivered interleaves what was made from upstream's text with what upstream said itself. */
  lemma {:induction false} PartsInterleave(ds: seq<Delivery>)
    ensures Interleaves(EventMarks(Events(ds)), EventMarks(Part(ds, false)), EventMarks(Part(ds, true)))
  {
    hide Interleaves, EventMarks, Part, MarksOf;
    EventMarksOne(Finish(""));
    InterleavesNothing([], []);
    if ds == [] {
      PartSnoc([], Delivery(Finish(""), true), true);
      PartSnoc([], Delivery(Finish(""), true), false);
      assert Events(ds) == [];
    } else {
      var before, d := Front(ds), Last(ds);
      var w, a, b := EventMarks(Events(before)), EventMarks(Part(before, false)), EventMarks(Part(before, true));
      assert before + [d] == ds && Events(ds) == Events(before) + [d.event];
      PartsInterleave(before);
      PartSnoc(before, d, true);
      PartSnoc(before, d, false);
      EventMarksSnoc(Events(before), d.event);
      EventMarksSnoc(Part(before, d.own), d.event);
      InterleavesGrow(w, a, b, MarksOf(d.event));
      assert Part(before, !d.own) + [] == Part(before, !d.own);
    }
  }

  /** Of upstream's own events, what is said is its reasoning. */
  lemma {:induction false} OwnMarks(es: seq<StreamEvent>)
    ensures EventMarks(NotText(es)) == Paint(AllReasoning(es), true)
  {
    hide EventMarks, NotText, AllReasoning, AllText, Paint;
    EventMarksOne(Finish(""));
    NotTextSnoc([], Finish(""));
    if es == [] {
      BodyNil("", false, "");
      PaintOne("", true);
    } else {
      var before, e := Front(es), Last(es);
      assert before + [e] == es;
      OwnMarks(before);
      NotTextSnoc(before, e);
      EventMarksSnoc(NotText(before), e);
      TextSnoc(before, e);
      PaintConcat(AllReasoning(before), if e.Reasoning? then e.reasoning else "", true);
      PaintOne("", true);
      assert NotText(before) + [] == NotText(before);
    }
  }

  // ---- The whole forwarding loop ----

  function ForwardedDeliveries(es: seq<StreamEvent>): seq<Delivery> {
    var p := ProduceAll(es, "", false);
    Deliveries(es, "", false) + Derived(ToEvents(Drain(p.buf, p.inThink, true).out))
  }

  /** They are what the adapter is handed; upstream's own events are handed on once each, unchanged and in
      order. */
  lemma {:induction false} ForwardedDeliveriesAre(es: seq<StreamEvent>)
    ensures Events(ForwardedDeliveries(es)) == Forwarded(es)
    ensures Part(ForwardedDeliveries(es), true) == NotText(es)
    ensures var p := ProduceAll(es, "", false);
            Part(ForwardedDeliveries(es), false)
            == Part(Deliveries(es, "", false), false) + ToEvents(Drain(p.buf, p.inThink, true).out)
  {
    hide Drain, ToEvents, ProduceAll, Deliveries, Part, NotText, Forwarded, Derived, Events;
    var p := ProduceAll(es, "", false);
    var held := ToEvents(Drain(p.buf, p.inThink, true).out);
    DeliveriesAre(es, "", false);
    ForwardedParts(es);
    PartDerived(held);
    PartConcat(Deliveries(es, "", false), Derived(held), true);
    PartConcat(Deliveries(es, "", false), Derived(held), false);
    EventsConcat(Deliveries(es, "", false), Derived(held));
    assert NotText(es) + [] == NotText(es);
  }

  /** Events without text: whatever is held back comes out once, at the first end or at the flush. */
  lemma {:induction false} HeldComesOut(es: seq<StreamEvent>, buf: string, inThink: bool)
    requires HasNoText(es)
    ensures var p := ProduceAll(es, buf, inThink);
            EventMarks(Part(Deliveries(es, buf, inThink), false) + ToEvents(Drain(p.buf, p.inThink, true).out))
            == Classify(buf, inThink)
  {
    hide *;
    DeliveriesUnfold(es, buf, inThink);
    PartSnoc([], Delivery(Finish(""), true), false);
    if es == [] {
      BodyNil(buf, inThink, "");
      FinalDrain(buf, inThink);
      assert [] + ToEvents(Drain(buf, inThink, true).out) == ToEvents(Drain(buf, inThink, true).out);
    } else {
      var p := Produce(buf, inThink, es[0]);
      var q := ProduceAll(es[1..], p.buf, p.inThink);
      var last := ToEvents(Drain(q.buf, q.inThink, true).out);
      var one, rest := DeliveriesOf(buf, inThink, es[0]), Deliveries(es[1..], p.buf, p.inThink);
      WithoutText(es);
      HeldComesOut(es[1..], p.buf, p.inThink);
      ProduceAllUnfolds(es, buf, inThink);
      OneQuietEvent(buf, inThink, es[0]);
      PartConcat(one, rest, false);
      EventMarksConcat(Part(one, false), Part(rest, false) + last);
      Assoc(Part(one, false), Part(rest, false), last);
    }
  }

  lemma {:induction false} WithoutText(es: seq<StreamEvent>)
    requires HasNoText(es) && es != []
    ensures HasNoText(es[1..]) && !es[0].Text?
  {
  }

  lemma {:induction false} OneQuietEvent(buf: string, inThink: bool, e: StreamEvent)
    requires !e.Text?
    ensures var p := Produce(buf, inThink, e);
            EventMarks(Part(DeliveriesOf(buf, inThink, e), false)) + Classify(p.buf, p.inThink)
            == Classify(buf, inThink)
  {
    hide ProduceAll, Produce, Drain, ToEvents, EventMarks, Classify, Part, DeliveriesOf;
    ProduceCases(buf, inThink, e);
    DeliveredOne(buf, inThink, e);
    EventMarksOne(e);
    if e.Finish? || e.Error? {
      var d := Drain(buf, inThink, true);
      FinalDrain(buf, inThink);
      NothingLeft(d.inThink);
      assert EventMarks(ToEvents(d.out)) + [] == EventMarks(ToEvents(d.out));
    } else {
      assert [] + Classify(buf, inThink) == Classify(buf, inThink);
    }
  }

  /** However upstream cut its text into deltas, whether or not a Finish came before the end, and whatever
      upstream said or called itself in between: what is made from its text is exactly the characters of
      the one-shot split, in order and each on its channel, and its own events are handed on as they are. */
  lemma {:induction false} ForwardedSplits(body: seq<StreamEvent>, after: seq<StreamEvent>)
    requires Upstream(body, after)
    ensures var es := body + after; var ds := ForwardedDeliveries(es); var marks := Classify(AllText(body), false);
            && Events(ds) == Forwarded(es) && Part(ds, true) == NotText(es)
            && EventMarks(Part(ds, false)) == marks
            && AllText(Part(ds, false)) == Channel(marks, false)
            && AllReasoning(Part(ds, false)) == Channel(marks, true)
  {
    hide Classify, Channel, Drain, ToEvents, ProduceAll, AllText, AllReasoning, Forwarded, EventMarks, Deliveries,
         Part,
         NotText, ForwardedDeliveries;
    var es := body + after;
    var p := ProduceAll(body, "", false);
    var q := ProduceAll(after, p.buf, p.inThink);
    var ds, more := Deliveries(body, "", false), Deliveries(after, p.buf, p.inThink);
    var last := ToEvents(Drain(q.buf, q.inThink, true).out);
    ProduceAllConcat(body, after, "", false);
    DeliveriesConcat(body, after, "", false);
    ForwardedDeliveriesAre(es);
    PartConcat(ds, more, false);
    Assoc(Part(ds, false), Part(more, false), last);
    assert "" + AllText(body) + "" == AllText(body) && p.buf + "" == p.buf;
    BodySound(body, "", false, "");
    HeldComesOut(after, p.buf, p.inThink);
    EventMarksConcat(Part(ds, false), Part(more, false) + last);
    ChannelsOfMarks(Part(ForwardedDeliveries(es), false));
  }

  /** So the characters the adapter is handed are those of the split, interleaved with upstream's own
      reasoning; the answer text is that of the split, and without such reasoning nothing else is said. */
  lemma {:induction false} ForwardedInterleaves(body: seq<StreamEvent>, after: seq<StreamEvent>)
    requires Upstream(body, after)
    ensures var es := body + after; var marks := Classify(AllText(body), false);
            && Interleaves(EventMarks(Forwarded(es)), marks, Paint(AllReasoning(es), true))
            && AllText(Forwarded(es)) == Channel(marks, false)
            && (AllReasoning(es) == "" ==>
                  EventMarks(Forwarded(es)) == marks && AllReasoning(Forwarded(es)) == Channel(marks, true))
  {
    hide Upstream, Classify, Channel, AllText, AllReasoning, Forwarded, EventMarks, Part, Paint, NotText,
         ForwardedDeliveries, Interleaves;
    var es := body + after;
    var marks := Classify(AllText(body), false);
    ForwardedSplits(body, after);
    PartsInterleave(ForwardedDeliveries(es));
    OwnMarks(es);
    ChannelPaint(AllReasoning(es), true, false);
    InterleavesChannel(EventMarks(Forwarded(es)), marks, Paint(AllReasoning(es), true), false);
    ChannelsOfMarks(Forwarded(es));
    PaintOne("", true);
    InterleavesNothing(EventMarks(Forwarded(es)), marks);
  }

  // ---- Any stream at all: text may go on after an end ----

  /** The reference on a whole stream: the text up to each end is scanned at once, and so is what follows
      the last one; every scan begins in the mode in which the one before it ended. */
  function ScanAll(es: seq<StreamEvent>, text: string, think: bool): seq<Mark> {
    if es == [] then Classify(text, think)
    else if es[0].Text? then ScanAll(es[1..], text + es[0].text, think)
    else if EndsText(es[0]) then Classify(text, think) + ScanAll(es[1..], "", ModeAfter(text, think))
    else ScanAll(es[1..], text, think)
  }

  lemma {:induction false} ScanAllUnfolds(es: seq<StreamEvent>, text: string, think: bool)
    ensures es == [] ==> ScanAll(es, text, think) == Classify(text, think)
    ensures es != [] ==>
              ScanAll(es, text, think)
              == if es[0].Text? then ScanAll(es[1..], text + es[0].text, think)
                 else if es[0].Finish? || es[0].Error? then
                   Classify(text, think) + ScanAll(es[1..], "", ModeAfter(text, think))
                 else ScanAll(es[1..], text, think)
  {
    hide Classify, ModeAfter;
  }

  /** Settling what a drain settles first changes nothing. */
  lemma {:induction false} ScanDrained(es: seq<StreamEvent>, text: string, think: bool)
    ensures var d := Drain(text, think, false);
            ScanAll(es, text, think) == Marks(d.out) + ScanAll(es, d.buf, d.inThink)
  {
    hide *;
    var d := Drain(text, think, false);
    ScanAllUnfolds(es, text, think);
    ScanAllUnfolds(es, d.buf, d.inThink);
    DrainSound(text, think, false, "");
    assert text + "" == text && d.buf + "" == d.buf;
    if es != [] {
      var e := es[0];
      if e.Text? {
        var f := Drain(d.buf + e.text, d.inThink, false);
        ScanDrained(es[1..], text + e.text, think);
        ScanDrained(es[1..], d.buf + e.text, d.inThink);
        DrainJoin(text, e.text, think);
        Assoc(Marks(d.out), Marks(f.out), ScanAll(es[1..], f.buf, f.inThink));
      } else if e.Finish? || e.Error? {
        DrainMode(text, think, false);
        DrainLeaves(text, think, false);
        ProperIsShort(d.buf, d.inThink);
        ModeOfShort(d.buf, d.inThink);
        Assoc(Marks(d.out), Classify(d.buf, d.inThink), ScanAll(es[1..], "", d.inThink));
      } else {
        ScanDrained(es[1..], text, think);
      }
    }
  }

  lemma {:induction false} ProperIsShort(buf: string, think: bool)
    requires buf < Tag(think)
    ensures |buf| < |Tag(think)|
  {
  }

  /** From any state of the splitter: what is made from the text, the last flush included. */
  lemma {:induction false} StreamScans(es: seq<StreamEvent>, buf: string, inThink: bool)
    ensures var p := ProduceAll(es, buf, inThink);
            EventMarks(Part(Deliveries(es, buf, inThink), false) + ToEvents(Drain(p.buf, p.inThink, true).out))
            == ScanAll(es, buf, inThink)
  {
    hide *;
    DeliveriesUnfold(es, buf, inThink);
    ScanAllUnfolds(es, buf, inThink);
    PartSnoc([], Delivery(Finish(""), true), false);
    if es == [] {
      BodyNil(buf, inThink, "");
      FinalDrain(buf, inThink);
      assert [] + ToEvents(Drain(buf, inThink, true).out) == ToEvents(Drain(buf, inThink, true).out);
    } else {
      var p := Produce(buf, inThink, es[0]);
      var q := ProduceAll(es[1..], p.buf, p.inThink);
      var last := ToEvents(Drain(q.buf, q.inThink, true).out);
      var one, rest := DeliveriesOf(buf, inThink, es[0]), Deliveries(es[1..], p.buf, p.inThink);
      StreamScans(es[1..], p.buf, p.inThink);
      ProduceAllUnfolds(es, buf, inThink);
      PartConcat(one, rest, false);
      EventMarksConcat(Part(one, false), Part(rest, false) + last);
      Assoc(Part(one, false), Part(rest, false), last);
      EventScans(es[0], buf, inThink, es[1..]);
    }
  }

  lemma {:induction false} EventScans(e: StreamEvent, buf: string, inThink: bool, rest: seq<StreamEvent>)
    ensures var p := Produce(buf, inThink, e);
            EventMarks(Part(DeliveriesOf(buf, inThink, e), false)) + ScanAll(rest, p.buf, p.inThink)
            == if e.Text? then ScanAll(rest, buf + e.text, inThink)
               else if e.Finish? || e.Error? then Classify(buf, inThink) + ScanAll(rest, "", ModeAfter(buf, inThink))
               else ScanAll(rest, buf, inThink)
  {
    hide Produce, Drain, ToEvents, EventMarks, Classify, Part, DeliveriesOf, ScanAll, ModeAfter;
    ProduceCases(buf, inThink, e);
    DeliveredOne(buf, inThink, e);
    EventMarksOne(e);
    if e.Text? {
      SegmentMarks(Drain(buf + e.text, inThink, false).out);
      ScanDrained(rest, buf + e.text, inThink);
    } else if e.Finish? || e.Error? {
      FinalDrain(buf, inThink);
      DrainMode(buf, inThink, true);
    } else {
      assert [] + ScanAll(rest, buf, inThink) == ScanAll(rest, buf, inThink);
    }
  }

  /** Every stream, with ends wherever they come and text after them: what is made from upstream's text is
      the reference scan, in order and each on its channel, upstream's own events are handed on as they
      are, and the adapter is handed the two interleaved. */
  lemma {:induction false} EveryStreamSplits(es: seq<StreamEvent>)
    ensures var ds := ForwardedDeliveries(es);
            && Events(ds) == Forwarded(es) && Part(ds, true) == NotText(es)
            && EventMarks(Part(ds, false)) == ScanAll(es, "", false)
    ensures Interleaves(EventMarks(Forwarded(es)), ScanAll(es, "", false), Paint(AllReasoning(es), true))
  {
    hide *;
    ForwardedDeliveriesAre(es);
    StreamScans(es, "", false);
    PartsInterleave(ForwardedDeliveries(es));
    OwnMarks(es);
  }

  // ---- Everything else passes by the splitter ----

  lemma {:induction false} ForwardedKeepsOthers(es: seq<StreamEvent>)
    ensures Untouched(Forwarded(es)) == Untouched(es)
  {
    hide *;
    var p := ProduceAll(es, "", false);
    var segs := Drain(p.buf, p.inThink, true).out;
    ForwardedParts(es);
    OtherEventsPassThrough(es, "", false);
    UntouchedSegments(segs);
    UntouchedConcat(p.events, ToEvents(segs));
    assert Untouched(p.events) + [] == Untouched(p.events);
  }

  /** The same text and reasoning in the same order, the same calls, the same end. */
  ghost predicate SameMeaning(a: seq<StreamEvent>, b: seq<StreamEvent>) {
    EventMarks(a) == EventMarks(b) && SameCalls(a, b) && SameEnd(a, b)
  }

  lemma {:induction false} SameChannels(a: seq<StreamEvent>, b: seq<StreamEvent>)
    requires SameMeaning(a, b)
    ensures AllText(a) == AllText(b) && AllReasoning(a) == AllReasoning(b)
  {
    hide EventMarks, AllText, AllReasoning, SameCalls, SameEnd;
    ChannelsOfMarks(a);
    ChannelsOfMarks(b);
  }

  ghost predicate SameCalls(a: seq<StreamEvent>, b: seq<StreamEvent>) {
    && ToolIndexes(a) == ToolIndexes(b)
    && forall t :: SameCall(a, b, t)
  }

  predicate SameCall(a: seq<StreamEvent>, b: seq<StreamEvent>, t: int) {
    && ToolId(a, t) == ToolId(b, t) && ToolType(a, t) == ToolType(b, t)
    && ToolName(a, t) == ToolName(b, t) && ToolArguments(a, t) == ToolArguments(b, t)
  }

  predicate SameEnd(a: seq<StreamEvent>, b: seq<StreamEvent>) {
    && LastFinish(a, "") == LastFinish(b, "") && Responses.KeptFinish(a) == Responses.KeptFinish(b)
    && LastUsage(a) == LastUsage(b)
  }

  /** Calls, finish and usage are those of the events that carry no text. */
  lemma {:induction false} OthersDecide(es: seq<StreamEvent>)
    ensures SameCalls(es, Untouched(es)) && SameEnd(es, Untouched(es))
  {
    hide SameCalls, SameEnd, Untouched;
    if es == [] {
      UntouchedNone();
      SameAsSelf(es);
    } else {
      var before, e := Front(es), Last(es);
      OthersDecide(before);
      assert es == before + [e];
      UntouchedConcat(before, [e]);
      UntouchedOne(e);
      if e.Text? || e.Reasoning? {
        assert Untouched(before) + [] == Untouched(before);
        TextKeeps(before, e, Untouched(before));
      } else {
        BothGrow(before, Untouched(before), e);
      }
    }
  }

  lemma {:induction false} UntouchedNone()
    ensures Untouched([]) == []
  {
  }

  lemma {:induction false} UntouchedOne(e: StreamEvent)
    ensures Untouched([e]) == if e.Text? || e.Reasoning? then [] else [e]
  {
    assert [e][1..] == [];
  }

  lemma {:induction false} SameAsSelf(es: seq<StreamEvent>)
    ensures SameCalls(es, es) && SameEnd(es, es)
  {
  }

  lemma {:induction false} TextKeeps(a: seq<StreamEvent>, e: StreamEvent, b: seq<StreamEvent>)
    requires SameCalls(a, b) && SameEnd(a, b) && (e.Text? || e.Reasoning?)
    ensures SameCalls(a + [e], b) && SameEnd(a + [e], b)
  {
    hide ToolIndexes, ToolId, ToolType, ToolName, ToolArguments, LastFinish, LastUsage, Responses.KeptFinish;
    EndSnoc(a, e, "");
    Responses.KeptSnoc(a, e);
    OrderSnoc(a, e);
    assert ToolIndexes(a) + [] == ToolIndexes(a);
    forall t ensures SameCall(a + [e], b, t) {
      assert SameCall(a, b, t);
      ToolSnoc(a, e, t);
      assert ToolArguments(a, t) + "" == ToolArguments(a, t);
    }
  }

  lemma {:induction false} BothGrow(a: seq<StreamEvent>, b: seq<StreamEvent>, e: StreamEvent)
    requires SameCalls(a, b) && SameEnd(a, b)
    ensures SameCalls(a + [e], b + [e]) && SameEnd(a + [e], b + [e])
  {
    hide ToolIndexes, ToolId, ToolType, ToolName, ToolArguments, LastFinish, LastUsage, Responses.KeptFinish;
    EndSnoc(a, e, "");
    EndSnoc(b, e, "");
    Responses.KeptSnoc(a, e);
    Responses.KeptSnoc(b, e);
    OrderSnoc(a, e);
    OrderSnoc(b, e);
    forall t ensures SameCall(a + [e], b + [e], t) {
      assert SameCall(a, b, t);
      ToolSnoc(a, e, t);
      ToolSnoc(b, e, t);
    }
  }

  lemma {:induction false} ThroughOthers(a: seq<StreamEvent>, b: seq<StreamEvent>, u: seq<StreamEvent>)
    requires SameCalls(a, u) && SameEnd(a, u) && SameCalls(b, u) && SameEnd(b, u)
    ensures SameCalls(a, b) && SameEnd(a, b)
  {
    hide ToolIndexes, ToolId, ToolType, ToolName, ToolArguments, LastFinish, LastUsage, Responses.KeptFinish;
    forall t ensures SameCall(a, b, t) {
      assert SameCall(a, u, t) && SameCall(b, u, t);
    }
  }

  // ---- What that means for each client ----

  /** The Responses object of the streaming handler. */
  lemma {:induction false} ResponsesStreamIgnoresCuts(res: ResponsesProtocol.Response,
                                                  client: ResponsesProtocol.Client,
                                                      a: seq<StreamEvent>, b: seq<StreamEvent>)
    requires SameMeaning(a, b) && Responses.Faithful(res, client, a)
    ensures Responses.Faithful(res, client, b)
  {
    hide AllText, AllReasoning, ToolIndexes, ToolId, ToolType, ToolName, ToolArguments, LastFinish, LastUsage,
         Responses.KeptFinish, Responses.OutputMatches, Responses.StatusOf, EventMarks;
    SameChannels(a, b);
    forall k | 0 <= k < |client.calls| ensures Responses.CallIsTool(client.calls[k], ToolIndexes(b)[k], b) {
      assert Responses.CallIsTool(client.calls[k], ToolIndexes(a)[k], a) && SameCall(a, b, ToolIndexes(a)[k]);
    }
  }

  /** The Responses object of the non-streaming handler. */
  lemma {:induction false} ResponsesAnswerIgnoresCuts(res: ResponsesProtocol.Response, a: seq<StreamEvent>,
                                                  b: seq<StreamEvent>)
    requires SameMeaning(a, b) && Responses.AnswersWith(res, a)
    ensures Responses.AnswersWith(res, b)
  {
    hide AllText, AllReasoning, ToolIndexes, ToolId, ToolType, ToolName, ToolArguments, LastFinish, LastUsage,
         Responses.StatusOf, EventMarks;
    SameChannels(a, b);
    var r := if AllReasoning(a) != "" then 1 else 0;
    var m := if AllText(a) != "" then r + 1 else r;
    forall k | 0 <= k < |ToolIndexes(b)|
      ensures Responses.IsToolOutput(res.output[m + k], res.status, ToolIndexes(b)[k], b)
    {
      assert Responses.IsToolOutput(res.output[m + k], res.status, ToolIndexes(a)[k], a);
      assert SameCall(a, b, ToolIndexes(a)[k]);
    }
  }

  // ---- The order in which the clients are shown text and reasoning ----

  /** The characters a Responses client is shown, in order. */
  function PieceMarks(pieces: seq<ResponsesProtocol.Piece>): seq<Mark> {
    if pieces == [] then []
    else
      PieceMarks(Front(pieces)) + match Last(pieces)
                                  case TextPiece(text) => Paint(text, false)
                                  case ReasoningPiece(text) => Paint(text, true)
                                  case _ => []
  }

  lemma {:induction false} PieceMarksSnoc(pieces: seq<ResponsesProtocol.Piece>, piece: ResponsesProtocol.Piece)
    ensures PieceMarks([]) == []
    ensures PieceMarks(pieces + [piece])
            == PieceMarks(pieces) + if piece.TextPiece? then Paint(piece.text, false)
                                    else if piece.ReasoningPiece? then Paint(piece.text, true) else []
  {
    hide Paint;
    SnocParts(pieces, piece);
  }

  /** The transcript keeps the characters in order, wherever its items begin and end. */
  lemma {:induction false} TranscriptMarks(es: seq<StreamEvent>)
    ensures PieceMarks(Responses.Transcript(es)) == EventMarks(es)
  {
    hide PieceMarks, EventMarks, Paint, Responses.Transcript, Responses.WithDone, Responses.OpenKind,
         Responses.KeptFinish,
         ToolIndexes;
    if es == [] {
      PieceMarksSnoc([], ResponsesProtocol.TextPiece(""));
      NothingTranscribed();
      EventMarksOne(Text(""));
    } else {
      var before, e := Front(es), Last(es);
      assert es == before + [e];
      TranscriptMarks(before);
      Responses.TranscriptSnoc(before, e);
      EventMarksSnoc(before, e);
      var closed := Responses.WithDone(Responses.Transcript(before), Responses.OpenKind(before).Some?,
                                       Responses.KeptFinish(before));
      DoneShowsNothing(Responses.Transcript(before), Responses.OpenKind(before).Some?, Responses.KeptFinish(before));
      match e
      case Text(text) =>
        OpenedThenShown(closed, ResponsesProtocol.Message, ResponsesProtocol.TextPiece(text));
        PieceMarksSnoc(Responses.Transcript(before), ResponsesProtocol.TextPiece(text));
        PieceMarksSnoc(closed, ResponsesProtocol.TextPiece(text));
      case Reasoning(text) =>
        OpenedThenShown(closed, ResponsesProtocol.Thinking, ResponsesProtocol.ReasoningPiece(text));
        PieceMarksSnoc(Responses.Transcript(before), ResponsesProtocol.ReasoningPiece(text));
        PieceMarksSnoc(closed, ResponsesProtocol.ReasoningPiece(text));
      case ToolCall(tc) =>
        OpenedThenShown(closed, ResponsesProtocol.Call, ResponsesProtocol.ArgsPiece(tc.arguments));
        PieceMarksSnoc(closed, ResponsesProtocol.ArgsPiece(tc.arguments));
      case _ =>
    }
  }

  lemma {:induction false} NothingTranscribed()
    ensures Responses.Transcript([]) == []
  {
  }

  lemma {:induction false} DoneShowsNothing(pieces: seq<ResponsesProtocol.Piece>, open: bool, reason: string)
    ensures PieceMarks(Responses.WithDone(pieces, open, reason)) == PieceMarks(pieces)
  {
    hide PieceMarks, Responses.StatusOf;
    var (status, details) := Responses.StatusOf(reason);
    PieceMarksSnoc(pieces, ResponsesProtocol.DonePiece(status, details));
    assert PieceMarks(pieces) + [] == PieceMarks(pieces);
  }

  lemma {:induction false} OpenedThenShown(pieces: seq<ResponsesProtocol.Piece>, kind: ResponsesProtocol.Kind,
                                           piece: ResponsesProtocol.Piece)
    ensures var started := pieces + [ResponsesProtocol.Opened(kind)];
            PieceMarks(started) == PieceMarks(pieces) && PieceMarks(started + [piece]) == PieceMarks(pieces + [piece])
  {
    hide PieceMarks, Paint;
    var started := pieces + [ResponsesProtocol.Opened(kind)];
    PieceMarksSnoc(pieces, ResponsesProtocol.Opened(kind));
    PieceMarksSnoc(pieces, piece);
    PieceMarksSnoc(started, piece);
    assert PieceMarks(pieces) + [] == PieceMarks(pieces);
  }

  lemma {:induction false} CallsDoneShowNothing(pieces: seq<ResponsesProtocol.Piece>, n: nat,
                                                status: ResponsesProtocol.Status)
    ensures PieceMarks(Responses.WithCallsDone(pieces, n, status)) == PieceMarks(pieces)
  {
    hide PieceMarks;
    if n > 0 {
      CallsDoneShowNothing(pieces, n - 1, status);
      PieceMarksSnoc(Responses.WithCallsDone(pieces, n - 1, status), ResponsesProtocol.DonePiece(status, None));
    }
  }

  lemma {:induction false} WholeTranscriptMarks(es: seq<StreamEvent>)
    ensures PieceMarks(Responses.WholeTranscript(es)) == EventMarks(es)
  {
    hide PieceMarks, EventMarks, Responses.Transcript, Responses.WithDone, Responses.WithCallsDone,
         Responses.OpenKind,
         Responses.KeptFinish, ToolIndexes;
    var open, reason := Responses.OpenKind(es).Some?, Responses.KeptFinish(es);
    var ended := Responses.WithDone(Responses.Transcript(es), open, reason);
    TranscriptMarks(es);
    DoneShowsNothing(Responses.Transcript(es), open, reason);
    CallsDoneShowNothing(ended, |ToolIndexes(es)|, Responses.CallStatus(reason));
  }

  /** The client of the Responses stream is shown the characters of the one-shot split, in order and each
      on its channel, interleaved with upstream's own reasoning, whatever tool calls stand between them. */
  lemma {:induction false} ResponsesShowsSplit(body: seq<StreamEvent>, after: seq<StreamEvent>)
    requires Upstream(body, after)
    ensures var shown := PieceMarks(Responses.WholeTranscript(Forwarded(body + after)));
            var marks, own := Classify(AllText(body), false), AllReasoning(body + after);
            Interleaves(shown, marks, Paint(own, true)) && (own == "" ==> shown == marks)
  {
    hide *;
    ForwardedInterleaves(body, after);
    WholeTranscriptMarks(Forwarded(body + after));
  }

  // ---- The blocks the Anthropic client is shown ----

  /** The maximal runs of characters of one channel. */
  function MarkRuns(ms: seq<Mark>): seq<Segment> {
    if ms == [] then [] else AddRun(MarkRuns(Front(ms)), [Last(ms).c], Last(ms).thinking)
  }

  function AddRun(runs: seq<Segment>, text: string, think: bool): seq<Segment> {
    if runs != [] && Last(runs).thinking == think then Front(runs) + [Segment(Last(runs).text + text, think)]
    else runs + [Segment(text, think)]
  }

  /** They are the characters again, none is empty, and neighbours are of different channels. */
  lemma {:induction false} MarkRunsAreMaximal(ms: seq<Mark>)
    ensures Marks(MarkRuns(ms)) == ms
    ensures forall r :: r in MarkRuns(ms) ==> r.text != ""
    ensures forall i :: 0 < i < |MarkRuns(ms)| ==> MarkRuns(ms)[i - 1].thinking != MarkRuns(ms)[i].thinking
  {
    hide Marks;
    if ms == [] {
      MarksNil();
    } else {
      MarkRunsAreMaximal(Front(ms));
      AddRunMarks(MarkRuns(Front(ms)), Last(ms));
      assert Front(ms) + [Last(ms)] == ms;
    }
  }

  lemma {:induction false} AddRunMarks(runs: seq<Segment>, m: Mark)
    ensures Marks(AddRun(runs, [m.c], m.thinking)) == Marks(runs) + [m]
  {
    hide Marks;
    OneRunMarks([m.c], m.thinking);
    assert Paint([m.c], m.thinking) == [m];
    if runs != [] && Last(runs).thinking == m.thinking {
      var before, text := Front(runs), Last(runs).text;
      assert runs == before + [Segment(text, m.thinking)];
      OneRunMarks(text, m.thinking);
      OneRunMarks(text + [m.c], m.thinking);
      MarksConcat(before, [Segment(text, m.thinking)]);
      MarksConcat(before, [Segment(text + [m.c], m.thinking)]);
      assert Paint(text + [m.c], m.thinking) == Paint(text, m.thinking) + [m];
      Assoc(Marks(before), Paint(text, m.thinking), [m]);
    } else {
      MarksConcat(runs, [Segment([m.c], m.thinking)]);
    }
  }

  lemma {:induction false} OneRunMarks(text: string, think: bool)
    ensures Marks([Segment(text, think)]) == Paint(text, think)
  {
    assert [Segment(text, think)][1..] == [];
    assert Paint(text, think) + [] == Paint(text, think);
  }

  /** Text of one channel joins the last run or starts a new one, as a whole. */
  lemma {:induction false} MarkRunsPaint(ms: seq<Mark>, text: string, think: bool)
    requires text != ""
    ensures MarkRuns(ms + Paint(text, think)) == AddRun(MarkRuns(ms), text, think)
    decreases |text|
  {
    hide MarkRuns;
    var before, c := Front(text), Last(text);
    var m := Mark(c, think);
    assert text == before + [c];
    assert Paint(text, think) == Paint(before, think) + [m];
    MarkRunsSnoc(ms + Paint(before, think), m);
    assert ms + Paint(text, think) == (ms + Paint(before, think)) + [m];
    if before == "" {
      assert ms + Paint(before, think) == ms && [c] == text;
    } else {
      MarkRunsPaint(ms, before, think);
      AddRunTwice(MarkRuns(ms), before, [c], think);
    }
  }

  lemma {:induction false} MarkRunsSnoc(ms: seq<Mark>, m: Mark)
    ensures MarkRuns(ms + [m]) == AddRun(MarkRuns(ms), [m.c], m.thinking)
  {
    hide AddRun;
    SnocParts(ms, m);
  }

  lemma {:induction false} AddRunTwice(runs: seq<Segment>, a: string, b: string, think: bool)
    ensures AddRun(AddRun(runs, a, think), b, think) == AddRun(runs, a + b, think)
  {
    if runs != [] && Last(runs).thinking == think {
      Assoc(Last(runs).text, a, b);
    }
  }

  /** No increment is empty. */
  predicate Dense(es: seq<StreamEvent>) {
    forall e :: e in es ==> (e.Text? ==> e.text != "") && (e.Reasoning? ==> e.reasoning != "")
  }

  function HeadOf(think: bool): Anthropic.Head {
    if think then Anthropic.ThinkingHead else Anthropic.TextHead
  }

  /** A block of text or thinking as one run of text. */
  predicate IsRun(b: Anthropic.Block, run: Segment) {
    b.head == HeadOf(run.thinking) && Anthropic.JoinAll(b.deltas) == run.text
  }

  ghost predicate AreRuns(blocks: seq<Anthropic.Block>, runs: seq<Segment>) {
    |blocks| == |runs| && forall i :: 0 <= i < |runs| ==> IsRun(blocks[i], runs[i])
  }

  /** The text and thinking blocks are the maximal runs of what the events say. */
  lemma {:induction false} BlocksAreRuns(es: seq<StreamEvent>)
    requires Dense(es)
    ensures AreRuns(Anthropic.TextBlocks(es), MarkRuns(EventMarks(es)))
  {
    hide EventMarks, MarkRuns, IsRun, Paint, Anthropic.AddIncrement, AddRun;
    if es == [] {
      NoBlocks();
    } else {
      var before, e := Front(es), Last(es);
      assert es == before + [e] && e in es;
      assert forall d :: d in before ==> d in es;
      BlocksAreRuns(before);
      EventMarksSnoc(before, e);
      if e.Text? || e.Reasoning? {
        var text, think := if e.Text? then e.text else e.reasoning, e.Reasoning?;
        MarkRunsPaint(EventMarks(before), text, think);
        AddBoth(Anthropic.TextBlocks(before), MarkRuns(EventMarks(before)), e);
      } else {
        Anthropic.AddNothing(Anthropic.TextBlocks(before), e);
        assert EventMarks(before) + [] == EventMarks(before);
      }
    }
  }

  lemma {:induction false} NoBlocks()
    ensures MarkRuns(EventMarks([])) == [] && Anthropic.TextBlocks([]) == []
  {
  }

  lemma {:induction false} AddBoth(blocks: seq<Anthropic.Block>, runs: seq<Segment>, e: StreamEvent)
    requires AreRuns(blocks, runs) && (e.Text? || e.Reasoning?)
    ensures var text := if e.Text? then e.text else e.reasoning;
            AreRuns(Anthropic.AddIncrement(blocks, e), AddRun(runs, text, e.Reasoning?))
  {
    hide Anthropic.JoinAll;
    JoinAllSnoc([], Anthropic.IncrementOf(e));
    if blocks != [] {
      assert IsRun(Last(blocks), Last(runs));
      JoinAllSnoc(Last(blocks).deltas, Anthropic.IncrementOf(e));
    }
  }

  lemma {:induction false} JoinAllSnoc(deltas: seq<string>, text: string)
    ensures Anthropic.JoinAll(deltas + [text]) == Anthropic.JoinAll(deltas) + text
    ensures Anthropic.JoinAll([text]) == text
  {
    SnocParts(deltas, text);
    assert Front([text]) == [] && "" + text == text;
  }

  /** The characters of a list of blocks, in order. */
  function BlockMarks(blocks: seq<Anthropic.Block>): seq<Mark> {
    if blocks == [] then []
    else BlockMarks(Front(blocks)) + Paint(Anthropic.JoinAll(Last(blocks).deltas), Last(blocks).head == HeadOf(true))
  }

  lemma {:induction false} BlockMarksSnoc(blocks: seq<Anthropic.Block>, b: Anthropic.Block)
    ensures BlockMarks([]) == []
    ensures BlockMarks(blocks + [b])
            == BlockMarks(blocks) + Paint(Anthropic.JoinAll(b.deltas), b.head == HeadOf(true))
  {
    hide Paint;
    SnocParts(blocks, b);
  }

  /** The text and thinking blocks say what the events say, in order. */
  lemma {:induction false} TextBlocksMarks(es: seq<StreamEvent>)
    ensures BlockMarks(Anthropic.TextBlocks(es)) == EventMarks(es)
  {
    hide BlockMarks, EventMarks, MarksOf, Anthropic.AddIncrement;
    EventMarksOne(Finish(""));
    if es == [] {
      BlockMarksSnoc([], Anthropic.Block(Anthropic.TextHead, []));
    } else {
      var before, e := Front(es), Last(es);
      assert before + [e] == es;
      TextBlocksMarks(before);
      EventMarksSnoc(before, e);
      IncrementMarks(Anthropic.TextBlocks(before), e);
    }
  }

  lemma {:induction false} IncrementMarks(blocks: seq<Anthropic.Block>, e: StreamEvent)
    ensures BlockMarks(Anthropic.AddIncrement(blocks, e)) == BlockMarks(blocks) + MarksOf(e)
  {
    hide BlockMarks, Paint, Anthropic.JoinAll;
    if e.Text? || e.Reasoning? {
      var head, text := HeadOf(e.Reasoning?), if e.Text? then e.text else e.reasoning;
      JoinAllSnoc([], text);
      BlockMarksSnoc(blocks, Anthropic.Block(head, [text]));
      if blocks != [] && Last(blocks).head == head {
        var before, deltas := Front(blocks), Last(blocks).deltas;
        assert blocks == before + [Anthropic.Block(head, deltas)];
        JoinAllSnoc(deltas, text);
        BlockMarksSnoc(before, Anthropic.Block(head, deltas));
        BlockMarksSnoc(before, Anthropic.Block(head, deltas + [text]));
        PaintConcat(Anthropic.JoinAll(deltas), text, e.Reasoning?);
        Assoc(BlockMarks(before), Paint(Anthropic.JoinAll(deltas), e.Reasoning?), Paint(text, e.Reasoning?));
      }
    } else {
      Anthropic.AddNothing(blocks, e);
      assert BlockMarks(blocks) + [] == BlockMarks(blocks);
    }
  }

  /** Upstream's own reasoning is never empty; then nothing the splitter hands on is. */
  predicate SaysSomething(es: seq<StreamEvent>) {
    forall e :: e in es && e.Reasoning? ==> e.reasoning != ""
  }

  lemma {:induction false} ProducedDense(es: seq<StreamEvent>, buf: string, inThink: bool)
    requires SaysSomething(es)
    ensures Dense(ProduceAll(es, buf, inThink).events)
  {
    hide Drain, ToEvents;
    if es != [] {
      var p := Produce(buf, inThink, es[0]);
      ProducedDense(es[1..], p.buf, p.inThink);
      DrainedDense(if es[0].Text? then buf + es[0].text else buf, inThink, !es[0].Text?);
    }
  }

  lemma {:induction false} DrainedDense(buf: string, inThink: bool, flush: bool)
    ensures Dense(ToEvents(Drain(buf, inThink, flush).out))
  {
    hide Drain;
    var segs := Drain(buf, inThink, flush).out;
    DrainLeaves(buf, inThink, flush);
    forall e | e in ToEvents(segs) ensures (e.Text? ==> e.text != "") && (e.Reasoning? ==> e.reasoning != "") {
      var i :| 0 <= i < |segs| && ToEvents(segs)[i] == e;
      assert segs[i] in segs;
    }
  }

  lemma {:induction false} ForwardedDense(es: seq<StreamEvent>)
    requires SaysSomething(es)
    ensures Dense(Forwarded(es))
  {
    hide Drain, ToEvents, ProduceAll, SaysSomething;
    var p := ProduceAll(es, "", false);
    ForwardedParts(es);
    ProducedDense(es, "", false);
    DrainedDense(p.buf, p.inThink, true);
  }

  /** The Anthropic client is shown the characters of the one-shot split, in order and each on its channel,
      interleaved with upstream's own reasoning, in blocks that are the maximal runs of what is shown. */
  lemma {:induction false} AnthropicShowsSplit(body: seq<StreamEvent>, after: seq<StreamEvent>)
    requires Upstream(body, after)
    ensures var blocks := Anthropic.TextBlocks(Forwarded(body + after)); var shown := BlockMarks(blocks);
            var marks, own := Classify(AllText(body), false), AllReasoning(body + after);
            && Interleaves(shown, marks, Paint(own, true)) && (own == "" ==> shown == marks)
            && (SaysSomething(body + after) ==> AreRuns(blocks, MarkRuns(shown)))
            && Anthropic.Joined(blocks, Anthropic.TextHead) == Channel(marks, false)
            && (own == "" ==> Anthropic.Joined(blocks, Anthropic.ThinkingHead) == Channel(marks, true))
  {
    hide *;
    ForwardedInterleaves(body, after);
    TextBlocksMarks(Forwarded(body + after));
    if SaysSomething(body + after) {
      ForwardedDense(body + after);
      BlocksAreRuns(Forwarded(body + after));
    }
    Anthropic.BlocksCarryText(Forwarded(body + after));
  }

  /** Both clients, on every stream: the characters shown are the reference scan interleaved with
      upstream's own reasoning. */
  lemma {:induction false} ClientsShowScan(es: seq<StreamEvent>)
    ensures var own := Paint(AllReasoning(es), true);
            && Interleaves(PieceMarks(Responses.WholeTranscript(Forwarded(es))), ScanAll(es, "", false), own)
            && Interleaves(BlockMarks(Anthropic.TextBlocks(Forwarded(es))), ScanAll(es, "", false), own)
  {
    hide *;
    EveryStreamSplits(es);
    WholeTranscriptMarks(Forwarded(es));
    TextBlocksMarks(Forwarded(es));
  }

  /** Event lists of the same meaning give an Anthropic client the same runs of text and thinking, the
      same tool blocks, the same stop reason and the same output tokens: the streams differ in nothing
      but where the text of a block is cut. */
  lemma {:induction false} AnthropicStreamIgnoresCuts(a: seq<StreamEvent>, b: seq<StreamEvent>,
                                                  tools: seq<Anthropic.Block>,
                                                      start: Anthropic.Frame)
    requires SameMeaning(a, b) && Dense(a) && Dense(b)
    requires start.MessageStart? && Anthropic.AreToolBlocks(tools, a)
    ensures Anthropic.AreToolBlocks(tools, b)
    ensures var ra := Anthropic.ReceiveAll(Anthropic.CompleteStream(start, a, tools));
            var rb := Anthropic.ReceiveAll(Anthropic.CompleteStream(start, b, tools));
            && ra.Some? && rb.Some?
            && ra.value.stopReason == rb.value.stopReason && ra.value.outputTokens == rb.value.outputTokens
            && ra.value.blocks == Anthropic.TextBlocks(a) + tools && rb.value.blocks == Anthropic.TextBlocks(b) + tools
    ensures var runs := MarkRuns(EventMarks(a));
            AreRuns(Anthropic.TextBlocks(a), runs) && AreRuns(Anthropic.TextBlocks(b), runs)
  {
    hide EventMarks, MarkRuns, AreRuns, Dense, SameCall, ToolIndexes, LastFinish, LastUsage, Anthropic.TextBlocks,
         Anthropic.ReceiveAll, Anthropic.CompleteStream, Anthropic.MapStopReason, Anthropic.OutputTokens,
         Responses.KeptFinish;
    BlocksAreRuns(a);
    BlocksAreRuns(b);
    ToolBlocksCarryOver(a, b, tools);
    Anthropic.CompleteStreamAccepted(start, a, tools);
    Anthropic.CompleteStreamAccepted(start, b, tools);
    Anthropic.SameStopReason(a, ToolIndexes(a) != []);
    Anthropic.SameStopReason(b, ToolIndexes(b) != []);
  }

  lemma {:induction false} ToolBlocksCarryOver(a: seq<StreamEvent>, b: seq<StreamEvent>, tools: seq<Anthropic.Block>)
    requires SameCalls(a, b) && Anthropic.AreToolBlocks(tools, a)
    ensures Anthropic.AreToolBlocks(tools, b)
  {
    hide ToolIndexes, ToolId, ToolType, ToolName, ToolArguments;
    forall k | 0 <= k < |tools| ensures Anthropic.IsToolBlock(tools[k], ToolIndexes(b)[k], b) {
      assert Anthropic.IsToolBlock(tools[k], ToolIndexes(a)[k], a) && SameCall(a, b, ToolIndexes(a)[k]);
    }
  }
}
