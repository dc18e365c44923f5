/** Where upstream cuts its text into deltas is invisible behind the splitter: the adapters are handed the
    same events in the same places, but for where their increments are cut, and show the same to clients. */
module Cutting {
  import opened Basics
  import opened StreamEvents
  import opened ThinkSplitter
  import opened WrapStream
  import opened Pipeline
  import Anthropic
  import R = Responses
  import RP = ResponsesProtocol

  // ---- Events cut into single characters ----

  function MarkEvent(m: Mark): StreamEvent {
    ToEvent(Segment([m.c], m.thinking))
  }

  function MarkEvents(ms: seq<Mark>): (r: seq<StreamEvent>)
    ensures |r| == |ms|
  {
    seq(|ms|, i requires 0 <= i < |ms| => MarkEvent(ms[i]))
  }

  /** Upstream's events with all text cut into single characters; everything else stays where it is. */
  function SourceOf(e: StreamEvent): seq<StreamEvent> {
    if e.Text? then MarkEvents(Paint(e.text, false)) else [e]
  }

  function Source(es: seq<StreamEvent>): seq<StreamEvent> {
    if es == [] then [] else Source(Front(es)) + SourceOf(Last(es))
  }

  /** The adapter's events with all text and reasoning cut into single characters; everything else, an
      increment without characters included, stays where it is. */
  function CutOf(e: StreamEvent): seq<StreamEvent> {
    if MarksOf(e) == [] then [e] else MarkEvents(MarksOf(e))
  }

  function Cut(es: seq<StreamEvent>): seq<StreamEvent> {
    if es == [] then [] else Cut(Front(es)) + CutOf(Last(es))
  }

  lemma {:induction false} SourceSnoc(es: seq<StreamEvent>, e: StreamEvent)
    ensures Source([]) == [] && Source(es + [e]) == Source(es) + SourceOf(e)
  {
    hide SourceOf;
    SnocParts(es, e);
  }

  lemma {:induction false} CutSnoc(es: seq<StreamEvent>, e: StreamEvent)
    ensures Cut([]) == [] && Cut(es + [e]) == Cut(es) + CutOf(e)
  {
    hide CutOf;
    SnocParts(es, e);
  }

  lemma {:induction false} CutConcat(a: seq<StreamEvent>, b: seq<StreamEvent>)
    ensures Cut(a + b) == Cut(a) + Cut(b)
  {
    hide Cut, CutOf;
    CutSnoc([], Finish(""));
    if b == [] {
      assert a + b == a;
    } else {
      var before, e := Front(b), Last(b);
      CutConcat(a, before);
      CutSnoc(before, e);
      CutSnoc(a + before, e);
      assert before + [e] == b && a + b == (a + before) + [e];
    }
  }

  lemma {:induction false} CutOne(e: StreamEvent)
    ensures Cut([e]) == CutOf(e)
  {
    hide Cut, CutOf;
    CutSnoc([], e);
    assert [] + [e] == [e] && [] + CutOf(e) == CutOf(e);
  }

  lemma {:induction false} MarkEventsConcat(a: seq<Mark>, b: seq<Mark>)
    ensures MarkEvents(a + b) == MarkEvents(a) + MarkEvents(b)
  {
  }

  /** A segment list without empty segments, cut, is its characters. */
  lemma {:induction false} CutSegments(segs: seq<Segment>)
    requires forall s :: s in segs ==> s.text != ""
    ensures Cut(ToEvents(segs)) == MarkEvents(Marks(segs))
  {
    hide Cut, MarkEvents, CutOf;
    CutSnoc([], Finish(""));
    if segs == [] {
      assert ToEvents(segs) == [];
      MarksNil();
      assert MarkEvents([]) == [];
    } else {
      var seg, rest := segs[0], segs[1..];
      assert seg in segs && forall s :: s in rest ==> s in segs;
      CutSegments(rest);
      assert ToEvents(segs) == [ToEvent(seg)] + ToEvents(rest);
      CutConcat([ToEvent(seg)], ToEvents(rest));
      CutOne(ToEvent(seg));
      CutSegment(seg);
      MarkEventsConcat(Paint(seg.text, seg.thinking), Marks(rest));
    }
  }

  lemma {:induction false} CutSegment(seg: Segment)
    requires seg.text != ""
    ensures CutOf(ToEvent(seg)) == MarkEvents(Paint(seg.text, seg.thinking))
  {
  }

  lemma {:induction false} CutDrained(buf: string, think: bool, flush: bool)
    ensures var d := Drain(buf, think, flush); Cut(ToEvents(d.out)) == MarkEvents(Marks(d.out))
  {
    hide *;
    DrainLeaves(buf, think, flush);
    CutSegments(Drain(buf, think, flush).out);
  }

  // ---- The splitter does not see the cuts ----

  /** One text delta, fed as it is or character by character. */
  lemma {:induction false} TextByCharacter(text: string, buf: string, think: bool)
    requires buf < Tag(think)
    ensures var d := Drain(buf + text, think, false);
            var q := ProduceAll(MarkEvents(Paint(text, false)), buf, think);
            q.buf == d.buf && q.inThink == d.inThink && Cut(q.events) == Cut(ToEvents(d.out))
  {
    hide *;
    if text == "" {
      DrainProper(buf, think);
      PaintOne("", false);
      NoMarkEvents();
      BodyNil(buf, think, "");
      assert buf + "" == buf;
      NoSegmentEvents();
    } else {
      SplitLast(text);
      var before, c := text[..|text| - 1], text[|text| - 1];
      var events := MarkEvents(Paint(before, false));
      var d := Drain(buf + before, think, false);
      var e := Drain(d.buf + [c], d.inThink, false);
      TextByCharacter(before, buf, think);
      PaintConcat(before, [c], false);
      PaintOne([c], false);
      MarkEventsConcat(Paint(before, false), [Mark(c, false)]);
      OneMarkEvent(c);
      ProduceAllConcat(events, [Text([c])], buf, think);
      ProduceText(d.buf, d.inThink, [c]);
      var q := ProduceAll(events, buf, think);
      CutConcat(q.events, ToEvents(e.out));
      DrainJoin(buf + before, [c], think);
      Assoc(buf, before, [c]);
      CutDrained(buf + before, think, false);
      CutDrained(d.buf + [c], d.inThink, false);
      CutDrained(buf + text, think, false);
      MarkEventsConcat(Marks(d.out), Marks(e.out));
    }
  }

  lemma {:induction false} SplitLast(text: string)
    requires text != ""
    ensures text == text[..|text| - 1] + [text[|text| - 1]]
  {
  }

  lemma {:induction false} NoMarkEvents()
    ensures MarkEvents([]) == []
  {
  }

  lemma {:induction false} NoSegmentEvents()
    ensures ToEvents([]) == []
  {
  }

  lemma {:induction false} OneMarkEvent(c: char)
    ensures MarkEvents([Mark(c, false)]) == [Text([c])]
  {
  }

  lemma {:induction false} ProduceText(buf: string, think: bool, text: string)
    ensures var d := Drain(buf + text, think, false);
            ProduceAll([Text(text)], buf, think) == Produced(ToEvents(d.out), d.buf, d.inThink)
  {
    hide Drain, ToEvents;
    assert [Text(text)][1..] == [];
    assert ToEvents(Drain(buf + text, think, false).out) + [] == ToEvents(Drain(buf + text, think, false).out);
  }

  /** A whole stream, as it is or with its text cut into characters: the same buffer and mode at the end,
      and the same deliveries but for where they are cut. */
  lemma {:induction false} StreamByCharacter(es: seq<StreamEvent>)
    ensures var p, q := ProduceAll(es, "", false), ProduceAll(Source(es), "", false);
            q.buf == p.buf && q.inThink == p.inThink && Cut(q.events) == Cut(p.events)
  {
    hide *;
    SourceSnoc([], Finish(""));
    if es != [] {
      var before, e := es[..|es| - 1], es[|es| - 1];
      assert es == before + [e];
      SourceSnoc(before, e);
      StreamByCharacter(before);
      var p, q := ProduceAll(before, "", false), ProduceAll(Source(before), "", false);
      NothingHeld();
      HeldIsProper(before, "", false);
      ProduceAllConcat(before, [e], "", false);
      ProduceAllConcat(Source(before), SourceOf(e), "", false);
      EventByCharacter(e, p.buf, p.inThink);
      CutConcat(p.events, ProduceAll([e], p.buf, p.inThink).events);
      CutConcat(q.events, ProduceAll(SourceOf(e), p.buf, p.inThink).events);
    }
  }

  lemma {:induction false} NothingHeld()
    ensures "" < Tag(false)
  {
  }

  lemma {:induction false} EventByCharacter(e: StreamEvent, buf: string, think: bool)
    requires buf < Tag(think)
    ensures var p, q := ProduceAll([e], buf, think), ProduceAll(SourceOf(e), buf, think);
            q.buf == p.buf && q.inThink == p.inThink && Cut(q.events) == Cut(p.events)
  {
    hide Drain, ToEvents, ProduceAll, Cut, MarkEvents;
    if e.Text? {
      ProduceText(buf, think, e.text);
      TextByCharacter(e.text, buf, think);
    }
  }

  /** The whole forwarding loop depends on the text and the places of the other events alone. */
  lemma {:induction false} ForwardedByCharacter(es: seq<StreamEvent>)
    ensures Cut(Forwarded(es)) == Cut(Forwarded(Source(es)))
  {
    hide *;
    var p, q := ProduceAll(es, "", false), ProduceAll(Source(es), "", false);
    StreamByCharacter(es);
    ForwardedParts(es);
    ForwardedParts(Source(es));
    var held := ToEvents(Drain(p.buf, p.inThink, true).out);
    CutConcat(p.events, held);
    CutConcat(q.events, held);
  }

  /** Two upstream streams that differ only in where their text is cut, whatever else they hold (calls,
      usage, reasoning of upstream's own, ends, text after an end): the adapter is handed the same
      characters and the same other events in the same places. */
  lemma {:induction false} CutsAreInvisible(a: seq<StreamEvent>, b: seq<StreamEvent>)
    requires Source(a) == Source(b)
    ensures Cut(Forwarded(a)) == Cut(Forwarded(b))
  {
    hide *;
    ForwardedByCharacter(a);
    ForwardedByCharacter(b);
  }

  // ---- What an event list says does not depend on its cuts ----

  lemma {:induction false} CutKeepsMarks(es: seq<StreamEvent>)
    ensures EventMarks(Cut(es)) == EventMarks(es)
  {
    hide EventMarks, Cut, CutOf, MarksOf;
    EventMarksOne(Finish(""));
    CutSnoc([], Finish(""));
    if es != [] {
      var before, e := Front(es), Last(es);
      assert before + [e] == es;
      CutKeepsMarks(before);
      CutSnoc(before, e);
      EventMarksSnoc(before, e);
      EventMarksConcat(Cut(before), CutOf(e));
      CutOfMarks(e);
    }
  }

  lemma {:induction false} CutOfMarks(e: StreamEvent)
    ensures EventMarks(CutOf(e)) == MarksOf(e)
  {
    hide EventMarks, MarksOf;
    EventMarksOne(e);
    if MarksOf(e) != [] {
      MarkEventsMarks(MarksOf(e));
    }
  }

  lemma {:induction false} MarkEventsMarks(ms: seq<Mark>)
    ensures EventMarks(MarkEvents(ms)) == ms
  {
    hide EventMarks;
    EventMarksOne(Finish(""));
    if ms == [] {
      assert MarkEvents(ms) == [];
    } else {
      var before, m := Front(ms), Last(ms);
      assert before + [m] == ms && MarkEvents(ms) == MarkEvents(before) + [MarkEvent(m)];
      MarkEventsMarks(before);
      EventMarksSnoc(MarkEvents(before), MarkEvent(m));
      PaintOne([m.c], m.thinking);
    }
  }

  /** Cutting leaves the events that carry no text alone. */
  lemma {:induction false} CutKeepsOthers(es: seq<StreamEvent>)
    ensures Untouched(Cut(es)) == Untouched(es)
  {
    hide Untouched, Cut, CutOf;
    UntouchedNone();
    CutSnoc([], Finish(""));
    if es != [] {
      var before, e := Front(es), Last(es);
      assert before + [e] == es;
      CutKeepsOthers(before);
      CutSnoc(before, e);
      UntouchedConcat(before, [e]);
      UntouchedConcat(Cut(before), CutOf(e));
      CutOfOthers(e);
    }
  }

  lemma {:induction false} CutOfOthers(e: StreamEvent)
    ensures Untouched(CutOf(e)) == Untouched([e])
  {
    hide Untouched;
    UntouchedOne(e);
    if MarksOf(e) != [] {
      MarkEventsHoldNoOthers(MarksOf(e));
    }
  }

  lemma {:induction false} MarkEventsHoldNoOthers(ms: seq<Mark>)
    ensures Untouched(MarkEvents(ms)) == []
  {
    if ms != [] {
      assert MarkEvents(ms)[1..] == MarkEvents(ms[1..]);
      MarkEventsHoldNoOthers(ms[1..]);
    }
  }

  /** Lists that differ only in their cuts mean the same. */
  lemma {:induction false} SameCutSameMeaning(a: seq<StreamEvent>, b: seq<StreamEvent>)
    requires Cut(a) == Cut(b)
    ensures SameMeaning(a, b)
  {
    hide EventMarks, Cut, Untouched, SameCalls, SameEnd;
    CutKeepsMarks(a);
    CutKeepsMarks(b);
    CutKeepsOthers(a);
    CutKeepsOthers(b);
    OthersDecide(a);
    OthersDecide(b);
    ThroughOthers(a, b, Untouched(a));
  }

  // ---- What the clients are shown does not depend on the cuts ----

  /** The pieces shown, with neighbouring increments of one text or reasoning item joined. */
  function Fuse(pieces: seq<RP.Piece>): seq<RP.Piece> {
    if pieces == [] then [] else AddFused(Fuse(Front(pieces)), Last(pieces))
  }

  function AddFused(fused: seq<RP.Piece>, piece: RP.Piece): seq<RP.Piece> {
    if fused != [] && Last(fused).TextPiece? && piece.TextPiece? then
      Front(fused) + [RP.TextPiece(Last(fused).text + piece.text)]
    else if fused != [] && Last(fused).ReasoningPiece? && piece.ReasoningPiece? then
      Front(fused) + [RP.ReasoningPiece(Last(fused).text + piece.text)]
    else fused + [piece]
  }

  /** The blocks shown, each with its increments joined. */
  function Glued(blocks: seq<Anthropic.Block>): (r: seq<Anthropic.Block>)
    ensures |r| == |blocks|
  {
    seq(|blocks|, i requires 0 <= i < |blocks| => Glue(blocks[i]))
  }

  function Glue(b: Anthropic.Block): Anthropic.Block {
    Anthropic.Block(b.head, [Anthropic.JoinAll(b.deltas)])
  }

  /** Shown alike by both adapters: the same items and blocks with the same texts, the same done statuses,
      every call in the same place. */
  ghost predicate Alike(a: seq<StreamEvent>, b: seq<StreamEvent>) {
    && Fuse(R.Transcript(a)) == Fuse(R.Transcript(b))
    && R.OpenKind(a) == R.OpenKind(b) && R.KeptFinish(a) == R.KeptFinish(b) && ToolIndexes(a) == ToolIndexes(b)
    && Glued(Anthropic.TextBlocks(a)) == Glued(Anthropic.TextBlocks(b))
  }

  lemma {:induction false} FuseSnoc(pieces: seq<RP.Piece>, piece: RP.Piece)
    ensures Fuse([]) == [] && Fuse(pieces + [piece]) == AddFused(Fuse(pieces), piece)
  {
    hide AddFused;
    SnocParts(pieces, piece);
  }

  lemma {:induction false} FuseDone(a: seq<RP.Piece>, b: seq<RP.Piece>, open: bool, reason: string)
    requires Fuse(a) == Fuse(b)
    ensures Fuse(R.WithDone(a, open, reason)) == Fuse(R.WithDone(b, open, reason))
  {
    hide Fuse, AddFused, R.StatusOf;
    var (status, details) := R.StatusOf(reason);
    FuseSnoc(a, RP.DonePiece(status, details));
    FuseSnoc(b, RP.DonePiece(status, details));
  }

  lemma {:induction false} FuseCallsDone(a: seq<RP.Piece>, b: seq<RP.Piece>, n: nat, status: RP.Status)
    requires Fuse(a) == Fuse(b)
    ensures Fuse(R.WithCallsDone(a, n, status)) == Fuse(R.WithCallsDone(b, n, status))
  {
    hide Fuse, AddFused;
    if n > 0 {
      FuseCallsDone(a, b, n - 1, status);
      FuseSnoc(R.WithCallsDone(a, n - 1, status), RP.DonePiece(status, None));
      FuseSnoc(R.WithCallsDone(b, n - 1, status), RP.DonePiece(status, None));
    }
  }

  /** An increment shown after pieces that fuse alike, in the open item or in a new one. */
  lemma {:induction false} FuseIncrement(a: seq<RP.Piece>, b: seq<RP.Piece>, open: bool, reason: string, fits: bool,
                                         kind: RP.Kind, piece: RP.Piece)
    requires Fuse(a) == Fuse(b)
    ensures Fuse((if fits then a else R.WithDone(a, open, reason) + [RP.Opened(kind)]) + [piece])
            == Fuse((if fits then b else R.WithDone(b, open, reason) + [RP.Opened(kind)]) + [piece])
  {
    hide Fuse, AddFused, R.WithDone;
    FuseDone(a, b, open, reason);
    FuseSnoc(R.WithDone(a, open, reason), RP.Opened(kind));
    FuseSnoc(R.WithDone(b, open, reason), RP.Opened(kind));
    FuseSnoc(if fits then a else R.WithDone(a, open, reason) + [RP.Opened(kind)], piece);
    FuseSnoc(if fits then b else R.WithDone(b, open, reason) + [RP.Opened(kind)], piece);
  }

  lemma {:induction false} FuseTool(a: seq<RP.Piece>, b: seq<RP.Piece>, open: bool, reason: string, known: bool,
                                    args: string)
    requires Fuse(a) == Fuse(b)
    ensures var x, y := R.WithDone(a, open, reason), R.WithDone(b, open, reason);
            Fuse(R.WithArgs(if known then x else x + [RP.Opened(RP.Call)], args))
            == Fuse(R.WithArgs(if known then y else y + [RP.Opened(RP.Call)], args))
  {
    hide Fuse, AddFused, R.WithDone;
    FuseDone(a, b, open, reason);
    var x, y := R.WithDone(a, open, reason), R.WithDone(b, open, reason);
    FuseSnoc(x, RP.Opened(RP.Call));
    FuseSnoc(y, RP.Opened(RP.Call));
    FuseSnoc(if known then x else x + [RP.Opened(RP.Call)], RP.ArgsPiece(args));
    FuseSnoc(if known then y else y + [RP.Opened(RP.Call)], RP.ArgsPiece(args));
  }

  lemma {:induction false} BlocksSnoc(es: seq<StreamEvent>, e: StreamEvent)
    ensures Anthropic.TextBlocks(es + [e]) == Anthropic.AddIncrement(Anthropic.TextBlocks(es), e)
  {
    hide Anthropic.AddIncrement;
    SnocParts(es, e);
  }

  lemma {:induction false} GlueIncrement(a: seq<Anthropic.Block>, b: seq<Anthropic.Block>, e: StreamEvent)
    requires Glued(a) == Glued(b)
    ensures Glued(Anthropic.AddIncrement(a, e)) == Glued(Anthropic.AddIncrement(b, e))
  {
    hide Anthropic.JoinAll;
    assert |a| == |b|;
    assert forall i :: 0 <= i < |a| ==> Glue(a[i]) == Glued(a)[i] == Glued(b)[i] == Glue(b[i]);
    if a != [] && (e.Text? || e.Reasoning?) {
      JoinAllSnoc(Last(a).deltas, Anthropic.IncrementOf(e));
      JoinAllSnoc(Last(b).deltas, Anthropic.IncrementOf(e));
    }
  }

  /** The same event after lists shown alike. */
  lemma {:induction false} AlikeSnoc(a: seq<StreamEvent>, b: seq<StreamEvent>, e: StreamEvent)
    requires Alike(a, b)
    ensures Alike(a + [e], b + [e])
  {
    hide Fuse, Glued, R.Transcript, R.OpenKind, R.KeptFinish, ToolIndexes, Anthropic.TextBlocks, R.WithDone,
         R.WithArgs;
    R.TranscriptSnoc(a, e);
    R.TranscriptSnoc(b, e);
    R.KeptSnoc(a, e);
    R.KeptSnoc(b, e);
    OrderSnoc(a, e);
    OrderSnoc(b, e);
    BlocksSnoc(a, e);
    BlocksSnoc(b, e);
    GlueIncrement(Anthropic.TextBlocks(a), Anthropic.TextBlocks(b), e);
    var x, y, open, reason := R.Transcript(a), R.Transcript(b), R.OpenKind(a), R.KeptFinish(a);
    match e
    case Text(text) =>
      FuseIncrement(x, y, open.Some?, reason, open == Some(RP.Message), RP.Message, RP.TextPiece(text));
    case Reasoning(text) =>
      FuseIncrement(x, y, open.Some?, reason, open == Some(RP.Thinking), RP.Thinking, RP.ReasoningPiece(text));
    case ToolCall(tc) =>
      FuseTool(x, y, open.Some?, reason, tc.index in ToolIndexes(a), tc.arguments);
    case _ =>
  }

  lemma {:induction false} FuseTwice(fused: seq<RP.Piece>, a: string, b: string, think: bool)
    ensures AddFused(AddFused(fused, PieceOf(a, think)), PieceOf(b, think)) == AddFused(fused, PieceOf(a + b, think))
  {
    if fused != [] && (Last(fused).TextPiece? || Last(fused).ReasoningPiece?) {
      Assoc(Last(fused).text, a, b);
    }
  }

  function PieceOf(text: string, think: bool): RP.Piece {
    if think then RP.ReasoningPiece(text) else RP.TextPiece(text)
  }

  function Increment(text: string, think: bool): StreamEvent {
    if think then Reasoning(text) else Text(text)
  }

  lemma {:induction false} GlueTwice(blocks: seq<Anthropic.Block>, a: string, b: string, think: bool)
    ensures Glued(Anthropic.AddIncrement(Anthropic.AddIncrement(blocks, Increment(a, think)), Increment(b, think)))
            == Glued(Anthropic.AddIncrement(blocks, Increment(a + b, think)))
  {
    hide Anthropic.JoinAll;
    JoinAllSnoc([], a);
    JoinAllSnoc([a], b);
    JoinAllSnoc([], a + b);
    assert [] + [a] == [a];
    if blocks != [] {
      var deltas := Last(blocks).deltas;
      JoinAllSnoc(deltas, a);
      JoinAllSnoc(deltas + [a], b);
      JoinAllSnoc(deltas, a + b);
      Assoc(Anthropic.JoinAll(deltas), a, b);
    }
  }

  /** One increment or two that make it up. */
  lemma {:induction false} AlikeSplit(es: seq<StreamEvent>, a: string, b: string, think: bool)
    ensures Alike(es + [Increment(a + b, think)], es + [Increment(a, think)] + [Increment(b, think)])
  {
    hide Fuse, AddFused, Glued, R.Transcript, R.OpenKind, R.KeptFinish, ToolIndexes, Anthropic.TextBlocks,
         Anthropic.AddIncrement, R.WithDone;
    var one, two, both := es + [Increment(a, think)], es + [Increment(a, think)] + [Increment(b, think)],
                          es + [Increment(a + b, think)];
    var kind := if think then RP.Thinking else RP.Message;
    var closed := R.WithDone(R.Transcript(es), R.OpenKind(es).Some?, R.KeptFinish(es));
    var base := if R.OpenKind(es) == Some(kind) then R.Transcript(es) else closed + [RP.Opened(kind)];
    R.TranscriptSnoc(es, Increment(a, think));
    R.TranscriptSnoc(one, Increment(b, think));
    R.TranscriptSnoc(es, Increment(a + b, think));
    FuseSnoc(base, PieceOf(a, think));
    FuseSnoc(base + [PieceOf(a, think)], PieceOf(b, think));
    FuseSnoc(base, PieceOf(a + b, think));
    FuseTwice(Fuse(base), a, b, think);
    NoOtherChange(es, Increment(a, think));
    NoOtherChange(one, Increment(b, think));
    NoOtherChange(es, Increment(a + b, think));
    BlocksSnoc(es, Increment(a, think));
    BlocksSnoc(one, Increment(b, think));
    BlocksSnoc(es, Increment(a + b, think));
    GlueTwice(Anthropic.TextBlocks(es), a, b, think);
  }

  lemma {:induction false} NoOtherChange(es: seq<StreamEvent>, e: StreamEvent)
    requires e.Text? || e.Reasoning?
    ensures R.KeptFinish(es + [e]) == R.KeptFinish(es) && ToolIndexes(es + [e]) == ToolIndexes(es)
  {
    hide R.KeptFinish, ToolIndexes;
    R.KeptSnoc(es, e);
    OrderSnoc(es, e);
    assert ToolIndexes(es) + [] == ToolIndexes(es);
  }

  /** One increment or its characters. */
  lemma {:induction false} AlikeCharacters(es: seq<StreamEvent>, text: string, think: bool)
    requires text != ""
    ensures Alike(es + [Increment(text, think)], es + MarkEvents(Paint(text, think)))
  {
    hide Alike, Paint, MarkEvents;
    var before, c := text[..|text| - 1], [text[|text| - 1]];
    assert text == before + c;
    PaintConcat(before, c, think);
    PaintOne(c, think);
    MarkEventsConcat(Paint(before, think), Paint(c, think));
    OneCharacter(c[0], think);
    if before == "" {
      PaintOne("", think);
      NoMarkEvents();
      assert text == c && [] + [Increment(c, think)] == [Increment(c, think)];
      AlikeSelf(es + [Increment(text, think)]);
    } else {
      var cut := MarkEvents(Paint(before, think));
      AlikeCharacters(es, before, think);
      AlikeSnoc(es + [Increment(before, think)], es + cut, Increment(c, think));
      AlikeSplit(es, before, c, think);
      Assoc(es, cut, [Increment(c, think)]);
      AlikeThrough(es + [Increment(text, think)], es + [Increment(before, think)] + [Increment(c, think)],
                   es + cut + [Increment(c, think)]);
    }
  }

  lemma {:induction false} OneCharacter(c: char, think: bool)
    ensures MarkEvents([Mark(c, think)]) == [Increment([c], think)]
  {
  }

  lemma {:induction false} AlikeSelf(es: seq<StreamEvent>)
    ensures Alike(es, es)
  {
  }

  lemma {:induction false} AlikeThrough(a: seq<StreamEvent>, b: seq<StreamEvent>, c: seq<StreamEvent>)
    requires Alike(a, b) && Alike(b, c)
    ensures Alike(a, c) && Alike(b, a)
  {
  }

  /** Event lists and their cut forms are shown alike. */
  lemma {:induction false} AlikeCut(es: seq<StreamEvent>)
    ensures Alike(es, Cut(es))
  {
    hide Alike, Cut, Paint, MarkEvents;
    CutSnoc([], Finish(""));
    if es == [] {
      AlikeSelf(es);
    } else {
      var before, e := Front(es), Last(es);
      assert before + [e] == es;
      AlikeCut(before);
      AlikeSnoc(before, Cut(before), e);
      CutSnoc(before, e);
      if MarksOf(e) != [] {
        var text := if e.Text? then e.text else e.reasoning;
        PaintOne("", e.Reasoning?);
        AlikeCharacters(Cut(before), text, e.Reasoning?);
        AlikeThrough(es, Cut(before) + [e], Cut(es));
      }
    }
  }

  // ---- Errors stop both adapters at the same place ----

  lemma {:induction false} HeardIs(before: seq<StreamEvent>, e: StreamEvent, rest: seq<StreamEvent>)
    requires (forall d :: d in before ==> !Aborts(d)) && Aborts(e)
    ensures var es := before + [e] + rest;
            Heard(es) == before && forall transport :: Fault(es, transport) == e.err
  {
    var es := before + [e] + rest;
    if before == [] {
      assert es[0] == e;
    } else {
      assert es[0] == before[0] && before[0] in before && es[1..] == before[1..] + [e] + rest;
      assert forall d :: d in before[1..] ==> d in before;
      HeardIs(before[1..], e, rest);
      assert [before[0]] + before[1..] == before;
    }
  }

  lemma {:induction false} CutNoAborts(es: seq<StreamEvent>)
    requires forall d :: d in es ==> !Aborts(d)
    ensures forall d :: d in Cut(es) ==> !Aborts(d)
  {
    hide CutOf;
    if es != [] {
      var before, e := Front(es), Last(es);
      assert before + [e] == es && e in es;
      assert forall d :: d in before ==> d in es;
      CutNoAborts(before);
      CutOfNoAborts(e);
    }
  }

  lemma {:induction false} CutOfNoAborts(e: StreamEvent)
    requires !Aborts(e)
    ensures forall d :: d in CutOf(e) ==> !Aborts(d)
  {
  }

  /** Cutting commutes with stopping at the first error, and leaves the error. */
  lemma {:induction false} HeardOfCut(es: seq<StreamEvent>, transport: Option<string>)
    ensures Heard(Cut(es)) == Cut(Heard(es)) && Fault(Cut(es), transport) == Fault(es, transport)
  {
    hide Heard, Cut, CutOf, Aborts;
    var heard := Heard(es);
    CutNoAborts(heard);
    if heard == es {
      HeardAll(es, transport);
      HeardAll(Cut(es), transport);
    } else {
      var n := |heard|;
      var e, rest := es[n], es[n + 1..];
      assert es == heard + [e] + rest;
      HeardIs(heard, e, rest);
      CutConcat(heard + [e], rest);
      CutSnoc(heard, e);
      AbortIsKept(e);
      HeardIs(Cut(heard), e, Cut(rest));
    }
  }

  lemma {:induction false} HeardAll(es: seq<StreamEvent>, transport: Option<string>)
    requires forall d :: d in es ==> !Aborts(d)
    ensures Heard(es) == es && Fault(es, transport) == transport
  {
    if es != [] {
      assert es[0] in es && forall d :: d in es[1..] ==> d in es;
      HeardAll(es[1..], transport);
      assert [es[0]] + es[1..] == es;
    }
  }

  lemma {:induction false} AbortIsKept(e: StreamEvent)
    requires Aborts(e)
    ensures CutOf(e) == [e]
  {
  }

  // ---- What that means for each client ----

  /** The Responses client: the same items in the same order with the same texts and done statuses, every
      call in the same place, and the same outcome, up to where the increments of an item are cut. */
  lemma {:induction false} ResponsesClientSeesNoCuts(a: seq<StreamEvent>, b: seq<StreamEvent>,
                                                  transport: Option<string>)
    requires Source(a) == Source(b)
    ensures var x, y := Forwarded(a), Forwarded(b);
            && Fault(x, transport) == Fault(y, transport)
            && Fuse(R.WholeTranscript(x)) == Fuse(R.WholeTranscript(y))
            && Fuse(R.Transcript(Heard(x))) == Fuse(R.Transcript(Heard(y)))
            && SameMeaning(x, y)
  {
    hide Fuse, Cut, Forwarded, Heard, Fault, SameMeaning, R.Transcript, R.WithDone, R.WithCallsDone, R.CallStatus,
         R.OpenKind, R.KeptFinish, Glued, Anthropic.TextBlocks, ToolIndexes;
    var x, y := Forwarded(a), Forwarded(b);
    CutsAreInvisible(a, b);
    SameCutSameMeaning(x, y);
    SameCutAlike(x, y);
    HeardOfCut(x, transport);
    HeardOfCut(y, transport);
    SameCutAlike(Heard(x), Heard(y));
    var open, reason := R.OpenKind(x).Some?, R.KeptFinish(x);
    FuseDone(R.Transcript(x), R.Transcript(y), open, reason);
    FuseCallsDone(R.WithDone(R.Transcript(x), open, reason), R.WithDone(R.Transcript(y), open, reason),
                  |ToolIndexes(x)|, R.CallStatus(reason));
  }

  lemma {:induction false} SameCutAlike(a: seq<StreamEvent>, b: seq<StreamEvent>)
    requires Cut(a) == Cut(b)
    ensures Alike(a, b)
  {
    hide Alike, Cut;
    AlikeCut(a);
    AlikeCut(b);
    AlikeThrough(b, Cut(b), Cut(b)) by { AlikeSelf(Cut(b)); }
    AlikeThrough(a, Cut(a), b);
  }

  /** The Anthropic client: the same blocks in the same order, the same stop reason, tokens and outcome, up
      to where the increments of a block are cut. */
  lemma {:induction false} AnthropicClientSeesNoCuts(a: seq<StreamEvent>, b: seq<StreamEvent>,
                                                  transport: Option<string>,
                                                     tools: seq<Anthropic.Block>)
    requires Source(a) == Source(b)
    ensures var x, y := Forwarded(a), Forwarded(b);
            && Fault(x, transport) == Fault(y, transport)
            && Glued(Anthropic.TextBlocks(x)) == Glued(Anthropic.TextBlocks(y))
            && Glued(Anthropic.TextBlocks(Heard(x))) == Glued(Anthropic.TextBlocks(Heard(y)))
            && (Anthropic.AreToolBlocks(tools, x) <==> Anthropic.AreToolBlocks(tools, y))
            && Anthropic.MapStopReason(LastFinish(x, "stop"), ToolIndexes(x) != [])
               == Anthropic.MapStopReason(LastFinish(y, "stop"), ToolIndexes(y) != [])
            && Anthropic.OutputTokens(LastUsage(x)) == Anthropic.OutputTokens(LastUsage(y))
  {
    hide Cut, Forwarded, Heard, Fault, EventMarks, Fuse, Glued, SameCall, ToolIndexes, LastFinish, LastUsage,
         R.Transcript, R.OpenKind, R.KeptFinish, Anthropic.TextBlocks, Anthropic.AreToolBlocks, Anthropic.MapStopReason,
         Anthropic.OutputTokens;
    var x, y := Forwarded(a), Forwarded(b);
    CutsAreInvisible(a, b);
    SameCutSameMeaning(x, y);
    SameCutSameMeaning(y, x);
    SameCutAlike(x, y);
    HeardOfCut(x, transport);
    HeardOfCut(y, transport);
    SameCutAlike(Heard(x), Heard(y));
    if Anthropic.AreToolBlocks(tools, x) {
      ToolBlocksCarryOver(x, y, tools);
    }
    if Anthropic.AreToolBlocks(tools, y) {
      ToolBlocksCarryOver(y, x, tools);
    }
    Anthropic.SameStopReason(x, ToolIndexes(x) != []);
    Anthropic.SameStopReason(y, ToolIndexes(y) != []);
  }

  // ---- Calls that come at other places in the text ----

  /** The events that bear on the text: text, reasoning and ends. */
  predicate Bears(e: StreamEvent) {
    e.Text? || e.Reasoning? || EndsText(e)
  }

  function Spoken(es: seq<StreamEvent>): seq<StreamEvent> {
    if es == [] then [] else Spoken(Front(es)) + if Bears(Last(es)) then [Last(es)] else []
  }

  lemma {:induction false} SpokenSnoc(es: seq<StreamEvent>, e: StreamEvent)
    ensures Spoken([]) == [] && Spoken(es + [e]) == Spoken(es) + if Bears(e) then [e] else []
  {
    hide Bears;
    SnocParts(es, e);
  }

  lemma {:induction false} SpokenMarks(es: seq<StreamEvent>)
    ensures EventMarks(Spoken(es)) == EventMarks(es)
  {
    hide EventMarks, Spoken;
    EventMarksOne(Finish(""));
    SpokenSnoc([], Finish(""));
    if es != [] {
      var before, e := Front(es), Last(es);
      assert before + [e] == es;
      SpokenMarks(before);
      SpokenSnoc(before, e);
      EventMarksSnoc(before, e);
      EventMarksSnoc(Spoken(before), e);
      assert EventMarks(before) + [] == EventMarks(before) && Spoken(before) + [] == Spoken(before);
    }
  }

  /** The other events pass the splitter without touching what it holds. */
  lemma {:induction false} SpokenStream(es: seq<StreamEvent>)
    ensures var p, q := ProduceAll(es, "", false), ProduceAll(Spoken(es), "", false);
            q.buf == p.buf && q.inThink == p.inThink && EventMarks(q.events) == EventMarks(p.events)
  {
    hide *;
    SpokenSnoc([], Finish(""));
    if es != [] {
      var before, e := es[..|es| - 1], es[|es| - 1];
      assert es == before + [e];
      SpokenSnoc(before, e);
      SpokenStream(before);
      var p, q := ProduceAll(before, "", false), ProduceAll(Spoken(before), "", false);
      ProduceAllConcat(before, [e], "", false);
      ProduceAllConcat(Spoken(before), [e], "", false);
      var last := ProduceAll([e], p.buf, p.inThink).events;
      EventMarksConcat(p.events, last);
      EventMarksConcat(q.events, last);
      assert Spoken(before) + [] == Spoken(before);
      SilentEvent(e, p.buf, p.inThink);
      assert EventMarks(p.events) + [] == EventMarks(p.events);
    }
  }

  lemma {:induction false} SilentEvent(e: StreamEvent, buf: string, think: bool)
    ensures !Bears(e) ==>
              var p := ProduceAll([e], buf, think);
              p.buf == buf && p.inThink == think && EventMarks(p.events) == []
  {
    hide Drain, ToEvents, EventMarks;
    EventMarksOne(e);
    assert [e][1..] == [] && [e] + [] == [e];
  }

  /** Two upstream streams with the same text, reasoning and ends in the same order, up to cuts, and the
      same other events, wherever these stand: the same characters in the same order on the same channels,
      the same calls, the same end. */
  lemma {:induction false} CutsDoNotMatter(a: seq<StreamEvent>, b: seq<StreamEvent>)
    requires Source(Spoken(a)) == Source(Spoken(b)) && Untouched(a) == Untouched(b)
    ensures SameMeaning(Forwarded(a), Forwarded(b))
  {
    hide EventMarks, Untouched, Forwarded, Cut, Source, Spoken, SameCalls, SameEnd;
    var x, y := Forwarded(a), Forwarded(b);
    CutsAreInvisible(Spoken(a), Spoken(b));
    CutKeepsMarks(Forwarded(Spoken(a)));
    CutKeepsMarks(Forwarded(Spoken(b)));
    ForwardedSpoken(a);
    ForwardedSpoken(b);
    ForwardedKeepsOthers(a);
    ForwardedKeepsOthers(b);
    OthersDecide(x);
    OthersDecide(y);
    ThroughOthers(x, y, Untouched(x));
  }

  lemma {:induction false} ForwardedSpoken(es: seq<StreamEvent>)
    ensures EventMarks(Forwarded(Spoken(es))) == EventMarks(Forwarded(es))
  {
    hide *;
    var p, q := ProduceAll(es, "", false), ProduceAll(Spoken(es), "", false);
    SpokenStream(es);
    ForwardedParts(es);
    ForwardedParts(Spoken(es));
    var held := ToEvents(Drain(p.buf, p.inThink, true).out);
    EventMarksConcat(p.events, held);
    EventMarksConcat(q.events, held);
  }
}
