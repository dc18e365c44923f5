/** The streaming classifier of internal/proxy/think.go: it separates
    <think>...</think> reasoning from the answer while tags may be cut anywhere. */
module ThinkSplitter {
  import opened Basics

  const OPEN_TAG := "<think>"
  const CLOSE_TAG := "</think>"

  /** The tag the splitter looks for in each mode. */
  function Tag(think: bool): (tag: string)
    ensures 1 < |tag| && tag[0] == '<' && '<' !in tag[1..]
  {
    if think then CLOSE_TAG else OPEN_TAG
  }

  datatype Segment = Segment(text: string, thinking: bool)

  // ---- The reference: a scanner that sees the whole text at once ----

  /** One character of the text together with the channel it belongs to. */
  datatype Mark = Mark(c: char, thinking: bool)

  function Paint(s: string, think: bool): (r: seq<Mark>)
    ensures |r| == |s|
  {
    seq(|s|, i requires 0 <= i < |s| => Mark(s[i], think))
  }

  /** Reads the text character by character; meeting the sought tag drops it and flips the mode. */
  function Classify(s: string, think: bool): seq<Mark>
    decreases |s|
  {
    if s == "" then []
    else if Tag(think) <= s then Classify(s[|Tag(think)|..], !think)
    else [Mark(s[0], think)] + Classify(s[1..], think)
  }

  function Marks(segs: seq<Segment>): seq<Mark> {
    if segs == [] then [] else Paint(segs[0].text, segs[0].thinking) + Marks(segs[1..])
  }

  /** The characters of one channel. */
  function Channel(ms: seq<Mark>, thinking: bool): string {
    if ms == [] then ""
    else (if ms[0].thinking == thinking then [ms[0].c] else "") + Channel(ms[1..], thinking)
  }

  function Join(chunks: seq<string>): string {
    if chunks == [] then "" else chunks[0] + Join(chunks[1..])
  }

  // ---- String searching, as the Go standard library defines it ----

  predicate OccursAt(s: string, t: string, i: nat) {
    i + |t| <= |s| && forall k :: 0 <= k < |t| ==> s[i + k] == t[k]
  }

  /** strings.Index: the leftmost occurrence, or -1. */
  function Index(s: string, t: string): (r: int)
    ensures r == -1 || 0 <= r <= |s| - |t|
    ensures r >= 0 ==> OccursAt(s, t, r)
    ensures forall j :: 0 <= j < (if r < 0 then |s| + 1 else r) ==> !OccursAt(s, t, j)
  {
    IndexFrom(s, t, 0)
  }

  function IndexFrom(s: string, t: string, i: nat): (r: int)
    requires i <= |s| + 1
    ensures r == -1 || i <= r <= |s| - |t|
    ensures r >= 0 ==> OccursAt(s, t, r)
    ensures forall j :: i <= j < (if r < 0 then |s| + 1 else r) ==> !OccursAt(s, t, j)
    decreases |s| + 1 - i
  {
    if i == |s| + 1 then -1 else if OccursAt(s, t, i) then i else IndexFrom(s, t, i + 1)
  }

  // ---- Held-back tails ----

  /** The last n characters of data are the first n of tag, and not all of it. */
  predicate IsPartialTag(data: string, tag: string, n: nat) {
    n < |tag| && n <= |data| && forall k :: 0 <= k < n ==> data[|data| - n + k] == tag[k]
  }

  /** n is the longest such tail. */
  ghost predicate IsLongestPartialTag(data: string, tag: string, n: nat) {
    IsPartialTag(data, tag, n) && forall m :: n < m ==> !IsPartialTag(data, tag, m)
  }

  function HeldUpTo(data: string, tag: string, max: nat): (n: nat)
    requires 0 < |tag|
    ensures n <= max && IsPartialTag(data, tag, n)
    ensures forall m :: n < m <= max ==> !IsPartialTag(data, tag, m)
  {
    if max == 0 || IsPartialTag(data, tag, max) then max else HeldUpTo(data, tag, max - 1)
  }

  function Held(data: string, tag: string): (n: nat)
    requires 0 < |tag|
    ensures n <= |data| && IsLongestPartialTag(data, tag, n)
  {
    HeldUpTo(data, tag, |tag| - 1)
  }

  method PartialTagSuffix(data: string, tag: string) returns (n: nat)
    requires 0 < |tag|
    ensures IsLongestPartialTag(data, tag, n)
    ensures n == Held(data, tag)
  {
    var max := |tag| - 1;
    if |data| < max {
      max := |data|;
    }
    n := max;
    while n > 0
      invariant 0 <= n <= max
      invariant forall m :: n < m ==> !IsPartialTag(data, tag, m)
    {
      if IsPartialTag(data, tag, n) {  // strings.HasSuffix(data, tag[:n])
        return;
      }
      n := n - 1;
    }
  }

  // ---- Draining the buffer ----

  datatype Drained = Drained(out: seq<Segment>, buf: string, inThink: bool)

  function Emit(text: string, thinking: bool): seq<Segment> {
    if text == "" then [] else [Segment(text, thinking)]
  }

  /** What one pass over the buffer produces and leaves behind. */
  function Drain(buf: string, think: bool, flush: bool): Drained
    decreases |buf|
  {
    var tag := Tag(think);
    var i := Index(buf, tag);
    if i < 0 then
      var cut := if flush then |buf| else |buf| - Held(buf, tag);
      Drained(Emit(buf[..cut], think), buf[cut..], think)
    else
      Prepend(Emit(buf[..i], think), Drain(buf[i + |tag|..], !think, flush))
  }

  function Prepend(out: seq<Segment>, d: Drained): Drained {
    d.(out := out + d.out)
  }

  class Splitter {
    var buf: string
    var inThink: bool

    constructor ()
      ensures buf == "" && !inThink
    {
      buf, inThink := "", false;
    }

    method Feed(text: string) returns (out: seq<Segment>)
      modifies this
      ensures Drained(out, buf, inThink) == Drain(old(buf) + text, old(inThink), false)
    {
      buf := buf + text;
      out := DrainBuffer(false);
    }

    method Flush() returns (out: seq<Segment>)
      modifies this
      ensures Drained(out, buf, inThink) == Drain(old(buf), old(inThink), true)
    {
      out := DrainBuffer(true);
    }

    method DrainBuffer(flush: bool) returns (out: seq<Segment>)
      modifies this
      ensures Drained(out, buf, inThink) == Drain(old(buf), old(inThink), flush)
    {
      hide *;
      out := [];
      ghost var all := Drain(buf, inThink, flush);
      assert all == Prepend(out, all) by { PrependNil(all); }
      while true
        invariant all == Prepend(out, Drain(buf, inThink, flush))
        decreases |buf|
      {
        DrainUnfolds(buf, inThink, flush);
        var tag := Tag(inThink);
        var idx := Index(buf, tag);
        if idx < 0 {
          ghost var cut := if flush then |buf| else |buf| - Held(buf, tag);
          PrependEmit(out, buf[..cut], inThink, Drained([], buf[cut..], inThink));
          if flush {
            out := out + Emit(buf, inThink);
            buf := "";
            return;
          }
          var hold := PartialTagSuffix(buf, tag);
          out := out + Emit(buf[..|buf| - hold], inThink);
          buf := buf[|buf| - hold..];
          return;
        }
        PrependEmit(out, buf[..idx], inThink, Drain(buf[idx + |tag|..], !inThink, flush));
        out := out + Emit(buf[..idx], inThink);
        buf := buf[idx + |tag|..];
        inThink := !inThink;
      }
    }
  }

  lemma {:induction false} PrependNil(d: Drained)
    ensures Prepend([], d) == d
  {
  }

  lemma {:induction false} PrependEmit(out: seq<Segment>, text: string, think: bool, d: Drained)
    ensures Prepend(out, Prepend(Emit(text, think), d)) == Prepend(out + Emit(text, think), d)
    ensures d.out == [] ==> Prepend(out + Emit(text, think), d) == Drained(out + Emit(text, think), d.buf, d.inThink)
  {
    assert out + (Emit(text, think) + d.out) == (out + Emit(text, think)) + d.out;
  }

  lemma {:induction false} DrainUnfolds(buf: string, think: bool, flush: bool)
    ensures var tag := Tag(think); var i := Index(buf, tag);
            Drain(buf, think, flush)
            == if i < 0 then
                 var cut := if flush then |buf| else |buf| - Held(buf, tag);
                 Prepend(Emit(buf[..cut], think), Drained([], buf[cut..], think))
               else Prepend(Emit(buf[..i], think), Drain(buf[i + |tag|..], !think, flush))
    ensures buf[..|buf|] == buf && buf[|buf|..] == ""
  {
    hide Tag, OccursAt, IsLongestPartialTag, Emit, Index, Held;
    var i := Index(buf, Tag(think));
    if i < 0 {
      var cut := if flush then |buf| else |buf| - Held(buf, Tag(think));
      assert Emit(buf[..cut], think) + [] == Emit(buf[..cut], think);
    }
  }

  /** Text in which no sought tag starts is painted unchanged. */
  lemma {:induction false} ClassifyPlain(s: string, think: bool, k: nat)
    requires k <= |s|
    requires forall j :: 0 <= j < k ==> !OccursAt(s, Tag(think), j)
    ensures Classify(s, think) == Paint(s[..k], think) + Classify(s[k..], think)
    decreases k
  {
    hide Tag, OccursAt, Classify, Paint;
    if k == 0 {
      assert s[0..] == s && s[..0] == "";
      PaintOne(s[..0], think);
    } else {
      var more, head := s[1..], s[1..][..k - 1];
      forall j: nat | j < k - 1 ensures !OccursAt(more, Tag(think), j) {
        OccursBehind(s, Tag(think), 1, j);
      }
      ClassifyPlain(more, think, k - 1);
      ClassifyChar(s, think);
      assert s[..k] == [s[0]] + head && more[k - 1..] == s[k..];
      PaintConcat([s[0]], head, think);
      PaintOne([s[0]], think);
      Assoc([Mark(s[0], think)], Paint(head, think), Classify(s[k..], think));
    }
  }

  lemma {:induction false} PaintOne(s: string, think: bool)
    requires |s| <= 1
    ensures Paint(s, think) == if s == "" then [] else [Mark(s[0], think)]
  {
  }

  lemma {:induction false} ClassifyChar(s: string, think: bool)
    requires s != "" && !OccursAt(s, Tag(think), 0)
    ensures Classify(s, think) == [Mark(s[0], think)] + Classify(s[1..], think)
  {
    hide Tag, OccursAt;
    StartsAt(s, Tag(think));
  }

  lemma {:induction false} StartsAt(s: string, t: string)
    ensures OccursAt(s, t, 0) <==> t <= s
  {
  }

  /** A tag that starts inside data but runs past its end starts in the held-back tail. */
  lemma {:induction false} NoTagBeforeHeld(data: string, more: string, tag: string, j: nat)
    requires 0 < |tag|
    requires Index(data, tag) < 0 && j < |data| - Held(data, tag)
    ensures !OccursAt(data + more, tag, j)
  {
    if j + |tag| <= |data| {
      assert OccursAt(data + more, tag, j) ==> OccursAt(data, tag, j);
    } else {
      assert OccursAt(data + more, tag, j) ==> IsPartialTag(data, tag, |data| - j);
    }
  }

  /** The first occurrence in data stays the first when text is appended. */
  lemma {:induction false} NoTagBeforeIndex(data: string, more: string, tag: string, j: nat)
    requires 0 < |tag|
    requires 0 <= Index(data, tag) && j < Index(data, tag)
    ensures !OccursAt(data + more, tag, j)
  {
    assert OccursAt(data + more, tag, j) ==> OccursAt(data, tag, j);
  }

  lemma {:induction false} MarksNil()
    ensures Marks([]) == []
  {
  }

  lemma {:induction false} MarksPrepend(text: string, think: bool, d: Drained)
    ensures var p := Prepend(Emit(text, think), d);
            Marks(p.out) == Paint(text, think) + Marks(d.out) && p.buf == d.buf && p.inThink == d.inThink
  {
    if text == "" {
      assert Emit(text, think) + d.out == d.out;
    } else {
      assert (Emit(text, think) + d.out)[1..] == d.out;
    }
  }

  /** No tag in the buffer: everything before the cut is settled text of the current mode. */
  lemma {:induction false} DrainTail(buf: string, think: bool, cut: nat, more: string)
    requires Index(buf, Tag(think)) < 0
    requires cut == |buf| - Held(buf, Tag(think)) || (cut == |buf| && more == "")
    ensures Classify(buf + more, think) == Paint(buf[..cut], think) + Classify(buf[cut..] + more, think)
  {
    hide Tag, Classify, Index, Held, OccursAt, Paint;
    var tag := Tag(think);
    var all := buf + more;
    forall j | 0 <= j < cut ensures !OccursAt(all, tag, j) {
      if more == "" {
        assert all == buf;
      } else {
        NoTagBeforeHeld(buf, more, tag, j);
      }
    }
    ClassifyPlain(all, think, cut);
    assert all[..cut] == buf[..cut] && all[cut..] == buf[cut..] + more;
  }

  /** A tag in the buffer: the text before it is settled, and the scan goes on in the other mode. */
  lemma {:induction false} DrainTag(buf: string, think: bool, i: nat, more: string)
    requires i == Index(buf, Tag(think))
    ensures i + |Tag(think)| <= |buf|
    ensures Classify(buf + more, think)
            == Paint(buf[..i], think) + Classify(buf[i + |Tag(think)|..] + more, !think)
  {
    hide Tag;
    var tag := Tag(think);
    var all := buf + more;
    forall j | 0 <= j < i ensures !OccursAt(all, tag, j) {
      NoTagBeforeIndex(buf, more, tag, j);
    }
    ClassifyPlain(all, think, i);
    assert all[..i] == buf[..i];
    assert all[i..] == tag + (buf[i + |tag|..] + more);
    assert all[i..][|tag|..] == buf[i + |tag|..] + more;
  }

  /** One drain: emitted marks, then the reference on what is held plus anything that follows. */
  lemma {:induction false} DrainSound(buf: string, think: bool, flush: bool, more: string)
    requires flush ==> more == ""
    ensures var d := Drain(buf, think, flush);
            Classify(buf + more, think) == Marks(d.out) + Classify(d.buf + more, d.inThink)
    decreases |buf|
  {
    hide *;
    DrainUnfolds(buf, think, flush);
    var tag := Tag(think);
    var i := Index(buf, tag);
    if i < 0 {
      var cut := if flush then |buf| else |buf| - Held(buf, tag);
      DrainTail(buf, think, cut, more);
      MarksPrepend(buf[..cut], think, Drained([], buf[cut..], think));
      MarksNil();
    } else {
      DrainTag(buf, think, i, more);
      var d := Drain(buf[i + |tag|..], !think, flush);
      DrainSound(buf[i + |tag|..], !think, flush, more);
      MarksPrepend(buf[..i], think, d);
      Assoc(Paint(buf[..i], think), Marks(d.out), Classify(d.buf + more, d.inThink));
    }
  }

  /** After Feed the buffer is a proper prefix of the tag now sought; after Flush it is empty. */
  lemma {:induction false} DrainLeaves(buf: string, think: bool, flush: bool)
    ensures var d := Drain(buf, think, flush);
            d.buf < Tag(d.inThink) && (flush ==> d.buf == "") && |d.buf| <= |buf|
    ensures forall s :: s in Drain(buf, think, flush).out ==> s.text != ""
    decreases |buf|
  {
    hide Tag, OccursAt, Index, Held, Drain;
    DrainUnfolds(buf, think, flush);
    var i := Index(buf, Tag(think));
    if i >= 0 {
      DrainLeaves(buf[i + |Tag(think)|..], !think, flush);
    }
  }

  // ---- Two feeds are one feed of the joined text ----

  lemma {:induction false} IndexAppend(s: string, more: string, tag: string)
    requires 0 < |tag| && 0 <= Index(s, tag)
    ensures Index(s + more, tag) == Index(s, tag)
  {
    hide Index;
    var i := Index(s, tag);
    assert OccursAt(s + more, tag, i);
    forall j | 0 <= j < i ensures !OccursAt(s + more, tag, j) {
      NoTagBeforeIndex(s, more, tag, j);
    }
  }

  /** Without a tag in s, what is settled can be left out of the search. */
  lemma {:induction false} IndexDrop(s: string, more: string, tag: string, cut: nat)
    requires 0 < |tag| && Index(s, tag) < 0 && cut == |s| - Held(s, tag)
    ensures var i := Index(s + more, tag); Index(s[cut..] + more, tag) == if i < 0 then i else i - cut
    ensures Index(s + more, tag) < 0 || cut <= Index(s + more, tag)
  {
    hide Index, Held;
    var all, rest := s + more, s[cut..] + more;
    forall j | 0 <= j < cut ensures !OccursAt(all, tag, j) {
      NoTagBeforeHeld(s, more, tag, j);
    }
    assert all[cut..] == rest;
    var i, k := Index(all, tag), Index(rest, tag);
    if i >= 0 {
      OccursBehind(all, tag, cut, i - cut);
    }
    if k >= 0 {
      OccursBehind(all, tag, cut, k);
    }
  }

  lemma {:induction false} OccursBehind(s: string, t: string, cut: nat, j: nat)
    requires cut <= |s|
    ensures OccursAt(s[cut..], t, j) <==> OccursAt(s, t, j + cut)
  {
  }

  /** Nor does it count for what is held back afterwards. */
  lemma {:induction false} HeldDrop(s: string, more: string, tag: string, cut: nat)
    requires 0 < |tag| && cut == |s| - Held(s, tag)
    ensures Held(s[cut..] + more, tag) == Held(s + more, tag)
  {
    hide Held, IsPartialTag;
    var all, rest := s + more, s[cut..] + more;
    forall n: nat ensures IsPartialTag(rest, tag, n) <==> IsPartialTag(all, tag, n) {
      if n <= |rest| {
        PartialBehind(all, tag, cut, n);
        assert all[cut..] == rest;
      } else {
        TooLong(s, more, tag, n);
        NotLonger(rest, tag, n);
      }
    }
  }

  lemma {:induction false} PartialBehind(s: string, tag: string, cut: nat, n: nat)
    requires cut + n <= |s|
    ensures IsPartialTag(s[cut..], tag, n) <==> IsPartialTag(s, tag, n)
  {
  }

  lemma {:induction false} NotLonger(s: string, tag: string, n: nat)
    requires n > |s|
    ensures !IsPartialTag(s, tag, n)
  {
  }

  /** A partial tag that reaches into s reaches no further than what s holds back. */
  lemma {:induction false} TooLong(s: string, more: string, tag: string, n: nat)
    requires 0 < |tag| && n > Held(s, tag) + |more|
    ensures !IsPartialTag(s + more, tag, n)
  {
    hide Held, IsPartialTag;
    PartialInside(s, more, tag, n);
  }

  lemma {:induction false} PartialInside(s: string, more: string, tag: string, n: nat)
    requires n > |more|
    ensures IsPartialTag(s + more, tag, n) ==> IsPartialTag(s, tag, n - |more|)
  {
    var all, m := s + more, n - |more|;
    if IsPartialTag(all, tag, n) {
      assert s == all[..|s|];
    }
  }

  lemma {:induction false} PaintConcat(a: string, b: string, think: bool)
    ensures Paint(a + b, think) == Paint(a, think) + Paint(b, think)
  {
  }

  /** Feeding s and then b settles the same characters, and leaves the same buffer and mode, as feeding
      both at once. */
  lemma {:induction false} DrainJoin(s: string, b: string, think: bool)
    ensures var d, f := Drain(s, think, false), Drain(s + b, think, false);
            var e := Drain(d.buf + b, d.inThink, false);
            f.buf == e.buf && f.inThink == e.inThink && Marks(f.out) == Marks(d.out) + Marks(e.out)
    decreases |s|
  {
    hide *;
    var tag := Tag(think);
    var i := Index(s, tag);
    DrainUnfolds(s, think, false);
    if i < 0 {
      DrainJoinHeld(s, b, think);
    } else {
      var n := i + |tag|;
      DrainUnfolds(s + b, think, false);
      IndexAppend(s, b, tag);
      assert (s + b)[..i] == s[..i] && (s + b)[n..] == s[n..] + b;
      DrainJoin(s[n..], b, !think);
      var d, f := Drain(s[n..], !think, false), Drain(s[n..] + b, !think, false);
      MarksPrepend(s[..i], think, d);
      MarksPrepend(s[..i], think, f);
      Assoc(Paint(s[..i], think), Marks(d.out), Marks(Drain(d.buf + b, d.inThink, false).out));
    }
  }

  lemma {:induction false} DrainJoinHeld(s: string, b: string, think: bool)
    requires Index(s, Tag(think)) < 0
    ensures var d, f := Drain(s, think, false), Drain(s + b, think, false);
            var e := Drain(d.buf + b, d.inThink, false);
            f.buf == e.buf && f.inThink == e.inThink && Marks(f.out) == Marks(d.out) + Marks(e.out)
  {
    hide *;
    var tag := Tag(think);
    var cut := |s| - Held(s, tag);
    var all, rest := s + b, s[cut..] + b;
    DrainUnfolds(s, think, false);
    MarksPrepend(s[..cut], think, Drained([], s[cut..], think));
    MarksNil();
    assert Paint(s[..cut], think) + [] == Paint(s[..cut], think);
    IndexDrop(s, b, tag, cut);
    HeldDrop(s, b, tag, cut);
    DrainMarks(all, think);
    DrainMarks(rest, think);
    var i := Index(all, tag);
    var k := if i < 0 then |all| - Held(all, tag) else i;
    var n := if i < 0 then k else i + |tag|;
    CutOff(s, b, cut, k);
    CutOff(s, b, cut, n);
    PaintConcat(s[..cut], rest[..k - cut], think);
    var last := if i < 0 then Drained([], all[n..], think) else Drain(all[n..], !think, false);
    Assoc(Paint(s[..cut], think), Paint(rest[..k - cut], think), Marks(last.out));
  }

  lemma {:induction false} CutOff(s: string, more: string, cut: nat, k: nat)
    requires cut <= |s| && cut <= k <= |s| + |more|
    ensures var rest := s[cut..] + more;
            (s + more)[..k] == s[..cut] + rest[..k - cut] && (s + more)[k..] == rest[k - cut..]
  {
    assert s + more == s[..cut] + (s[cut..] + more);
  }

  /** A drain settles the text up to the first tag, or up to what is held back, and goes on behind it. */
  lemma {:induction false} DrainMarks(buf: string, think: bool)
    ensures var tag := Tag(think); var i := Index(buf, tag); var d := Drain(buf, think, false);
            var k := if i < 0 then |buf| - Held(buf, tag) else i;
            var n := if i < 0 then k else i + |tag|;
            var last := if i < 0 then Drained([], buf[n..], think) else Drain(buf[n..], !think, false);
            Marks(d.out) == Paint(buf[..k], think) + Marks(last.out) && d.buf == last.buf && d.inThink == last.inThink
  {
    hide *;
    var tag := Tag(think);
    var i := Index(buf, tag);
    DrainUnfolds(buf, think, false);
    if i < 0 {
      var k := |buf| - Held(buf, tag);
      MarksPrepend(buf[..k], think, Drained([], buf[k..], think));
    } else {
      MarksPrepend(buf[..i], think, Drain(buf[i + |tag|..], !think, false));
    }
  }

  /** The mode in which the scan of the text ends. */
  function ModeAfter(s: string, think: bool): bool
    decreases |s|
  {
    if s == "" then think
    else if Tag(think) <= s then ModeAfter(s[|Tag(think)|..], !think)
    else ModeAfter(s[1..], think)
  }

  lemma {:induction false} ModeOfShort(s: string, think: bool)
    requires |s| < |Tag(think)|
    ensures ModeAfter(s, think) == think
  {
    hide Tag;
    if s != "" {
      ModeOfShort(s[1..], think);
    }
  }

  /** Text in which no sought tag starts leaves the mode alone. */
  lemma {:induction false} ModePlain(s: string, think: bool, k: nat)
    requires k <= |s|
    requires forall j :: 0 <= j < k ==> !OccursAt(s, Tag(think), j)
    ensures ModeAfter(s, think) == ModeAfter(s[k..], think)
    decreases k
  {
    hide Tag, OccursAt, ModeAfter;
    if k == 0 {
      assert s[0..] == s;
    } else {
      forall j: nat | j < k - 1 ensures !OccursAt(s[1..], Tag(think), j) {
        OccursBehind(s, Tag(think), 1, j);
      }
      ModePlain(s[1..], think, k - 1);
      ModeChar(s, think);
      assert s[1..][k - 1..] == s[k..];
    }
  }

  lemma {:induction false} ModeChar(s: string, think: bool)
    requires s != "" && !OccursAt(s, Tag(think), 0)
    ensures ModeAfter(s, think) == ModeAfter(s[1..], think)
  {
    hide Tag, OccursAt;
    StartsAt(s, Tag(think));
  }

  /** A drain ends in the mode of the scan, whether or not it is the last. */
  lemma {:induction false} DrainMode(buf: string, think: bool, flush: bool)
    ensures Drain(buf, think, flush).inThink == ModeAfter(buf, think)
    decreases |buf|
  {
    hide Drain, ModeAfter, Index, Tag, OccursAt, Held;
    var tag := Tag(think);
    var i := Index(buf, tag);
    DrainUnfolds(buf, think, flush);
    if i < 0 {
      ModePlain(buf, think, |buf|);
      ModeOfShort("", think);
      assert buf[|buf|..] == "";
    } else {
      ModePlain(buf, think, i);
      ModeOfTag(buf, think, i);
      DrainMode(buf[i + |tag|..], !think, flush);
    }
  }

  lemma {:induction false} ModeOfTag(s: string, think: bool, i: nat)
    requires OccursAt(s, Tag(think), i)
    ensures i + |Tag(think)| <= |s| && ModeAfter(s[i..], think) == ModeAfter(s[i + |Tag(think)|..], !think)
  {
    hide Tag;
    var tag, rest := Tag(think), s[i..];
    assert rest[..|tag|] == tag && rest[|tag|..] == s[i + |tag|..];
  }

  /** A buffer that is only the beginning of the tag stays as it is. */
  lemma {:induction false} DrainProper(buf: string, think: bool)
    requires buf < Tag(think)
    ensures Drain(buf, think, false) == Drained([], buf, think)
  {
    hide Tag, Index, Held, Drain;
    var tag := Tag(think);
    DrainUnfolds(buf, think, false);
    assert IsPartialTag(buf, tag, |buf|);
    assert buf[..0] == "" && buf[0..] == buf;
  }

  // ---- Whole runs: any cutting of the text into chunks ----

  /** Feed every chunk in turn, starting from the given buffer and mode. */
  function FeedAll(chunks: seq<string>, buf: string, think: bool): Drained {
    if chunks == [] then Drained([], buf, think)
    else
      var d := Drain(buf + chunks[0], think, false);
      Prepend(d.out, FeedAll(chunks[1..], d.buf, d.inThink))
  }

  /** The run of a fresh splitter: feed the chunks, then flush. */
  function Run(chunks: seq<string>): seq<Segment> {
    var d := FeedAll(chunks, "", false);
    d.out + Drain(d.buf, d.inThink, true).out
  }

  lemma {:induction false} MarksConcat(a: seq<Segment>, b: seq<Segment>)
    ensures Marks(a + b) == Marks(a) + Marks(b)
  {
    if a == [] {
      assert a + b == b;
    } else {
      assert (a + b)[1..] == a[1..] + b;
      MarksConcat(a[1..], b);
    }
  }

  lemma {:induction false} FeedAllSound(chunks: seq<string>, buf: string, think: bool, more: string)
    ensures var d := FeedAll(chunks, buf, think);
            Classify(buf + Join(chunks) + more, think) == Marks(d.out) + Classify(d.buf + more, d.inThink)
  {
    hide Tag, Classify, Drain, Marks;
    if chunks == [] {
      assert buf + "" + more == buf + more;
      assert Marks([]) + Classify(buf + more, think) == Classify(buf + more, think) by { MarksNil(); }
    } else {
      var d := Drain(buf + chunks[0], think, false);
      var tail := Join(chunks[1..]) + more;
      var rest := FeedAll(chunks[1..], d.buf, d.inThink);
      DrainSound(buf + chunks[0], think, false, tail);
      assert buf + Join(chunks) + more == (buf + chunks[0]) + tail;
      FeedAllSound(chunks[1..], d.buf, d.inThink, more);
      assert d.buf + Join(chunks[1..]) + more == d.buf + tail;
      MarksConcat(d.out, rest.out);
      assert Marks(d.out) + (Marks(rest.out) + Classify(rest.buf + more, rest.inThink))
          == Marks(d.out + rest.out) + Classify(rest.buf + more, rest.inThink);
    }
  }

  /** However the text is cut, the run classifies every character as the one-pass scanner does. */
  lemma {:induction false} RunClassifies(chunks: seq<string>)
    ensures Marks(Run(chunks)) == Classify(Join(chunks), false)
  {
    var d := FeedAll(chunks, "", false);
    FeedAllSound(chunks, "", false, "");
    assert "" + Join(chunks) + "" == Join(chunks);
    var f := Drain(d.buf, d.inThink, true);
    DrainSound(d.buf, d.inThink, true, "");
    DrainLeaves(d.buf, d.inThink, true);
    assert d.buf + "" == d.buf && f.buf + "" == "";
    assert Marks(f.out) == Classify(d.buf, d.inThink);
    MarksConcat(d.out, f.out);
  }

  /** Two ways of cutting the same text cannot be told apart, and both equal the one-shot split. */
  lemma {:induction false} ChunkingIsInvisible(chunks: seq<string>, others: seq<string>)
    requires Join(chunks) == Join(others)
    ensures Marks(Run(chunks)) == Marks(Run(others)) == Marks(Run([Join(chunks)]))
  {
    hide *;
    RunClassifies(chunks);
    RunClassifies(others);
    RunClassifies([Join(chunks)]);
    OneShotRun(Join(chunks));
  }

  // ---- SplitThinking, the one-shot variant ----

  function TextOf(segs: seq<Segment>, thinking: bool): string {
    if segs == [] then ""
    else (if segs[0].thinking == thinking then segs[0].text else "") + TextOf(segs[1..], thinking)
  }

  lemma {:induction false} ChannelConcat(a: seq<Mark>, b: seq<Mark>, thinking: bool)
    ensures Channel(a + b, thinking) == Channel(a, thinking) + Channel(b, thinking)
  {
    if a == [] {
      assert a + b == b;
    } else {
      var first := if a[0].thinking == thinking then [a[0].c] else "";
      ChannelConcat(a[1..], b, thinking);
      assert (a + b)[0] == a[0] && (a + b)[1..] == a[1..] + b;
      Assoc(first, Channel(a[1..], thinking), Channel(b, thinking));
    }
  }

  lemma {:induction false} ChannelPaint(s: string, think: bool, thinking: bool)
    ensures Channel(Paint(s, think), thinking) == if think == thinking then s else ""
  {
    if s != "" {
      assert Paint(s, think)[1..] == Paint(s[1..], think);
      ChannelPaint(s[1..], think, thinking);
    }
  }

  lemma {:induction false} TextOfIsChannel(segs: seq<Segment>, thinking: bool)
    ensures TextOf(segs, thinking) == Channel(Marks(segs), thinking)
  {
    if segs != [] {
      TextOfIsChannel(segs[1..], thinking);
      ChannelPaint(segs[0].text, segs[0].thinking, thinking);
      ChannelConcat(Paint(segs[0].text, segs[0].thinking), Marks(segs[1..]), thinking);
    }
  }

  /** Adds every segment's text to the channel it belongs to. */
  method Accumulate(segs: seq<Segment>, content: string, reasoning: string)
    returns (newContent: string, newReasoning: string)
    ensures newContent == content + TextOf(segs, false)
    ensures newReasoning == reasoning + TextOf(segs, true)
  {
    hide TextOf;
    newContent, newReasoning := content, reasoning;
    NoSegments();
    assert segs[..0] == [];
    for i := 0 to |segs|
      invariant newContent == content + TextOf(segs[..i], false)
      invariant newReasoning == reasoning + TextOf(segs[..i], true)
    {
      SegmentSnoc(segs[..i], segs[i]);
      assert segs[..i + 1] == segs[..i] + [segs[i]];
      if segs[i].thinking {
        newReasoning := newReasoning + segs[i].text;
      } else {
        newContent := newContent + segs[i].text;
      }
    }
    assert segs[..|segs|] == segs;
  }

  lemma {:induction false} NoSegments()
    ensures TextOf([], false) == TextOf([], true) == ""
  {
  }

  lemma {:induction false} SegmentSnoc(segs: seq<Segment>, seg: Segment)
    ensures TextOf(segs + [seg], seg.thinking) == TextOf(segs, seg.thinking) + seg.text
    ensures TextOf(segs + [seg], !seg.thinking) == TextOf(segs, !seg.thinking)
  {
    hide TextOf;
    TextOfConcat(segs, [seg], seg.thinking);
    TextOfConcat(segs, [seg], !seg.thinking);
    OneSegmentText(seg);
    assert TextOf(segs, !seg.thinking) + "" == TextOf(segs, !seg.thinking);
  }

  lemma {:induction false} OneSegmentText(seg: Segment)
    ensures TextOf([seg], seg.thinking) == seg.text && TextOf([seg], !seg.thinking) == ""
  {
    assert [seg][1..] == [];
    assert seg.text + "" == seg.text;
  }

  method SplitThinking(text: string) returns (content: string, reasoning: string)
    ensures content == Channel(Classify(text, false), false)
    ensures reasoning == Channel(Classify(text, false), true)
  {
    hide Drain, Classify, TextOf, Channel;
    var s := new Splitter();
    var fed := s.Feed(text);
    assert "" + text == text;
    content, reasoning := Accumulate(fed, "", "");
    var flushed := s.Flush();
    content, reasoning := Accumulate(flushed, content, reasoning);
    OneShotRun(text);
    RunChannels([text], false);
    RunChannels([text], true);
    TextOfConcat(fed, flushed, false);
    TextOfConcat(fed, flushed, true);
  }

  /** The run over the text as a single chunk. */
  lemma {:induction false} OneShotRun(text: string)
    ensures Join([text]) == text
    ensures var d := Drain(text, false, false);
            Run([text]) == d.out + Drain(d.buf, d.inThink, true).out
  {
    hide Drain;
    assert "" + text == text && [text][1..] == [] && text + "" == text;
    var d := Drain(text, false, false);
    assert FeedAll([text][1..], d.buf, d.inThink) == Drained([], d.buf, d.inThink);
    assert d.out + [] == d.out;
  }

  lemma {:induction false} TextOfConcat(a: seq<Segment>, b: seq<Segment>, thinking: bool)
    ensures TextOf(a + b, thinking) == TextOf(a, thinking) + TextOf(b, thinking)
  {
    if a == [] {
      assert a + b == b;
    } else {
      assert (a + b)[1..] == a[1..] + b;
      TextOfConcat(a[1..], b, thinking);
    }
  }

  /** The texts a run delivers on a channel, joined, are that channel of the scanned text. */
  lemma {:induction false} RunChannels(chunks: seq<string>, thinking: bool)
    ensures TextOf(Run(chunks), thinking) == Channel(Classify(Join(chunks), false), thinking)
  {
    RunClassifies(chunks);
    TextOfIsChannel(Run(chunks), thinking);
  }

  // ---- Nothing but the tags is lost ----

  /** The maximal mode runs of the text: run 0 is answer text, run 1 reasoning, and so on. */
  function Runs(s: string, think: bool): (runs: seq<string>)
    ensures runs != []
    decreases |s|
  {
    if s == "" then [""]
    else if Tag(think) <= s then [""] + Runs(s[|Tag(think)|..], !think)
    else
      var rest := Runs(s[1..], think);
      [[s[0]] + rest[0]] + rest[1..]
  }

  /** The runs written out again with the tag that separated each pair. */
  function Rebuild(runs: seq<string>, think: bool): string {
    if runs == [] then ""
    else if |runs| == 1 then runs[0]
    else runs[0] + Tag(think) + Rebuild(runs[1..], !think)
  }

  function PaintRuns(runs: seq<string>, think: bool): seq<Mark> {
    if runs == [] then [] else Paint(runs[0], think) + PaintRuns(runs[1..], !think)
  }

  /** No run contains the tag that would have ended it. */
  ghost predicate TagFree(runs: seq<string>, think: bool) {
    runs == [] || (Index(runs[0], Tag(think)) < 0 && TagFree(runs[1..], !think))
  }

  /** The scan is the painted runs, no run contains the tag that ends it, and the runs with their tags
      are the input again. */
  lemma {:induction false} RunsReproduceInput(s: string, think: bool)
    ensures Rebuild(Runs(s, think), think) == s
    ensures PaintRuns(Runs(s, think), think) == Classify(s, think)
    ensures TagFree(Runs(s, think), think)
    decreases |s|
  {
    hide *;
    RunsUnfold(s, think);
    if s == "" {
      EmptyRun([], think);
      assert [""] + [] == [""];
    } else if Tag(think) <= s {
      RunsReproduceInput(s[|Tag(think)|..], !think);
      EmptyRun(Runs(s[|Tag(think)|..], !think), think);
    } else {
      var rest := Runs(s[1..], think);
      RunsReproduceInput(s[1..], think);
      RunsGrow(s[0], rest, think);
      FirstRunGrows(s[0], rest, think);
      assert [s[0]] + s[1..] == s;
    }
  }

  lemma {:induction false} EmptyRun(rest: seq<string>, think: bool)
    requires TagFree(rest, !think)
    ensures TagFree([""] + rest, think)
  {
    hide Tag, Index;
    assert ([""] + rest)[1..] == rest;
  }

  /** A character in front of a run completes no tag unless the whole text starts with one. */
  lemma {:induction false} FirstRunGrows(c: char, rest: seq<string>, think: bool)
    requires rest != [] && TagFree(rest, think) && !(Tag(think) <= [c] + Rebuild(rest, think))
    ensures TagFree([[c] + rest[0]] + rest[1..], think)
  {
    hide Tag, Index;
    var tag, run := Tag(think), [c] + rest[0];
    RebuildStarts(rest, think);
    assert run <= [c] + Rebuild(rest, think);
    forall i: nat ensures !OccursAt(run, tag, i) {
      OneMoreChar(c, rest[0], tag, i);
    }
    assert ([run] + rest[1..])[1..] == rest[1..];
  }

  lemma {:induction false} OneMoreChar(c: char, s: string, t: string, i: nat)
    ensures i == 0 && OccursAt([c] + s, t, i) ==> t <= [c] + s
    ensures i > 0 && OccursAt([c] + s, t, i) ==> OccursAt(s, t, i - 1)
  {
    assert forall k :: 0 <= k < |s| ==> s[k] == ([c] + s)[k + 1];
  }

  lemma {:induction false} RebuildStarts(runs: seq<string>, think: bool)
    requires runs != []
    ensures runs[0] <= Rebuild(runs, think)
  {
  }

  lemma {:induction false} RunsUnfold(s: string, think: bool)
    ensures s == "" ==> Rebuild(Runs(s, think), think) == "" && PaintRuns(Runs(s, think), think) == []
    ensures s == "" ==> Runs(s, think) == [""] && TagFree([], !think)
    ensures s != "" && Tag(think) <= s ==>
              var more := s[|Tag(think)|..]; var rest := Runs(more, !think);
              && Runs(s, think) == [""] + rest
              && (Rebuild(rest, !think) == more ==> Rebuild(Runs(s, think), think) == s)
              && PaintRuns(Runs(s, think), think) == PaintRuns(rest, !think)
              && Classify(s, think) == Classify(more, !think)
    ensures s != "" && !(Tag(think) <= s) ==>
              var rest := Runs(s[1..], think);
              && Runs(s, think) == [[s[0]] + rest[0]] + rest[1..]
              && Classify(s, think) == [Mark(s[0], think)] + Classify(s[1..], think)
    ensures Classify("", think) == []
  {
    hide Tag;
    if s == "" {
      assert [""][1..] == [];
    } else if Tag(think) <= s {
      var more := s[|Tag(think)|..];
      var rest := Runs(more, !think);
      assert ([""] + rest)[1..] == rest;
      assert "" + Tag(think) == Tag(think);
      assert Tag(think) + more == s;
      assert Paint("", think) + PaintRuns(rest, !think) == PaintRuns(rest, !think);
    }
  }

  /** Putting a character in front of the first run puts it in front of the text. */
  lemma {:induction false} RunsGrow(c: char, rest: seq<string>, think: bool)
    requires rest != []
    ensures var runs := [[c] + rest[0]] + rest[1..];
            Rebuild(runs, think) == [c] + Rebuild(rest, think)
            && PaintRuns(runs, think) == [Mark(c, think)] + PaintRuns(rest, think)
  {
    hide Tag;
    var runs := [[c] + rest[0]] + rest[1..];
    var more := rest[1..];
    assert runs[1..] == more && runs[0] == [c] + rest[0];
    assert Rebuild(runs, think) == [c] + Rebuild(rest, think) by {
      if |rest| > 1 {
        Assoc([c], rest[0], Tag(think));
        Assoc([c], rest[0] + Tag(think), Rebuild(more, !think));
      }
    }
    assert Paint([c] + rest[0], think) == [Mark(c, think)] + Paint(rest[0], think);
    Assoc([Mark(c, think)], Paint(rest[0], think), PaintRuns(more, !think));
  }

  /** '<' stands only at the front of a tag, so a tag cannot start inside a run and end outside it. */
  lemma {:induction false} NoTagAcross(run: string, rest: string, think: bool, j: nat)
    requires Index(run, Tag(think)) < 0 && j < |run|
    requires rest == "" || rest[0] == '<'
    ensures !OccursAt(run + rest, Tag(think), j)
  {
    var tag := Tag(think);
    if j + |tag| <= |run| {
      assert OccursAt(run + rest, tag, j) ==> OccursAt(run, tag, j);
    } else if rest != "" {
      assert (run + rest)[|run|] == rest[0] == '<' && tag[|run| - j] in tag[1..];
    }
  }

  /** Conversely, tag-free runs written out with their tags scan back to exactly those runs:
      the decomposition the splitter finds is the only one. */
  lemma {:induction false} RunsAreUnique(runs: seq<string>, think: bool)
    requires runs != [] && TagFree(runs, think)
    ensures Classify(Rebuild(runs, think), think) == PaintRuns(runs, think)
    decreases |runs|
  {
    var tag := Tag(think);
    var s := Rebuild(runs, think);
    var k := |runs[0]|;
    var rest := if |runs| == 1 then "" else tag + Rebuild(runs[1..], !think);
    assert s == runs[0] + rest;
    forall j | 0 <= j < k ensures !OccursAt(s, tag, j) {
      NoTagAcross(runs[0], rest, think, j);
    }
    ClassifyPlain(s, think, k);
    assert s[..k] == runs[0] && s[k..] == rest;
    if |runs| == 1 {
      assert PaintRuns(runs[1..], !think) == [];
    } else {
      RunsAreUnique(runs[1..], !think);
      assert tag <= rest && rest[|tag|..] == Rebuild(runs[1..], !think);
    }
  }

  /** The whole run of a splitter loses nothing but the tags. */
  lemma {:induction false} RunReproducesInput(chunks: seq<string>)
    ensures var runs := Runs(Join(chunks), false);
            Rebuild(runs, false) == Join(chunks) && PaintRuns(runs, false) == Marks(Run(chunks))
  {
    RunClassifies(chunks);
    RunsReproduceInput(Join(chunks), false);
  }

  /** The tags as they are written: what stands between them is reasoning, all else is answer. */
  lemma {:induction false} TaggedTextSplits(before: string, thought: string, after: string)
    requires Index(before, "<think>") < 0 && Index(thought, "</think>") < 0 && Index(after, "<think>") < 0
    ensures Classify(before + "<think>" + thought + "</think>" + after, false)
            == Paint(before, false) + Paint(thought, true) + Paint(after, false)
    ensures Classify(before + "<think>" + thought, false) == Paint(before, false) + Paint(thought, true)
  {
    hide Index, Classify, Paint;
    LastRun(thought, true);
    LastRun(after, false);
    TwoRuns(before, [thought], false);
    TwoRuns(thought, [after], true);
    TwoRuns(before, [thought, after], false);
    RunsAreUnique([before, thought], false);
    RunsAreUnique([before, thought, after], false);
    assert before + "<think>" + (thought + "</think>" + after) == before + "<think>" + thought + "</think>" + after;
  }

  lemma {:induction false} LastRun(s: string, think: bool)
    ensures Rebuild([s], think) == s && PaintRuns([s], think) == Paint(s, think)
    ensures Index(s, Tag(think)) < 0 ==> TagFree([s], think)
  {
    hide Index, Paint;
    assert [s][1..] == [];
    assert PaintRuns([s], think) == Paint(s, think) + [];
  }

  lemma {:induction false} TwoRuns(s: string, rest: seq<string>, think: bool)
    requires rest != []
    ensures Rebuild([s] + rest, think) == s + Tag(think) + Rebuild(rest, !think)
    ensures PaintRuns([s] + rest, think) == Paint(s, think) + PaintRuns(rest, !think)
    ensures Index(s, Tag(think)) < 0 && TagFree(rest, !think) ==> TagFree([s] + rest, think)
  {
    hide Index, Paint;
    assert ([s] + rest)[1..] == rest;
  }
}
