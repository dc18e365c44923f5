/** internal/protect/protect.go: head/tail truncation and the context projector. */
module Projector {
  import opened Basics
  import opened Utf8

  /** "\n...[middle truncated]...\n" */
  function Marker(): (m: Bytes)
    ensures |m| == 26
  {
    [10, 46, 46, 46, 91, 109, 105, 100, 100, 108, 101, 32,
     116, 114, 117, 110, 99, 97, 116, 101, 100, 93, 46, 46, 46, 10]
  }

  /** The marker, as it is written. */
  lemma {:induction false} MarkerIs(i: nat)
    requires i < 26
    ensures Marker()[i] as int == "\n...[middle truncated]...\n"[i] as int
  {
  }

  // ---- Truncation ----

  /** Bytes kept at the end and at the beginning, before the cuts move to rune edges. */
  function TailLen(budget: nat): nat {
    budget / 4
  }

  function HeadLen(budget: nat): int {
    budget - TailLen(budget) - |Marker()|
  }

  function Truncate(text: Bytes, budget: int): Bytes {
    if budget <= 0 || |text| <= budget then text
    else if HeadLen(budget) <= 0 then Trim(text[..budget])
    else Trim(text[..HeadLen(budget)]) + Marker() + Skip(text[|text| - TailLen(budget)..])
  }

  method TruncateHeadTail(text: Bytes, budget: int) returns (r: Bytes)
    ensures r == Truncate(text, budget)
  {
    hide *;
    if budget <= 0 || |text| <= budget {
      TruncateWithin(text, budget);
      return text;
    }
    var tail := budget / 4;
    var head := budget - tail - |Marker()|;
    PartLens(budget);
    if head <= 0 {
      TruncateHard(text, budget);
      r := TrimToRuneEdge(text[..budget]);
      return;
    }
    TruncateAround(text, budget);
    var h := TrimToRuneEdge(text[..head]);
    var t := SkipToRuneEdge(text[|text| - tail..]);
    r := h + Marker() + t;
  }

  lemma {:induction false} PartLens(budget: nat)
    ensures TailLen(budget) == budget / 4 <= budget
    ensures HeadLen(budget) == budget - budget / 4 - |Marker()| <= budget
  {
  }

  lemma {:induction false} TruncateWithin(text: Bytes, budget: int)
    requires budget <= 0 || |text| <= budget
    ensures Truncate(text, budget) == text
  {
  }

  lemma {:induction false} TruncateHard(text: Bytes, budget: nat)
    requires 0 < budget < |text| && HeadLen(budget) <= 0
    ensures Truncate(text, budget) == Trim(text[..budget])
  {
    hide HeadLen, Trim, Skip, Marker;
  }

  lemma {:induction false} TruncateAround(text: Bytes, budget: nat)
    requires |text| > budget && HeadLen(budget) > 0
    ensures HeadLen(budget) <= budget && TailLen(budget) <= budget
    ensures Truncate(text, budget)
            == Trim(text[..HeadLen(budget)]) + Marker() + Skip(text[|text| - TailLen(budget)..])
  {
    hide Trim, Skip, Marker;
    PartLens(budget);
  }

  ghost predicate IsHeadTail(text: Bytes, h: nat, t: nat, r: Bytes) {
    h <= |text| && t <= |text| && r == text[..h] + Marker() + text[|text| - t..]
  }

  /** The two kept parts of a text over budget, as lengths of a prefix and a suffix. */
  lemma {:induction false} TruncateParts(text: Bytes, budget: nat) returns (h: nat, t: nat)
    requires |text| > budget && HeadLen(budget) > 0
    ensures h == |Trim(text[..HeadLen(budget)])| <= HeadLen(budget)
    ensures t == |Skip(text[|text| - TailLen(budget)..])| <= TailLen(budget)
    ensures Truncate(text, budget)
            == Trim(text[..HeadLen(budget)]) + Marker() + Skip(text[|text| - TailLen(budget)..])
    ensures IsHeadTail(text, h, t, Truncate(text, budget)) && |Truncate(text, budget)| == h + t + |Marker()|
  {
    hide Truncate, HeadLen, TailLen, Marker, Trim, Skip;
    PartLens(budget);
    TruncateAround(text, budget);
    var front, back := text[..HeadLen(budget)], text[|text| - TailLen(budget)..];
    h, t := |Trim(front)|, |Skip(back)|;
    assert Trim(front) == front[..h] == text[..h];
    assert Skip(back) == back[TailLen(budget) - t..] == text[|text| - t..];
  }

  /** Whatever the bytes: text within the budget is returned as it is; longer text never exceeds the
      budget, and is a prefix of the text, or a prefix and a suffix that do not overlap around the marker. */
  lemma {:induction false} TruncateFits(text: Bytes, budget: int)
    requires budget > 0
    ensures var r := Truncate(text, budget);
            && |r| <= budget && |r| <= |text|
            && (|text| <= budget ==> r == text)
            && (|text| > budget ==>
                  r <= text || exists h: nat, t: nat :: h + t <= |text| && IsHeadTail(text, h, t, r))
  {
    hide Marker, Trim, Skip, IsHeadTail;
    if |text| > budget && HeadLen(budget) > 0 {
      var h, t := TruncateParts(text, budget);
      assert h + t <= |text|;
    }
  }

  /** Well-formed text stays well-formed, and each cut loses at most 3 bytes to the rune edge. */
  lemma {:induction false} TruncateKeepsRunes(text: Bytes, budget: int)
    requires budget > 0 && WellFormed(text)
    ensures WellFormed(Truncate(text, budget))
    ensures |text| > budget && budget - budget / 4 - 26 <= 0 ==>
              Truncate(text, budget) <= text && budget - 3 <= |Truncate(text, budget)| <= budget
    ensures |text| > budget && budget - budget / 4 - 26 > 0 ==>
              exists h: nat, t: nat ::
                IsHeadTail(text, h, t, Truncate(text, budget))
                && budget - budget / 4 - 29 <= h <= budget - budget / 4 - 26 && budget / 4 - 3 <= t <= budget / 4
  {
    PartLens(budget);
    hide WellFormed, Trim, Skip, Marker, IsHeadTail;
    if |text| > budget {
      if HeadLen(budget) <= 0 {
        TrimCut(text, budget);
      } else {
        var h, t := TruncateParts(text, budget);
        BothPartsKeepRunes(text, budget);
      }
    }
  }

  lemma {:induction false} BothPartsKeepRunes(text: Bytes, budget: nat)
    requires WellFormed(text) && |text| > budget && HeadLen(budget) > 0
    ensures var h, t := Trim(text[..HeadLen(budget)]), Skip(text[|text| - TailLen(budget)..]);
            && WellFormed(h + Marker() + t)
            && HeadLen(budget) - 3 <= |h| && TailLen(budget) - 3 <= |t|
  {
    hide *;
    var head, tail := HeadLen(budget), TailLen(budget);
    PartLens(budget);
    TrimCut(text, head);
    SkipCut(text, |text| - tail);
    MarkerIsAscii();
    WellFormedConcat(Trim(text[..head]), Marker());
    WellFormedConcat(Trim(text[..head]) + Marker(), Skip(text[|text| - tail..]));
  }

  lemma {:induction false} AsciiIsWellFormed(s: Bytes, i: nat)
    requires i <= |s| && forall k :: 0 <= k < |s| ==> s[k] < 0x80
    ensures RunesBetween(s, i, |s|)
    decreases |s| - i
  {
    if i < |s| {
      assert RuneAt(s, i, 1);
      AsciiIsWellFormed(s, i + 1);
    }
  }

  lemma {:induction false} MarkerIsAscii()
    ensures WellFormed(Marker())
  {
    AsciiIsWellFormed(Marker(), 0);
  }

  // ---- The projector ----

  datatype Message = Message(role: string, content: Bytes)

  datatype Limits = Limits(maxPayloadBytes: int, maxMessageBytes: int)

  /** Stack-trace stripping is any function of the text. */
  type Strip = Bytes -> Bytes

  const SYSTEM := "system"
  const SHRINKS: seq<int> := [2048, 1024, 512, 256]

  /** A message after stripping and the per-message cap. */
  function Capped(lim: Limits, strip: Strip, m: Message): Message {
    var c := if |m.content| > 4096 then strip(m.content) else m.content;
    m.(content := if lim.maxMessageBytes > 0 then Truncate(c, lim.maxMessageBytes) else c)
  }

  function CapAll(lim: Limits, strip: Strip, ms: seq<Message>): (r: seq<Message>)
    ensures |r| == |ms|
  {
    seq(|ms|, i requires 0 <= i < |ms| => Capped(lim, strip, ms[i]))
  }

  /** The size estimate: content plus 32 bytes of framing a message. */
  function Total(ms: seq<Message>): nat {
    if ms == [] then 0 else Total(Front(ms)) + |Last(ms).content| + 32
  }

  /** Only messages that are neither system messages nor among the last two may be shrunk. */
  predicate Shrinkable(ms: seq<Message>, i: nat) {
    i + 2 < |ms| && ms[i].role != SYSTEM
  }

  function ShrinkAt(ms: seq<Message>, i: nat, shrink: int): seq<Message>
    requires i < |ms|
  {
    if ms[i].role == SYSTEM || |ms[i].content| <= shrink then ms
    else ms[i := ms[i].(content := Truncate(ms[i].content, shrink))]
  }

  /** One pass over the messages, oldest first, for as long as the estimate is over the budget. */
  function Pass(ms: seq<Message>, i: nat, shrink: int, max: int): (r: seq<Message>)
    ensures |r| == |ms|
    decreases |ms| - i
  {
    if i + 2 >= |ms| || Total(ms) <= max then ms else Pass(ShrinkAt(ms, i, shrink), i + 1, shrink, max)
  }

  /** Passes of decreasing size from the k-th on, until the estimate fits. */
  function Passes(ms: seq<Message>, k: nat, max: int): (r: seq<Message>)
    requires k <= |SHRINKS|
    ensures |r| == |ms|
    decreases |SHRINKS| - k
  {
    if k == |SHRINKS| || Total(ms) <= max then ms else Passes(Pass(ms, 0, SHRINKS[k], max), k + 1, max)
  }

  function Projected(lim: Limits, strip: Strip, ms: seq<Message>): (r: seq<Message>)
    ensures |r| == |ms|
  {
    var capped := CapAll(lim, strip, ms);
    if lim.maxPayloadBytes > 0 then Passes(capped, 0, lim.maxPayloadBytes) else capped
  }

  /** The estimate of the messages in the working copy. */
  method TotalLen(out: array<Message>) returns (t: nat)
    ensures t == Total(out[..])
  {
    t := 0;
    for i := 0 to out.Length
      invariant t == Total(out[..i])
    {
      assert out[..i + 1] == out[..i] + [out[i]];
      SnocParts(out[..i], out[i]);
      t := t + |out[i].content| + 32;
    }
    assert out[..out.Length] == out[..];
  }

  /** Works on a copy; a missing projector changes nothing. */
  method Project(projector: Option<Limits>, strip: Strip, messages: seq<Message>) returns (r: seq<Message>)
    ensures r == if projector.Some? then Projected(projector.value, strip, messages) else messages
  {
    if projector.None? {
      return messages;
    }
    var lim := projector.value;
    var out := new Message[|messages|](i requires 0 <= i < |messages| => messages[i]);
    StripAndCap(lim, strip, messages, out);
    if lim.maxPayloadBytes > 0 {
      ShrinkToFit(lim.maxPayloadBytes, out);
    }
    r := out[..];
  }

  function Stripped(strip: Strip, m: Message): Message {
    m.(content := if |m.content| > 4096 then strip(m.content) else m.content)
  }

  method StripTraces(strip: Strip, out: array<Message>)
    modifies out
    ensures forall k :: 0 <= k < out.Length ==> out[k] == Stripped(strip, old(out[k]))
  {
    for i := 0 to out.Length
      invariant forall k :: 0 <= k < i ==> out[k] == Stripped(strip, old(out[k]))
      invariant forall k :: i <= k < out.Length ==> out[k] == old(out[k])
    {
      if |out[i].content| > 4096 {
        out[i] := out[i].(content := strip(out[i].content));
      }
    }
  }

  method CapEach(max: int, out: array<Message>)
    modifies out
    ensures forall k :: 0 <= k < out.Length ==>
              out[k] == old(out[k]).(content := Truncate(old(out[k]).content, max))
  {
    hide Truncate;
    for i := 0 to out.Length
      invariant forall k :: 0 <= k < i ==> out[k] == old(out[k]).(content := Truncate(old(out[k]).content, max))
      invariant forall k :: i <= k < out.Length ==> out[k] == old(out[k])
    {
      var c := TruncateHeadTail(out[i].content, max);
      out[i] := out[i].(content := c);
    }
  }

  /** Stack traces first, then the per-message cap. */
  method StripAndCap(lim: Limits, strip: Strip, ghost messages: seq<Message>, out: array<Message>)
    requires out[..] == messages
    modifies out
    ensures out[..] == CapAll(lim, strip, messages)
  {
    hide Truncate;
    StripTraces(strip, out);
    if lim.maxMessageBytes > 0 {
      CapEach(lim.maxMessageBytes, out);
    }
  }

  /** Shrinks oldest messages first, in passes of decreasing size, until the estimate fits. */
  method ShrinkToFit(max: int, out: array<Message>)
    modifies out
    ensures out[..] == Passes(old(out[..]), 0, max)
  {
    for k := 0 to |SHRINKS|
      invariant Passes(out[..], k, max) == Passes(old(out[..]), 0, max)
    {
      var total := TotalLen(out);
      if total <= max {
        break;
      }
      OnePass(SHRINKS[k], max, out);
    }
  }

  method OnePass(shrink: int, max: int, out: array<Message>)
    modifies out
    ensures out[..] == Pass(old(out[..]), 0, shrink, max)
  {
    hide ShrinkAt, Total, Pass;
    var i := 0;
    var total := TotalLen(out);
    while i < out.Length - 2 && total > max
      invariant 0 <= i && total == Total(out[..])
      invariant Pass(out[..], i, shrink, max) == Pass(old(out[..]), 0, shrink, max)
    {
      PassUnfolds(out[..], i, shrink, max);
      ShrinkOne(i, shrink, out);
      i := i + 1;
      total := TotalLen(out);
    }
    PassUnfolds(out[..], i, shrink, max);
  }

  method ShrinkOne(i: nat, shrink: int, out: array<Message>)
    requires i < out.Length
    modifies out
    ensures out[..] == ShrinkAt(old(out[..]), i, shrink)
  {
    hide Truncate;
    if out[i].role == SYSTEM || |out[i].content| <= shrink {
      return;
    }
    var c := TruncateHeadTail(out[i].content, shrink);
    out[i] := out[i].(content := c);
  }

  lemma {:induction false} PassUnfolds(ms: seq<Message>, i: nat, shrink: int, max: int)
    ensures Pass(ms, i, shrink, max)
            == if i + 2 >= |ms| || Total(ms) <= max then ms else Pass(ShrinkAt(ms, i, shrink), i + 1, shrink, max)
  {
    hide ShrinkAt, Total;
  }

  // ---- What projection keeps and achieves ----

  /** How one list of messages is a shrunken form of another. */
  ghost predicate ShrunkFrom(r: seq<Message>, ms: seq<Message>) {
    && |r| == |ms|
    && forall i :: 0 <= i < |ms| ==> MessageShrunk(r[i], ms[i], Shrinkable(ms, i))
  }

  ghost predicate MessageShrunk(r: Message, m: Message, shrinkable: bool) {
    r.role == m.role && |r.content| <= |m.content| && (!shrinkable ==> r == m)
    && (WellFormed(m.content) ==> WellFormed(r.content))
  }

  lemma {:induction false} ShrinkAtShrinks(ms: seq<Message>, i: nat, shrink: int)
    requires i + 2 < |ms| && shrink > 0
    ensures ShrunkFrom(ShrinkAt(ms, i, shrink), ms)
    ensures var r := ShrinkAt(ms, i, shrink); Shrinkable(ms, i) ==> |r[i].content| <= shrink
  {
    hide WellFormed, Truncate;
    TruncateFits(ms[i].content, shrink);
    if WellFormed(ms[i].content) {
      TruncateKeepsRunes(ms[i].content, shrink);
    }
  }

  lemma {:induction false} ShrunkTwice(r: seq<Message>, q: seq<Message>, ms: seq<Message>)
    requires ShrunkFrom(r, q) && ShrunkFrom(q, ms)
    ensures ShrunkFrom(r, ms)
  {
    hide WellFormed;
    forall i | 0 <= i < |ms| ensures MessageShrunk(r[i], ms[i], Shrinkable(ms, i)) {
      assert MessageShrunk(r[i], q[i], Shrinkable(q, i)) && MessageShrunk(q[i], ms[i], Shrinkable(ms, i));
    }
  }

  lemma {:induction false} ShrunkSelf(ms: seq<Message>)
    ensures ShrunkFrom(ms, ms)
  {
  }

  /** A pass cuts a run of the oldest messages and stops: everything from i up to some place c has been
      brought down to the size, everything from c on is as it was, and it stops before the end only
      because the estimate fits. */
  lemma {:induction false} PassIsOldestFirst(ms: seq<Message>, i: nat, shrink: int, max: int) returns (c: nat)
    requires shrink > 0
    ensures var r := Pass(ms, i, shrink, max);
            && ShrunkFrom(r, ms) && i <= c
            && (forall k :: i <= k < c && Shrinkable(ms, k) ==> |r[k].content| <= shrink)
            && (forall k :: 0 <= k < |ms| && (k < i || c <= k) ==> r[k] == ms[k])
            && (c + 2 < |ms| ==> Total(r) <= max)
    decreases |ms| - i
  {
    hide Truncate, Total, WellFormed;
    if i + 2 >= |ms| || Total(ms) <= max {
      ShrunkSelf(ms);
      c := i;
    } else {
      var q := ShrinkAt(ms, i, shrink);
      ShrinkAtShrinks(ms, i, shrink);
      c := PassIsOldestFirst(q, i + 1, shrink, max);
      ShrunkTwice(Pass(q, i + 1, shrink, max), q, ms);
      assert MessageShrunk(q[i], ms[i], Shrinkable(ms, i));
      forall k | i + 1 <= k < c && Shrinkable(ms, k) ensures Shrinkable(q, k) {
        assert q[k] == ms[k];
      }
    }
  }

  /** Every shrinkable message is down to the last pass's size, or the estimate fits. */
  lemma {:induction false} PassesFit(ms: seq<Message>, k: nat, max: int)
    requires k <= |SHRINKS|
    ensures var r := Passes(ms, k, max);
            && ShrunkFrom(r, ms)
            && (k < |SHRINKS| ==> Total(r) <= max || AllAtMost(r, 256))
            && (Total(ms) <= max ==> r == ms)
    decreases |SHRINKS| - k
  {
    hide Total, Truncate, WellFormed, ShrunkFrom, Pass;
    if k == |SHRINKS| || Total(ms) <= max {
      ShrunkSelf(ms);
    } else {
      var q := Pass(ms, 0, SHRINKS[k], max);
      var c := PassIsOldestFirst(ms, 0, SHRINKS[k], max);
      PassesFit(q, k + 1, max);
      ShrunkTwice(Passes(q, k + 1, max), q, ms);
      if k + 1 == |SHRINKS| && Total(q) > max {
        LastPassReachedAll(q, ms, c);
      }
    }
  }

  lemma {:induction false} LastPassReachedAll(q: seq<Message>, ms: seq<Message>, c: nat)
    requires ShrunkFrom(q, ms) && c + 2 >= |ms|
    requires forall k :: 0 <= k < c && Shrinkable(ms, k) ==> |q[k].content| <= 256
    ensures AllAtMost(q, 256)
  {
    hide WellFormed;
    forall i: nat | i < |q| && Shrinkable(q, i) ensures |q[i].content| <= 256 {
      assert MessageShrunk(q[i], ms[i], Shrinkable(ms, i));
    }
  }

  ghost predicate AllAtMost(ms: seq<Message>, size: int) {
    forall i: nat :: i < |ms| && Shrinkable(ms, i) ==> |ms[i].content| <= size
  }

  /** Projection keeps the number, order and roles of messages; every message fits its cap; system
      messages and the last two are only stripped and capped, never shrunk; in the end the estimate fits
      the payload budget, or every other message is down to 256 bytes; and if the capped messages fit
      already, nothing more happens. */
  lemma {:induction false} ProjectionIsRight(lim: Limits, strip: Strip, ms: seq<Message>)
    ensures var r := Projected(lim, strip, ms); var capped := CapAll(lim, strip, ms);
            && |r| == |ms| && (forall i :: 0 <= i < |ms| ==> r[i].role == ms[i].role)
            && (lim.maxMessageBytes > 0 ==> forall i :: 0 <= i < |r| ==> |r[i].content| <= lim.maxMessageBytes)
            && (forall i :: 0 <= i < |ms| && !Shrinkable(ms, i) ==> r[i] == capped[i])
            && (lim.maxPayloadBytes > 0 ==> Total(r) <= lim.maxPayloadBytes || AllAtMost(r, 256))
            && (lim.maxPayloadBytes <= 0 || Total(capped) <= lim.maxPayloadBytes ==> r == capped)
  {
    hide Total, Passes, Truncate, WellFormed, AllAtMost;
    var capped := CapAll(lim, strip, ms);
    var r := Projected(lim, strip, ms);
    PassesFit(capped, 0, lim.maxPayloadBytes);
    ShrunkSelf(capped);
    assert ShrunkFrom(r, capped);
    forall i | 0 <= i < |ms|
      ensures r[i].role == ms[i].role && (!Shrinkable(ms, i) ==> r[i] == capped[i])
      ensures lim.maxMessageBytes > 0 ==> |r[i].content| <= lim.maxMessageBytes
    {
      assert MessageShrunk(r[i], capped[i], Shrinkable(capped, i));
      CapFits(lim, strip, ms[i]);
    }
  }

  lemma {:induction false} CapFits(lim: Limits, strip: Strip, m: Message)
    ensures Capped(lim, strip, m).role == m.role
    ensures lim.maxMessageBytes > 0 ==> |Capped(lim, strip, m).content| <= lim.maxMessageBytes
  {
    hide Truncate;
    var c := if |m.content| > 4096 then strip(m.content) else m.content;
    if lim.maxMessageBytes > 0 {
      TruncateFits(c, lim.maxMessageBytes);
    }
  }

  /** No rune is split: well-formed messages stay well-formed if stripping keeps them so. */
  lemma {:induction false} ProjectionKeepsRunes(lim: Limits, strip: Strip, ms: seq<Message>, i: nat)
    requires i < |ms|
    requires WellFormed(if |ms[i].content| > 4096 then strip(ms[i].content) else ms[i].content)
    ensures WellFormed(Projected(lim, strip, ms)[i].content)
  {
    hide Total, Passes, Truncate, WellFormed, AllAtMost;
    var capped := CapAll(lim, strip, ms);
    var c := if |ms[i].content| > 4096 then strip(ms[i].content) else ms[i].content;
    if lim.maxMessageBytes > 0 {
      TruncateKeepsRunes(c, lim.maxMessageBytes);
    }
    PassesFit(capped, 0, lim.maxPayloadBytes);
    ShrunkSelf(capped);
    assert MessageShrunk(Projected(lim, strip, ms)[i], capped[i], Shrinkable(capped, i));
  }

  // ---- Exactly what the projection does, said without its passes ----

  lemma {:induction false} CappedIs(lim: Limits, strip: Strip, m: Message)
    ensures |m.content| <= 4096 && lim.maxMessageBytes <= 0 ==> Capped(lim, strip, m) == m
    ensures |m.content| <= 4096 && lim.maxMessageBytes > 0 ==>
              Capped(lim, strip, m) == m.(content := Truncate(m.content, lim.maxMessageBytes))
    ensures |m.content| > 4096 && lim.maxMessageBytes <= 0 ==> Capped(lim, strip, m) == m.(content := strip(m.content))
    ensures |m.content| > 4096 && lim.maxMessageBytes > 0 ==>
              Capped(lim, strip, m) == m.(content := Truncate(strip(m.content), lim.maxMessageBytes))
  {
    hide Truncate;
  }

  /** The estimate: 32 bytes a message and its content. */
  lemma {:induction false} TotalIs(a: seq<Message>, b: seq<Message>, m: Message)
    ensures Total([]) == 0 && Total([m]) == |m.content| + 32 && Total(a + b) == Total(a) + Total(b)
  {
    assert Front([m]) == [];
    if b == [] {
      assert a + b == a;
    } else {
      TotalIs(a, Front(b), m);
      assert Front(a + b) == a + Front(b) && Last(a + b) == Last(b);
    }
  }

  /** All messages but the system messages and the last two cut to a size. */
  function AtSize(ms: seq<Message>, size: nat): (r: seq<Message>)
    ensures |r| == |ms|
  {
    seq(|ms|, i requires 0 <= i < |ms| =>
      if i < |ms| - 2 && ms[i].role != "system" then ms[i].(content := Truncate(ms[i].content, size)) else ms[i])
  }

  /** The c oldest messages of b, the others of a. */
  function Mix(a: seq<Message>, b: seq<Message>, c: nat): (r: seq<Message>)
    requires |a| == |b|
    ensures |r| == |a|
  {
    seq(|a|, i requires 0 <= i < |a| => if i < c then b[i] else a[i])
  }

  /** Going from a to b, oldest message first, only as far as it takes to fit. */
  ghost predicate FarEnough(r: seq<Message>, a: seq<Message>, b: seq<Message>, c: nat, max: int)
    requires |a| == |b|
  {
    r == Mix(a, b, c) && Total(r) <= max && forall d: nat :: d < c ==> Total(Mix(a, b, d)) > max
  }

  ghost predicate FitsOnTheWay(r: seq<Message>, a: seq<Message>, b: seq<Message>, max: int)
    requires |a| == |b|
  {
    exists c :: FarEnough(r, a, b, c, max)
  }

  lemma {:induction false} ShrinkOneMore(ms: seq<Message>, size: nat, c: nat)
    requires c < |ms| - 2 && size > 0
    ensures var full := AtSize(ms, size);
            ShrinkAt(Mix(ms, full, c), c, size) == Mix(ms, full, c + 1)
            && |full[c].content| <= |ms[c].content|
  {
    hide Truncate;
    TruncateFits(ms[c].content, size);
  }

  lemma {:induction false} MixEnds(a: seq<Message>, b: seq<Message>)
    requires |a| == |b|
    ensures Mix(a, b, 0) == a && Mix(a, b, |a|) == b
  {
  }

  /** One message shorter, and the estimate is no larger. */
  lemma {:induction false} TotalShrinks(a: seq<Message>, b: seq<Message>)
    requires |a| == |b| && forall i :: 0 <= i < |a| ==> |b[i].content| <= |a[i].content|
    ensures Total(b) <= Total(a)
  {
    if a != [] {
      assert forall i :: 0 <= i < |a| - 1 ==> Front(a)[i] == a[i] && Front(b)[i] == b[i];
      assert Last(a) == a[|a| - 1] && Last(b) == b[|b| - 1];
      TotalShrinks(Front(a), Front(b));
    }
  }

  lemma {:induction false} AtSizeShrinks(ms: seq<Message>, size: nat)
    requires size > 0
    ensures forall i :: 0 <= i < |ms| ==> |AtSize(ms, size)[i].content| <= |ms[i].content|
    ensures Total(AtSize(ms, size)) <= Total(ms)
  {
    hide Truncate, Total;
    forall i | 0 <= i < |ms| ensures |AtSize(ms, size)[i].content| <= |ms[i].content| {
      TruncateFits(ms[i].content, size);
    }
    TotalShrinks(ms, AtSize(ms, size));
  }

  lemma {:induction false} MixShrinks(a: seq<Message>, b: seq<Message>, c: nat)
    requires |a| == |b| && forall i :: 0 <= i < |a| ==> |b[i].content| <= |a[i].content|
    ensures Total(b) <= Total(Mix(a, b, c))
  {
    TotalShrinks(Mix(a, b, c), b);
  }

  /** One pass from its c-th message on. */
  lemma {:induction false} PassIs(ms: seq<Message>, size: nat, c: nat, max: int) returns (d: nat)
    requires size > 0 && c <= |ms| && forall e: nat :: e < c ==> Total(Mix(ms, AtSize(ms, size), e)) > max
    ensures var full := AtSize(ms, size); var r := Pass(Mix(ms, full, c), c, size, max);
            && r == Mix(ms, full, d) && (forall e: nat :: e < d ==> Total(Mix(ms, full, e)) > max)
            && (Total(r) <= max || r == full)
    decreases |ms| - c
  {
    hide Truncate, Total, ShrinkAt;
    var full := AtSize(ms, size);
    var q := Mix(ms, full, c);
    if c + 2 >= |ms| {
      d := c;
      assert q == full;
    } else if Total(q) <= max {
      d := c;
    } else {
      ShrinkOneMore(ms, size, c);
      d := PassIs(ms, size, c + 1, max);
    }
  }

  /** A whole pass: as far as it takes if that is possible at this size, else all the way. */
  lemma {:induction false} WholePass(ms: seq<Message>, size: nat, max: int)
    requires size > 0 && Total(ms) > max
    ensures var full := AtSize(ms, size); var r := Pass(ms, 0, size, max);
            && (Total(full) > max ==> r == full)
            && (Total(full) <= max ==> Total(r) <= max && FitsOnTheWay(r, ms, full, max))
  {
    hide Truncate, Total, Pass, AtSize, Mix;
    var full := AtSize(ms, size);
    MixEnds(ms, full);
    var d := PassIs(ms, size, 0, max);
    AtSizeShrinks(ms, size);
    MixShrinks(ms, full, d);
    if Total(full) <= max {
      assert FarEnough(Pass(ms, 0, size, max), ms, full, d, max);
    }
  }

  lemma {:induction false} PassesUnfold(ms: seq<Message>, max: int)
    ensures Passes(ms, 4, max) == ms
    ensures forall k: nat :: k < 4 ==>
              var size := if k == 0 then 2048 else if k == 1 then 1024 else if k == 2 then 512 else 256;
              Passes(ms, k, max) == if Total(ms) <= max then ms else Passes(Pass(ms, 0, size, max), k + 1, max)
    ensures |SHRINKS| == 4
  {
    hide Total, Pass;
  }

  lemma {:induction false} FittingStays(ms: seq<Message>, k: nat, max: int)
    requires Total(ms) <= max && k <= |SHRINKS|
    ensures Passes(ms, k, max) == ms
  {
    hide Total, Pass;
  }

  /** The whole projection. Nothing is cut that need not be: messages are cut to 2048 bytes, oldest first,
      until the estimate fits; only if that does not suffice to 1024, then to 512, then to 256. */
  lemma {:induction false} ProjectionIs(lim: Limits, strip: Strip, ms: seq<Message>)
    requires lim.maxPayloadBytes > 0
    ensures var max := lim.maxPayloadBytes; var r := Projected(lim, strip, ms);
            var m0 := CapAll(lim, strip, ms);
            var m1 := AtSize(m0, 2048); var m2 := AtSize(m1, 1024);
            var m3 := AtSize(m2, 512); var m4 := AtSize(m3, 256);
            && (Total(m0) <= max ==> r == m0)
            && (Total(m0) > max >= Total(m1) ==> FitsOnTheWay(r, m0, m1, max))
            && (Total(m1) > max >= Total(m2) ==> FitsOnTheWay(r, m1, m2, max))
            && (Total(m2) > max >= Total(m3) ==> FitsOnTheWay(r, m2, m3, max))
            && (Total(m3) > max >= Total(m4) ==> FitsOnTheWay(r, m3, m4, max))
            && (Total(m4) > max ==> r == m4)
  {
    hide Total, Pass, Passes, AtSize, Truncate, FitsOnTheWay, CapAll;
    var max := lim.maxPayloadBytes;
    var m0 := CapAll(lim, strip, ms);
    var m1 := AtSize(m0, 2048);
    var m2 := AtSize(m1, 1024);
    var m3 := AtSize(m2, 512);
    var m4 := AtSize(m3, 256);
    AtSizeShrinks(m0, 2048);
    AtSizeShrinks(m1, 1024);
    AtSizeShrinks(m2, 512);
    AtSizeShrinks(m3, 256);
    if Total(m0) <= max {
      PassesUnfold(m0, max);
      FittingStays(m0, 0, max);
    } else {
      StepIs(m0, 2048, 0, max);
      if Total(m1) > max {
        StepIs(m1, 1024, 1, max);
        if Total(m2) > max {
          StepIs(m2, 512, 2, max);
          if Total(m3) > max {
            StepIs(m3, 256, 3, max);
            PassesUnfold(m4, max);
          }
        }
      }
    }
  }

  /** One size: it does, or the next one is tried on what it leaves. */
  lemma {:induction false} StepIs(ms: seq<Message>, size: nat, k: nat, max: int)
    requires k < 4 && Total(ms) > max
    requires size == if k == 0 then 2048 else if k == 1 then 1024 else if k == 2 then 512 else 256
    ensures |SHRINKS| == 4
    ensures var full := AtSize(ms, size); var r := Passes(ms, k, max);
            && (Total(full) > max ==> r == Passes(full, k + 1, max))
            && (Total(full) <= max ==> FitsOnTheWay(r, ms, full, max))
  {
    hide Total, Pass, Passes, AtSize, Truncate, FitsOnTheWay;
    PassesUnfold(ms, max);
    WholePass(ms, size, max);
    if Total(AtSize(ms, size)) <= max {
      FittingStays(Pass(ms, 0, size, max), k + 1, max);
    }
  }
}
