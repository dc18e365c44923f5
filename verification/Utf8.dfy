/** UTF-8 as section 4 of RFC 3629 defines it, and the two decoding calls of Go's unicode/utf8 that
    internal/protect/protect.go uses at cut points. */
module Utf8 {
  newtype byte = x: int | 0 <= x < 256

  type Bytes = seq<byte>

  // ---- The syntax of RFC 3629 ----

  predicate IsTail(b: byte) {
    0x80 <= b <= 0xBF
  }

  /** How long a rune starting with this byte is; 0 if none does. */
  function LeadLen(b: byte): nat {
    if b < 0x80 then 1
    else if 0xC2 <= b <= 0xDF then 2
    else if 0xE0 <= b <= 0xEF then 3
    else if 0xF0 <= b <= 0xF4 then 4
    else 0
  }

  /** The second byte is restricted after E0, ED, F0 and F4. */
  predicate SecondOk(lead: byte, b: byte) {
    if lead == 0xE0 then 0xA0 <= b <= 0xBF
    else if lead == 0xED then 0x80 <= b <= 0x9F
    else if lead == 0xF0 then 0x90 <= b <= 0xBF
    else if lead == 0xF4 then 0x80 <= b <= 0x8F
    else IsTail(b)
  }

  /** The n bytes of s from i on are one rune. */
  predicate RuneAt(s: Bytes, i: nat, n: nat) {
    && n > 0 && i + n <= |s| && LeadLen(s[i]) == n
    && (n >= 2 ==> SecondOk(s[i], s[i + 1]))
    && (n >= 3 ==> IsTail(s[i + 2]))
    && (n >= 4 ==> IsTail(s[i + 3]))
  }

  /** The length of the rune at i, or 0 if no rune stands there. */
  function RuneLen(s: Bytes, i: nat): (n: nat)
    requires i < |s|
    ensures n > 0 ==> RuneAt(s, i, n)
    ensures n == 0 ==> forall m :: !RuneAt(s, i, m)
  {
    if RuneAt(s, i, LeadLen(s[i])) then LeadLen(s[i]) else 0
  }

  /** The bytes from i to j are runes end to end. */
  predicate RunesBetween(s: Bytes, i: nat, j: nat)
    decreases j - i
  {
    i == j || (i < j <= |s| && RuneLen(s, i) > 0 && i + RuneLen(s, i) <= j && RunesBetween(s, i + RuneLen(s, i), j))
  }

  predicate WellFormed(s: Bytes) {
    RunesBetween(s, 0, |s|)
  }

  // ---- What runes are for: the encodings of the Unicode scalar values ----

  predicate IsScalar(v: nat) {
    v < 0xD800 || 0xE000 <= v < 0x110000
  }

  /** The encoding of a scalar value, as section 3 of RFC 3629 lays it out: six bits in each tail byte. */
  function Encode(v: nat): Bytes
    requires IsScalar(v)
  {
    if v < 0x80 then [v as byte]
    else if v < 0x800 then [(0xC0 + v / 64) as byte, (0x80 + v % 64) as byte]
    else if v < 0x10000 then [(0xE0 + v / 4096) as byte, (0x80 + v / 64 % 64) as byte, (0x80 + v % 64) as byte]
    else [(0xF0 + v / 262144) as byte, (0x80 + v / 4096 % 64) as byte, (0x80 + v / 64 % 64) as byte,
          (0x80 + v % 64) as byte]
  }

  lemma {:induction false} EncodingIsRune(v: nat)
    requires IsScalar(v)
    ensures RuneAt(Encode(v), 0, |Encode(v)|)
  {
  }

  /** The value a rune encodes. */
  function Decode(s: Bytes): nat
    requires |s| > 0 && RuneAt(s, 0, |s|)
  {
    if |s| == 1 then s[0] as nat
    else if |s| == 2 then (s[0] as nat - 0xC0) * 64 + (s[1] as nat - 0x80)
    else if |s| == 3 then (s[0] as nat - 0xE0) * 4096 + (s[1] as nat - 0x80) * 64 + (s[2] as nat - 0x80)
    else (s[0] as nat - 0xF0) * 262144 + (s[1] as nat - 0x80) * 4096 + (s[2] as nat - 0x80) * 64 + (s[3] as nat - 0x80)
  }

  /** The runes are exactly the encodings of the scalar values: no overlong form, no surrogate, nothing
      beyond the last plane. */
  lemma {:induction false} RuneIsEncoding(s: Bytes)
    requires |s| > 0 && RuneAt(s, 0, |s|)
    ensures IsScalar(Decode(s)) && Encode(Decode(s)) == s
  {
    hide Encode, Decode, SecondOk;
    if |s| == 2 {
      TwoBytes(s);
    } else if |s| == 3 {
      ThreeBytes(s);
    } else if |s| == 4 {
      FourBytes(s);
    } else {
      OneByte(s);
    }
  }

  lemma {:induction false} OneByte(s: Bytes)
    requires |s| == 1 && RuneAt(s, 0, 1)
    ensures IsScalar(Decode(s)) && Encode(Decode(s)) == s
  {
  }

  lemma {:induction false} TwoBytes(s: Bytes)
    requires |s| == 2 && RuneAt(s, 0, 2)
    ensures IsScalar(Decode(s)) && Encode(Decode(s)) == s
  {
    Digits(s[0] as nat - 0xC0, s[1] as nat - 0x80);
  }

  lemma {:induction false} ThreeBytes(s: Bytes)
    requires |s| == 3 && RuneAt(s, 0, 3)
    ensures IsScalar(Decode(s)) && Encode(Decode(s)) == s
  {
    var a, b, c := s[0] as nat - 0xE0, s[1] as nat - 0x80, s[2] as nat - 0x80;
    var v := Decode(s);
    Digits(a * 64 + b, c);
    Digits(a, b);
    assert v == (a * 64 + b) * 64 + c;
    Divided(v);
    assert 0x800 <= v < 0x10000 && IsScalar(v);
  }

  lemma {:induction false} FourBytes(s: Bytes)
    requires |s| == 4 && RuneAt(s, 0, 4)
    ensures IsScalar(Decode(s)) && Encode(Decode(s)) == s
  {
    var a, b, c, d := s[0] as nat - 0xF0, s[1] as nat - 0x80, s[2] as nat - 0x80, s[3] as nat - 0x80;
    var v := Decode(s);
    Digits((a * 64 + b) * 64 + c, d);
    Digits(a * 64 + b, c);
    Digits(a, b);
    assert v == ((a * 64 + b) * 64 + c) * 64 + d;
    Divided(v);
    assert 0x10000 <= v < 0x110000;
  }

  lemma {:induction false} Divided(v: nat)
    ensures v / 4096 == v / 64 / 64 && v / 262144 == v / 64 / 64 / 64
  {
  }

  lemma {:induction false} Digits(high: nat, low: nat)
    requires low < 64
    ensures (high * 64 + low) / 64 == high && (high * 64 + low) % 64 == low
  {
  }

  // ---- Decoding at an edge ----

  /** utf8.DecodeRune: true when the result is RuneError of size at most 1. */
  predicate BadStart(s: Bytes)
    requires s != []
  {
    RuneLen(s, 0) == 0
  }

  /** Backwards from i to the nearest byte that is not a tail byte, but no further than lim. */
  function FindStart(s: Bytes, i: int, lim: nat): (r: int)
    requires i < |s| && lim <= |s| && lim - 1 <= i
    ensures lim - 1 <= r <= i
    ensures r >= lim ==> !IsTail(s[r])
    ensures forall k: nat :: r < k <= i ==> IsTail(s[k])
    decreases i
  {
    if i < lim then lim - 1 else if !IsTail(s[i]) then i else FindStart(s, i - 1, lim)
  }

  /** utf8.DecodeLastRune: the length of the rune s ends with, or 0 when the result is RuneError of size 1. */
  function LastRuneLen(s: Bytes): nat
    requires s != []
  {
    var end := |s|;
    if s[end - 1] < 0x80 then 1
    else
      var lim := if end < 4 then 0 else end - 4;
      var found := if end - 2 < lim then lim - 1 else FindStart(s, end - 2, lim);
      var start: nat := if found < 0 then 0 else found;
      if RuneLen(s, start) > 0 && start + RuneLen(s, start) == end then end - start else 0
  }

  /** Bytes of a rune after the first are tail bytes; the first is not. */
  lemma {:induction false} RuneShape(s: Bytes, i: nat, n: nat)
    requires RuneAt(s, i, n)
    ensures n <= 4 && i + n <= |s| && !IsTail(s[i]) && forall k :: i < k < i + n ==> IsTail(s[k])
  {
  }

  /** The backwards search is exact: it finds the rune s ends with whenever there is one. */
  lemma {:induction false} LastRuneLenIs(s: Bytes, n: nat)
    requires s != []
    ensures LastRuneLen(s) > 0 ==> LastRuneLen(s) <= |s| && RuneAt(s, |s| - LastRuneLen(s), LastRuneLen(s))
    ensures n <= |s| && RuneAt(s, |s| - n, n) ==> LastRuneLen(s) == n
  {
    hide RuneAt;
    if n <= |s| && RuneAt(s, |s| - n, n) {
      FoundRune(s, n);
    }
    AsciiRune(s, |s| - 1);
  }

  lemma {:induction false} AsciiRune(s: Bytes, i: nat)
    requires i < |s|
    ensures s[i] < 0x80 ==> RuneAt(s, i, 1)
  {
  }

  lemma {:induction false} FoundRune(s: Bytes, n: nat)
    requires s != [] && n <= |s| && RuneAt(s, |s| - n, n)
    ensures LastRuneLen(s) == n
  {
    var at := |s| - n;
    RuneShape(s, at, n);
    if n == 1 {
      assert s[at] < 0x80;
    } else {
      assert IsTail(s[|s| - 1]);
      var lim := if |s| < 4 then 0 else |s| - 4;
      var r := FindStart(s, |s| - 2, lim);
      assert r == at;
      assert RuneLen(s, at) == n;
    }
  }

  // ---- Trimming ----

  predicate EndsWithRune(s: Bytes) {
    s != [] && LastRuneLen(s) > 0
  }

  function Trim(s: Bytes): (r: Bytes)
    ensures r <= s && (r == [] || EndsWithRune(r))
    ensures forall m :: |r| < m <= |s| ==> !EndsWithRune(s[..m])
  {
    if s == [] || EndsWithRune(s) then
      assert s[..|s|] == s;
      s
    else
      var front := s[..|s| - 1];
      var r := Trim(front);
      assert forall m :: 0 <= m < |s| ==> front[..m] == s[..m];
      assert s[..|s|] == s;
      r
  }

  function Skip(s: Bytes): (r: Bytes)
    ensures |r| <= |s| && r == s[|s| - |r|..] && (r == [] || !BadStart(r))
    ensures forall m :: 0 <= m < |s| - |r| ==> BadStart(s[m..])
  {
    if s == [] || !BadStart(s) then
      assert s[0..] == s;
      s
    else
      var r := Skip(s[1..]);
      assert forall m :: 0 < m < |s| ==> s[1..][m - 1..] == s[m..];
      assert s[0..] == s;
      r
  }

  /** Drops trailing bytes until the text ends with a whole rune: the longest such prefix. */
  method TrimToRuneEdge(text: Bytes) returns (s: Bytes)
    ensures s == Trim(text)
  {
    s := text;
    while |s| > 0
      invariant Trim(s) == Trim(text)
    {
      if LastRuneLen(s) == 0 {
        s := s[..|s| - 1];
        continue;
      }
      break;
    }
  }

  /** Drops leading bytes until the text starts with a whole rune: the longest such suffix. */
  method SkipToRuneEdge(text: Bytes) returns (s: Bytes)
    ensures s == Skip(text)
  {
    s := text;
    while |s| > 0
      invariant Skip(s) == Skip(text)
    {
      if BadStart(s) {
        s := s[1..];
        continue;
      }
      break;
    }
  }

  // ---- Well-formed text and its rune boundaries ----

  lemma {:induction false} Join(s: Bytes, i: nat, m: nat, j: nat)
    requires RunesBetween(s, i, m) && RunesBetween(s, m, j) && m <= j <= |s|
    ensures RunesBetween(s, i, j)
    decreases m - i
  {
    if i < m {
      Join(s, i + RuneLen(s, i), m, j);
    }
  }

  lemma {:induction false} SameRune(s: Bytes, i: nat, t: Bytes, i': nat, n: nat)
    requires RuneAt(s, i, n) && i' + n <= |t| && t[i'..i' + n] == s[i..i + n]
    ensures RuneAt(t, i', n) && RuneLen(t, i') == n
  {
    var x, y := s[i..i + n], t[i'..i' + n];
    assert x[0] == s[i] && y[0] == t[i'];
    assert n >= 2 ==> x[1] == s[i + 1] && y[1] == t[i' + 1];
    assert n >= 3 ==> x[2] == s[i + 2] && y[2] == t[i' + 2];
    assert n >= 4 ==> x[3] == s[i + 3] && y[3] == t[i' + 3];
  }

  /** Equal parts are equal in front of and behind any place in them. */
  lemma {:induction false} SplitAt(s: Bytes, i: nat, t: Bytes, i': nat, n: nat, m: nat)
    requires i + n + m <= |s| && i' + n + m <= |t| && t[i'..i' + n + m] == s[i..i + n + m]
    ensures t[i'..i' + n] == s[i..i + n] && t[i' + n..i' + n + m] == s[i + n..i + n + m]
  {
    var x := s[i..i + n + m];
    assert x[..n] == s[i..i + n] && x[..n] == t[i'..i' + n];
    assert x[n..] == s[i + n..i + n + m] && x[n..] == t[i' + n..i' + n + m];
  }

  /** The same bytes elsewhere are the same runes. */
  lemma {:induction false} Transfer(s: Bytes, i: nat, j: nat, t: Bytes, i': nat)
    requires RunesBetween(s, i, j) && i <= j <= |s| && i' + (j - i) <= |t|
    requires t[i'..i' + (j - i)] == s[i..j]
    ensures RunesBetween(t, i', i' + (j - i))
    decreases j - i
  {
    hide RuneAt;
    if i < j {
      var n := RuneLen(s, i);
      SplitAt(s, i, t, i', n, j - i - n);
      SameRune(s, i, t, i', n);
      Transfer(s, i + n, j, t, i' + n);
    }
  }

  lemma {:induction false} WellFormedConcat(a: Bytes, b: Bytes)
    requires WellFormed(a) && WellFormed(b)
    ensures WellFormed(a + b)
  {
    hide RuneAt, RunesBetween;
    assert (a + b)[0..|a|] == a == a[0..|a|];
    assert (a + b)[|a|..|a| + |b|] == b == b[0..|b|];
    Transfer(a, 0, |a|, a + b, 0);
    Transfer(b, 0, |b|, a + b, |a|);
    Join(a + b, 0, |a|, |a + b|);
  }

  /** A place in well-formed text lies in a rune, at its start or inside it. */
  lemma {:induction false} Boundaries(s: Bytes, i: nat, n: nat) returns (b: nat, e: nat)
    requires RunesBetween(s, i, |s|) && i <= n <= |s|
    ensures i <= b <= n <= e <= |s| && RunesBetween(s, i, b) && RunesBetween(s, e, |s|)
    ensures b == n == e || (b < n < e && RuneAt(s, b, e - b))
    decreases |s| - i
  {
    if i == n {
      b, e := i, i;
    } else {
      var l := RuneLen(s, i);
      if i + l <= n {
        b, e := Boundaries(s, i + l, n);
      } else {
        b, e := i, i + l;
      }
    }
  }

  lemma {:induction false} EndsInRune(s: Bytes, i: nat, j: nat) returns (n: nat)
    requires RunesBetween(s, i, j) && i < j <= |s|
    ensures n <= j - i && RuneAt(s, j - n, n)
    decreases j - i
  {
    n := RuneLen(s, i);
    if i + n < j {
      n := EndsInRune(s, i + n, j);
    }
  }

  /** Part of a rune is not a rune, and no rune ends inside another. */
  lemma {:induction false} NoRuneEndsInside(s: Bytes, b: nat, e: nat, m: nat)
    requires b < m < e && RuneAt(s, b, e - b)
    ensures m <= |s| && !EndsWithRune(s[..m])
  {
    hide RuneAt;
    RuneShape(s, b, e - b);
    var p := s[..m];
    var n := LastRuneLen(p);
    LastRuneLenIs(p, n);
    if n > 0 {
      assert p[b] == s[b] && p[m - n] == s[m - n];
      RuneShape(p, m - n, n);
      OneLength(s, b, e - b, p, n);
    }
  }

  lemma {:induction false} OneLength(s: Bytes, i: nat, n: nat, p: Bytes, m: nat)
    requires RuneAt(s, i, n) && p <= s && RuneAt(p, i, m)
    ensures n == m
  {
    assert p[i] == s[i];
  }

  /** Cutting well-formed text after n bytes and trimming leaves whole runes and loses at most 3 bytes. */
  lemma {:induction false} TrimCut(text: Bytes, n: nat)
    requires WellFormed(text) && n <= |text|
    ensures var h := Trim(text[..n]); WellFormed(h) && h <= text && n - 3 <= |h| <= n
  {
    hide RuneAt, RunesBetween, LastRuneLen, Trim, EndsWithRune;
    var b, e := Boundaries(text, 0, n);
    var cut := text[..n];
    var h := Trim(cut);
    forall m | b < m <= n ensures !EndsWithRune(cut[..m]) {
      NoRuneEndsInside(text, b, e, m);
      assert cut[..m] == text[..m];
    }
    if b > 0 {
      EndsAtBoundary(text, b);
      assert cut[..b] == text[..b];
    }
    if b < n {
      RuneShape(text, b, e - b);
    }
    assert cut[..|h|] == h;
    assert |h| == b;
    assert h == text[..b] && h[0..b] == text[0..b];
    Transfer(text, 0, b, h, 0);
  }

  lemma {:induction false} EndsAtBoundary(text: Bytes, b: nat)
    requires 0 < b <= |text| && RunesBetween(text, 0, b)
    ensures EndsWithRune(text[..b])
  {
    hide RuneAt, RunesBetween;
    var k := EndsInRune(text, 0, b);
    assert text[..b][b - k..b] == text[b - k..b];
    SameRune(text, b - k, text[..b], b - k, k);
    LastRuneLenIs(text[..b], k);
    RuneShape(text, b - k, k);
    NonEmpty(text, b - k, k);
  }

  lemma {:induction false} NonEmpty(s: Bytes, i: nat, n: nat)
    requires RuneAt(s, i, n)
    ensures n > 0
  {
  }

  /** Starting well-formed text at byte m and skipping leaves whole runes and loses at most 3 bytes. */
  lemma {:induction false} SkipCut(text: Bytes, m: nat)
    requires WellFormed(text) && m <= |text|
    ensures var t := Skip(text[m..]);
            && WellFormed(t) && |text| - m - 3 <= |t| <= |text| - m && t == text[|text| - |t|..]
  {
    hide RuneAt, RunesBetween, Skip, BadStart;
    var b, e := Boundaries(text, 0, m);
    if b < m {
      RuneShape(text, b, e - b);
    }
    SkipsTo(text, m, e);
    TailOfWellFormed(text, e);
  }

  lemma {:induction false} TailOfWellFormed(text: Bytes, e: nat)
    requires e <= |text| && RunesBetween(text, e, |text|)
    ensures WellFormed(text[e..])
  {
    hide RunesBetween;
    var t := text[e..];
    assert t[0..|t|] == text[e..|text|];
    Transfer(text, e, |text|, t, 0);
  }

  /** Tail bytes are skipped, and nothing after them if a rune starts there. */
  lemma {:induction false} SkipsTo(text: Bytes, m: nat, e: nat)
    requires m <= e <= |text| && RunesBetween(text, e, |text|)
    requires forall k :: m <= k < e ==> IsTail(text[k])
    ensures Skip(text[m..]) == text[e..]
  {
    hide RuneAt, RunesBetween, Skip, BadStart;
    var cut := text[m..];
    forall d: nat | d < e - m ensures BadStart(cut[d..]) {
      assert cut[d..][0] == text[m + d];
      TailIsBad(cut[d..]);
    }
    if e < |text| {
      GoodStart(text, e);
      assert cut[e - m..] == text[e..];
    }
    var drop := |cut| - |Skip(cut)|;
    assert Skip(cut) == cut[drop..];
    assert drop == e - m;
  }

  lemma {:induction false} TailIsBad(s: Bytes)
    requires s != [] && IsTail(s[0])
    ensures BadStart(s)
  {
  }

  lemma {:induction false} GoodStart(text: Bytes, e: nat)
    requires e < |text| && RunesBetween(text, e, |text|)
    ensures !BadStart(text[e..])
  {
    hide RuneAt;
    var n := RuneLen(text, e);
    assert text[e..][0..n] == text[e..e + n];
    SameRune(text, e, text[e..], 0, n);
  }
}
