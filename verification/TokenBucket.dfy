/** internal/queue/queue.go: the token bucket. Times are nanoseconds; tokens are reals. */
module TokenBucket {
  import opened Basics

  datatype Config = Config(capacity: real, refillRate: real)

  datatype Bucket = Bucket(tokens: real, lastRefill: int)

  /** A configuration that makes sense: nothing negative. */
  predicate Sane(cfg: Config) {
    cfg.capacity >= 0.0 && cfg.refillRate >= 0.0
  }

  function Seconds(d: int): real {
    d as real / 1000000000.0
  }

  /** Tokens that flow in during d nanoseconds. */
  function Accrued(cfg: Config, d: int): real {
    Seconds(d) * cfg.refillRate
  }

  /** At the refill rate, in tokens a second. */
  lemma {:induction false} AccruedIs(cfg: Config, d: int)
    ensures Accrued(cfg, d) == cfg.refillRate * (d as real / 1000000000.0)
  {
  }

  function Min(a: real, b: real): real {
    if a < b then a else b
  }

  function Refilled(cfg: Config, b: Bucket, now: int): real {
    Min(cfg.capacity, b.tokens + Accrued(cfg, now - b.lastRefill))
  }

  function Take(cfg: Config, b: Bucket, now: int): (Bucket, bool) {
    var r := Refilled(cfg, b, now);
    if r >= 1.0 then (Bucket(r - 1.0, now), true) else (Bucket(r, now), false)
  }

  class TokenBucket {
    const cfg: Config
    var tokens: real
    var lastRefill: int

    function View(): Bucket
      reads this
    {
      Bucket(tokens, lastRefill)
    }

    constructor (cfg: Config, now: int)
      ensures this.cfg == cfg && View() == Bucket(cfg.capacity, now)
    {
      this.cfg := cfg;
      tokens, lastRefill := cfg.capacity, now;
    }

    method Allow(now: int) returns (ok: bool)
      modifies this
      ensures (View(), ok) == Take(cfg, old(View()), now)
    {
      var elapsed := Seconds(now - lastRefill);
      tokens := Min(cfg.capacity, tokens + elapsed * cfg.refillRate);
      lastRefill := now;
      if tokens >= 1.0 {
        tokens := tokens - 1.0;
        return true;
      }
      ok := false;
    }
  }

  // ---- Whole runs: a bucket made at time t0 and called at the given times ----

  function Run(cfg: Config, t0: int, times: seq<int>): Bucket {
    if times == [] then Bucket(cfg.capacity, t0) else Take(cfg, Run(cfg, t0, Front(times)), Last(times)).0
  }

  /** Was the last of these calls granted? */
  predicate LastGranted(cfg: Config, t0: int, times: seq<int>)
    requires times != []
  {
    Take(cfg, Run(cfg, t0, Front(times)), Last(times)).1
  }

  /** The number of calls granted at time s or later. */
  function GrantsSince(cfg: Config, t0: int, times: seq<int>, s: int): nat {
    if times == [] then 0
    else GrantsSince(cfg, t0, Front(times), s) + if Last(times) >= s && LastGranted(cfg, t0, times) then 1 else 0
  }

  /** The clock does not run backwards. */
  ghost predicate Ordered(t0: int, times: seq<int>) {
    && (forall i :: 0 <= i < |times| ==> t0 <= times[i])
    && forall i, j :: 0 <= i < j < |times| ==> times[i] <= times[j]
  }

  lemma {:induction false} OrderedFront(t0: int, times: seq<int>)
    requires times != [] && Ordered(t0, times)
    ensures Ordered(t0, Front(times)) && Latest(t0, Front(times)) <= Last(times)
    ensures forall i :: 0 <= i < |times| ==> times[i] <= Last(times)
  {
  }

  function Latest(t0: int, times: seq<int>): int {
    if times == [] then t0 else Last(times)
  }

  lemma {:induction false} AccruedAdds(cfg: Config, a: int, b: int)
    ensures Accrued(cfg, a) + Accrued(cfg, b) == Accrued(cfg, a + b)
    ensures Accrued(cfg, 0) == 0.0
    ensures Sane(cfg) && a >= 0 ==> Accrued(cfg, a) >= 0.0
  {
    assert Seconds(a) + Seconds(b) == Seconds(a + b);
    assert (Seconds(a) + Seconds(b)) * cfg.refillRate == Seconds(a) * cfg.refillRate + Seconds(b) * cfg.refillRate;
  }

  lemma {:induction false} NoGrantsAfterEnd(cfg: Config, t0: int, times: seq<int>, s: int)
    requires forall i :: 0 <= i < |times| ==> times[i] < s
    ensures GrantsSince(cfg, t0, times, s) == 0
  {
    hide LastGranted;
    if times != [] {
      assert times[|times| - 1] < s;
      NoGrantsAfterEnd(cfg, t0, Front(times), s);
    }
  }

  /** Tokens stay within [0, capacity], and tokens plus the grants since s never exceed a full bucket
      plus what has flowed in since s. */
  lemma {:induction false} Conserved(cfg: Config, t0: int, times: seq<int>, s: int)
    requires Sane(cfg) && Ordered(t0, times) && s <= Latest(t0, times)
    ensures var b := Run(cfg, t0, times);
            && 0.0 <= b.tokens <= cfg.capacity && b.lastRefill == Latest(t0, times)
            && b.tokens + GrantsSince(cfg, t0, times, s) as real <= cfg.capacity + Accrued(cfg, b.lastRefill - s)
  {
    hide Accrued;
    if times == [] {
      AccruedAdds(cfg, t0 - s, 0);
    } else {
      var before, now := Front(times), Last(times);
      OrderedFront(t0, times);
      var last := Latest(t0, before);
      Conserved(cfg, t0, before, if s <= last then s else last);
      AccruedAdds(cfg, now - last, last - s);
      AccruedAdds(cfg, last - last, now - last);
      AccruedAdds(cfg, now - last, 0);
      AccruedAdds(cfg, now - s, 0);
      if s > last {
        NoGrantsAfterEnd(cfg, t0, before, s);
      }
    }
  }

  /** In any interval from s to the latest call, grants number at most capacity plus what flows in
      during the interval; cutting the run at the last call up to t gives every interval [s, t]. */
  lemma {:induction false} GrantsBounded(cfg: Config, t0: int, times: seq<int>, s: int, t: int)
    requires Sane(cfg) && Ordered(t0, times) && s <= t
    requires forall i :: 0 <= i < |times| ==> times[i] <= t
    ensures GrantsSince(cfg, t0, times, s) as real <= cfg.capacity + Accrued(cfg, t - s)
  {
    hide Accrued, Run;
    var last := Latest(t0, times);
    if s <= last <= t {
      Conserved(cfg, t0, times, s);
      AccruedAdds(cfg, last - s, t - last);
      AccruedAdds(cfg, t - last, 0);
    } else {
      AccruedAdds(cfg, t - s, 0);
      if times == [] || last < s {
        LatestIsLast(t0, times);
        NoGrantsAfterEnd(cfg, t0, times, s);
      }
    }
  }

  lemma {:induction false} LatestIsLast(t0: int, times: seq<int>)
    requires Ordered(t0, times)
    ensures forall i :: 0 <= i < |times| ==> times[i] <= Latest(t0, times)
  {
  }

  /** The bound is tight: since some time the bucket has never overflowed, so there equality holds. */
  lemma {:induction false} Pivot(cfg: Config, t0: int, times: seq<int>) returns (s: int)
    requires Sane(cfg) && Ordered(t0, times)
    ensures s <= Latest(t0, times)
    ensures var b := Run(cfg, t0, times);
            b.tokens + GrantsSince(cfg, t0, times, s) as real == cfg.capacity + Accrued(cfg, Latest(t0, times) - s)
  {
    hide Accrued;
    AccruedAdds(cfg, 0, 0);
    if times == [] {
      s := t0;
    } else {
      var before, now := Front(times), Last(times);
      OrderedFront(t0, times);
      var last := Latest(t0, before);
      Conserved(cfg, t0, before, last);
      var b := Run(cfg, t0, before);
      if b.tokens + Accrued(cfg, now - last) > cfg.capacity {
        s := now;
        LatestIsLast(t0, before);
        NoGrantsAfterEnd(cfg, t0, before, now);
      } else {
        s := Pivot(cfg, t0, before);
        AccruedAdds(cfg, now - last, last - s);
      }
    }
  }

  /** Would one more grant at now, counted from s, still respect the bound? */
  ghost predicate Fits(cfg: Config, t0: int, times: seq<int>, now: int, s: int) {
    GrantsSince(cfg, t0, times, s) as real + 1.0 <= cfg.capacity + cfg.refillRate * ((now - s) as real / 1000000000.0)
  }

  /** The bucket grants a call exactly when no interval ending at it would exceed its bound: it neither
      lets through too much nor refuses too early. */
  lemma {:induction false} GrantedIff(cfg: Config, t0: int, times: seq<int>, now: int)
    requires Sane(cfg) && Ordered(t0, times) && Latest(t0, times) <= now
    ensures Take(cfg, Run(cfg, t0, times), now).1 <==> forall s :: s <= now ==> Fits(cfg, t0, times, now, s)
  {
    hide Accrued, Run, Take, LastGranted, GrantsSince;
    var more := times + [now];
    OrderedSnoc(t0, times, now);
    if Take(cfg, Run(cfg, t0, times), now).1 {
      forall s | s <= now ensures Fits(cfg, t0, times, now, s) {
        OneMore(cfg, t0, times, now, s);
        LatestIsLast(t0, more);
        GrantsBounded(cfg, t0, more, s, now);
        AccruedIs(cfg, now - s);
      }
    } else {
      var s := RefusalWitness(cfg, t0, times, now);
      assert !Fits(cfg, t0, times, now, s);
    }
  }

  lemma {:induction false} OneMore(cfg: Config, t0: int, times: seq<int>, now: int, s: int)
    ensures Latest(t0, times + [now]) == now
    ensures GrantsSince(cfg, t0, times + [now], s)
            == GrantsSince(cfg, t0, times, s) + if now >= s && Take(cfg, Run(cfg, t0, times), now).1 then 1 else 0
  {
    hide Take;
    SnocParts(times, now);
  }

  /** A refusal comes with an interval that one more grant would overfill. */
  lemma {:induction false} RefusalWitness(cfg: Config, t0: int, times: seq<int>, now: int) returns (s: int)
    requires Sane(cfg) && Ordered(t0, times) && Latest(t0, times) <= now
    requires !Take(cfg, Run(cfg, t0, times), now).1
    ensures s <= now && !Fits(cfg, t0, times, now, s)
  {
    hide Accrued, Run;
    var last := Latest(t0, times);
    Conserved(cfg, t0, times, last);
    AccruedAdds(cfg, now - last, 0);
    if Run(cfg, t0, times).tokens + Accrued(cfg, now - last) > cfg.capacity {
      OverflowedBefore(cfg, t0, times, now);
      s := now;
    } else {
      s := Pivot(cfg, t0, times);
      AccruedAdds(cfg, now - last, last - s);
    }
    AccruedIs(cfg, now - s);
  }

  lemma {:induction false} OrderedSnoc(t0: int, times: seq<int>, now: int)
    requires Ordered(t0, times) && Latest(t0, times) <= now
    ensures Ordered(t0, times + [now])
  {
    LatestIsLast(t0, times);
  }

  /** If the bucket overflows on the way to now, time has passed since the last call. */
  lemma {:induction false} OverflowedBefore(cfg: Config, t0: int, times: seq<int>, now: int)
    requires Sane(cfg) && Ordered(t0, times) && Latest(t0, times) <= now
    requires Run(cfg, t0, times).tokens + Accrued(cfg, now - Latest(t0, times)) > cfg.capacity
    ensures GrantsSince(cfg, t0, times, now) == 0 && Accrued(cfg, now - now) == 0.0
  {
    hide Accrued;
    Conserved(cfg, t0, times, Latest(t0, times));
    AccruedAdds(cfg, 0, 0);
    LatestIsLast(t0, times);
    NoGrantsAfterEnd(cfg, t0, times, now);
  }

  /** The number of calls granted from time s to time t. */
  function GrantsWithin(cfg: Config, t0: int, times: seq<int>, s: int, t: int): nat {
    if times == [] then 0
    else GrantsWithin(cfg, t0, Front(times), s, t)
         + if s <= Last(times) <= t && LastGranted(cfg, t0, times) then 1 else 0
  }

  /** Every interval of every run respects the bound. */
  lemma {:induction false} IntervalBounded(cfg: Config, t0: int, times: seq<int>, s: int, t: int)
    requires Sane(cfg) && Ordered(t0, times) && s <= t
    ensures GrantsWithin(cfg, t0, times, s, t) as real
            <= cfg.capacity + cfg.refillRate * ((t - s) as real / 1000000000.0)
  {
    hide Accrued, LastGranted;
    AccruedIs(cfg, t - s);
    AccruedAdds(cfg, t - s, 0);
    if times != [] {
      OrderedFront(t0, times);
      if Last(times) > t {
        IntervalBounded(cfg, t0, Front(times), s, t);
      } else {
        GrantsBounded(cfg, t0, times, s, t);
        WithinIsSince(cfg, t0, times, s, t);
      }
    }
  }

  lemma {:induction false} WithinIsSince(cfg: Config, t0: int, times: seq<int>, s: int, t: int)
    requires forall i :: 0 <= i < |times| ==> times[i] <= t
    ensures GrantsWithin(cfg, t0, times, s, t) == GrantsSince(cfg, t0, times, s)
  {
    hide LastGranted;
    if times != [] {
      assert times[|times| - 1] <= t;
      WithinIsSince(cfg, t0, Front(times), s, t);
    }
  }
}
