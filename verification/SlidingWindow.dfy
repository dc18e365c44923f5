/** internal/queue/queue.go: the sliding window counter. Times are nanoseconds. */
module SlidingWindow {
  import opened Basics

  datatype Config = Config(window: int, maxCount: int)

  /** The timestamps strictly after the cutoff, in order. */
  function Live(ts: seq<int>, cutoff: int): seq<int> {
    if ts == [] then [] else Live(Front(ts), cutoff) + if Last(ts) > cutoff then [Last(ts)] else []
  }

  function Take(cfg: Config, ts: seq<int>, now: int): (seq<int>, bool) {
    var live := Live(ts, now - cfg.window);
    if |live| < cfg.maxCount then (live + [now], true) else (live, false)
  }

  class SlidingWindowCounter {
    const cfg: Config
    var timestamp: seq<int>

    constructor (cfg: Config)
      ensures this.cfg == cfg && timestamp == []
    {
      this.cfg := cfg;
      timestamp := [];
    }

    method Allow(now: int) returns (ok: bool)
      modifies this
      ensures (timestamp, ok) == Take(cfg, old(timestamp), now)
    {
      var cutoff := now - cfg.window;
      var valid, ts: seq<int> := [], timestamp;
      assert ts[..0] == [];
      for i := 0 to |ts|
        invariant timestamp == ts && valid == Live(ts[..i], cutoff)
      {
        assert ts[..i + 1] == ts[..i] + [ts[i]];
        LiveSnoc(ts[..i], ts[i], cutoff);
        if ts[i] > cutoff {
          valid := valid + [ts[i]];
        }
      }
      assert ts[..|ts|] == ts;
      timestamp := valid;
      if |timestamp| < cfg.maxCount {
        timestamp := timestamp + [now];
        return true;
      }
      ok := false;
    }

    method GetCount(now: int) returns (count: nat)
      ensures count == |Live(timestamp, now - cfg.window)|
    {
      var cutoff := now - cfg.window;
      count := 0;
      assert timestamp[..0] == [];
      for i := 0 to |timestamp|
        invariant count == |Live(timestamp[..i], cutoff)|
      {
        assert timestamp[..i + 1] == timestamp[..i] + [timestamp[i]];
        SnocParts(timestamp[..i], timestamp[i]);
        if timestamp[i] > cutoff {
          count := count + 1;
        }
      }
      assert timestamp[..|timestamp|] == timestamp;
    }
  }

  // ---- Whole runs ----

  /** What the counter holds after calls at these times. */
  function Run(cfg: Config, times: seq<int>): seq<int> {
    if times == [] then [] else Take(cfg, Run(cfg, Front(times)), Last(times)).0
  }

  predicate LastGranted(cfg: Config, times: seq<int>)
    requires times != []
  {
    Take(cfg, Run(cfg, Front(times)), Last(times)).1
  }

  /** The times of all calls ever granted: the full history the counter only keeps a part of. */
  function Grants(cfg: Config, times: seq<int>): seq<int> {
    if times == [] then [] else Grants(cfg, Front(times)) + if LastGranted(cfg, times) then [Last(times)] else []
  }

  ghost predicate Ordered(times: seq<int>) {
    forall i, j :: 0 <= i < j < |times| ==> times[i] <= times[j]
  }

  ghost predicate UpTo(times: seq<int>, t: int) {
    forall i :: 0 <= i < |times| ==> times[i] <= t
  }

  lemma {:induction false} OrderedFront(times: seq<int>)
    requires times != [] && Ordered(times)
    ensures Ordered(Front(times)) && UpTo(Front(times), Last(times)) && UpTo(times, Last(times))
  {
  }

  lemma {:induction false} OrderedNil(t: int)
    ensures Ordered([]) && UpTo([], t)
  {
  }

  lemma {:induction false} OrderedSnoc(times: seq<int>, now: int, t: int)
    requires Ordered(times) && UpTo(times, now) && now <= t
    ensures Ordered(times + [now]) && UpTo(times + [now], t) && UpTo(times, t)
  {
  }

  lemma {:induction false} LiveTwice(ts: seq<int>, a: int, b: int)
    requires a <= b
    ensures Live(Live(ts, a), b) == Live(ts, b)
  {
    if ts != [] {
      var before, x := Front(ts), Last(ts);
      assert before + [x] == ts;
      LiveTwice(before, a, b);
      LiveSnoc(before, x, a);
      LiveSnoc(before, x, b);
      LiveSnoc(Live(before, a), x, b);
      assert Live(before, a) + [] == Live(before, a) && Live(before, b) + [] == Live(before, b);
    }
  }

  lemma {:induction false} LiveSnoc(ts: seq<int>, x: int, cutoff: int)
    ensures Live(ts + [x], cutoff) == Live(ts, cutoff) + if x > cutoff then [x] else []
  {
    SnocParts(ts, x);
  }

  lemma {:induction false} GrantsUpTo(cfg: Config, times: seq<int>, t: int)
    requires UpTo(times, t)
    ensures UpTo(Grants(cfg, times), t)
  {
    hide LastGranted;
    if times != [] {
      assert times[|times| - 1] <= t;
      GrantsUpTo(cfg, Front(times), t);
    }
  }

  /** What the counter has thrown away can never count again: for every cutoff from the last one on, it
      agrees with the full history. */
  lemma {:induction false} NothingNeededIsLost(cfg: Config, times: seq<int>, cutoff: int)
    requires Ordered(times) && (times != [] ==> Last(times) - cfg.window <= cutoff)
    ensures Live(Run(cfg, times), cutoff) == Live(Grants(cfg, times), cutoff)
  {
    hide Live, Run, Grants, LastGranted;
    RunUnfolds(cfg, times);
    if times != [] {
      var before, now := Front(times), Last(times);
      OrderedFront(times);
      assert before != [] ==> Last(before) <= now;
      NothingNeededIsLost(cfg, before, cutoff);
      var kept := Live(Run(cfg, before), now - cfg.window);
      LiveTwice(Run(cfg, before), now - cfg.window, cutoff);
      LiveSnoc(kept, now, cutoff);
      LiveSnoc(Grants(cfg, before), now, cutoff);
    }
  }

  lemma {:induction false} RunUnfolds(cfg: Config, times: seq<int>)
    ensures times == [] ==> Run(cfg, times) == Grants(cfg, times) == []
    ensures times != [] ==>
              var before, now := Front(times), Last(times);
              var kept := Live(Run(cfg, before), now - cfg.window);
              && Run(cfg, times) == (if LastGranted(cfg, times) then kept + [now] else kept)
              && Grants(cfg, times)
                 == (if LastGranted(cfg, times) then Grants(cfg, before) + [now] else Grants(cfg, before))
  {
    hide Live;
    if times != [] {
      assert Grants(cfg, Front(times)) + [] == Grants(cfg, Front(times));
    }
  }

  /** A call at now is granted exactly when fewer than maxCount of all grants ever made lie in the
      window (now - window, now]. */
  lemma {:induction false} GrantedIff(cfg: Config, times: seq<int>, now: int)
    requires Ordered(times) && UpTo(times, now)
    ensures Take(cfg, Run(cfg, times), now).1 <==> |Live(Grants(cfg, times), now - cfg.window)| < cfg.maxCount
    ensures |Live(Grants(cfg, times), now - cfg.window)| == CountIn(Grants(cfg, times), now - cfg.window, now)
  {
    NothingNeededIsLost(cfg, times, now - cfg.window);
    GrantsUpTo(cfg, times, now);
    CountIsLive(Grants(cfg, times), now - cfg.window, now);
  }

  /** GetCount reports the number of grants in the window that ends at the call. */
  lemma {:induction false} CountIsExact(cfg: Config, times: seq<int>, now: int)
    requires Ordered(times) && UpTo(times, now)
    ensures |Live(Run(cfg, times), now - cfg.window)| == CountIn(Grants(cfg, times), now - cfg.window, now)
  {
    NothingNeededIsLost(cfg, times, now - cfg.window);
    GrantsUpTo(cfg, times, now);
    CountIsLive(Grants(cfg, times), now - cfg.window, now);
  }

  /** How many of the times lie in (lo, hi]. */
  function CountIn(ts: seq<int>, lo: int, hi: int): nat {
    if ts == [] then 0 else CountIn(Front(ts), lo, hi) + if lo < Last(ts) <= hi then 1 else 0
  }

  lemma {:induction false} CountIsLive(ts: seq<int>, lo: int, hi: int)
    requires UpTo(ts, hi)
    ensures CountIn(ts, lo, hi) == |Live(ts, lo)|
  {
    if ts != [] {
      assert ts[|ts| - 1] <= hi;
      CountIsLive(Front(ts), lo, hi);
    }
  }

  lemma {:induction false} CountSnoc(ts: seq<int>, x: int, lo: int, hi: int)
    ensures CountIn(ts + [x], lo, hi) == CountIn(ts, lo, hi) + if lo < x <= hi then 1 else 0
  {
    SnocParts(ts, x);
  }

  lemma {:induction false} LiveShrinks(ts: seq<int>, a: int, b: int)
    requires a <= b
    ensures |Live(ts, b)| <= |Live(ts, a)|
  {
    if ts != [] {
      LiveShrinks(Front(ts), a, b);
    }
  }

  /** In every run, every interval (t - window, t] holds at most maxCount grants. */
  lemma {:induction false} WindowBounded(cfg: Config, times: seq<int>, t: int)
    requires Ordered(times)
    ensures CountIn(Grants(cfg, times), t - cfg.window, t) <= if cfg.maxCount > 0 then cfg.maxCount else 0
  {
    hide Live, Run;
    if times != [] {
      var before, now := Front(times), Last(times);
      OrderedFront(times);
      WindowBounded(cfg, before, t);
      var g := Grants(cfg, before);
      CountSnoc(g, now, t - cfg.window, t);
      assert g + [] == g;
      if LastGranted(cfg, times) && now <= t {
        GrantedIff(cfg, before, now);
        GrantsUpTo(cfg, before, now);
        CountIsLive(g, t - cfg.window, t);
        LiveShrinks(g, now - cfg.window, t - cfg.window);
      }
    }
  }

  /** A call is refused only when exactly maxCount grants lie in the window that ends at it. */
  lemma {:induction false} RefusedOnlyWhenFull(cfg: Config, times: seq<int>, now: int)
    requires Ordered(times) && UpTo(times, now) && cfg.maxCount >= 0
    requires !Take(cfg, Run(cfg, times), now).1
    ensures CountIn(Grants(cfg, times), now - cfg.window, now) == cfg.maxCount
  {
    GrantedIff(cfg, times, now);
    GrantsUpTo(cfg, times, now);
    CountIsLive(Grants(cfg, times), now - cfg.window, now);
    WindowBounded(cfg, times, now);
  }
}
