/** internal/queue/limiter.go: the circuit breaker. */
module CircuitBreaker {
  import opened Basics

  datatype State = Closed | Open | HalfOpen

  datatype Config = Config(threshold: int, timeout: int, halfOpenMaxCalls: int)

  datatype Breaker = Breaker(state: State, failures: int, successes: int, lastFailure: int)

  const FRESH := Breaker(Closed, 0, 0, 0)

  /** Calls on a breaker; times are nanoseconds. */
  datatype Op = Allow(now: int) | Success | Failure(now: int)

  predicate Allows(cfg: Config, b: Breaker, now: int) {
    match b.state
    case Closed => true
    case Open => now - b.lastFailure > cfg.timeout
    case HalfOpen => b.successes < cfg.halfOpenMaxCalls
  }

  function Step(cfg: Config, b: Breaker, op: Op): Breaker {
    match op
    case Allow(now) =>
      if b.state.Open? && now - b.lastFailure > cfg.timeout then b.(state := HalfOpen, successes := 0) else b
    case Success =>
      if b.state.HalfOpen? then
        if b.successes + 1 >= cfg.halfOpenMaxCalls
        then b.(state := Closed, failures := 0, successes := b.successes + 1)
        else b.(successes := b.successes + 1)
      else if b.state.Closed? then b.(failures := 0)
      else b
    case Failure(now) =>
      b.(failures := b.failures + 1, lastFailure := now,
         state := if b.state.HalfOpen? || (b.state.Closed? && b.failures + 1 >= cfg.threshold) then Open else b.state)
  }

  /** A refused call changes nothing. */
  lemma {:induction false} RefusedUnchanged(cfg: Config, b: Breaker, now: int)
    requires !Allows(cfg, b, now)
    ensures Step(cfg, b, Allow(now)) == b
  {
  }

  class CircuitBreaker {
    const cfg: Config
    var state: State
    var failureCount: int
    var successCount: int
    var lastFailureTime: int

    function Abs(): Breaker
      reads this
    {
      Breaker(state, failureCount, successCount, lastFailureTime)
    }

    constructor (cfg: Config)
      ensures this.cfg == cfg && Abs() == FRESH
    {
      this.cfg := cfg;
      state, failureCount, successCount, lastFailureTime := Closed, 0, 0, 0;
    }

    method TryAllow(now: int) returns (ok: bool)
      modifies this
      ensures ok == Allows(cfg, old(Abs()), now)
      ensures Abs() == Step(cfg, old(Abs()), Allow(now))
    {
      match state {
        case Closed => ok := true;
        case Open =>
          if now - lastFailureTime > cfg.timeout {
            state, successCount := HalfOpen, 0;
            return true;
          }
          ok := false;
        case HalfOpen => ok := successCount < cfg.halfOpenMaxCalls;
      }
    }

    method RecordSuccess()
      modifies this
      ensures Abs() == Step(cfg, old(Abs()), Success)
    {
      if state == HalfOpen {
        successCount := successCount + 1;
        if successCount >= cfg.halfOpenMaxCalls {
          state, failureCount := Closed, 0;
        }
      } else if state == Closed {
        failureCount := 0;
      }
    }

    method RecordFailure(now: int)
      modifies this
      ensures Abs() == Step(cfg, old(Abs()), Failure(now))
    {
      failureCount := failureCount + 1;
      lastFailureTime := now;
      if state == HalfOpen {
        state := Open;
      } else if state == Closed && failureCount >= cfg.threshold {
        state := Open;
      }
    }
  }

  // ---- Whole runs of a breaker ----

  function Run(cfg: Config, ops: seq<Op>): Breaker {
    if ops == [] then FRESH else Step(cfg, Run(cfg, Front(ops)), Last(ops))
  }

  // ---- The same run described by its history alone, without any state field ----

  function LastFailureAt(ops: seq<Op>): int {
    if ops == [] then 0 else if Last(ops).Failure? then Last(ops).now else LastFailureAt(Front(ops))
  }

  /** Since the last failure a call came after the timeout had passed. */
  predicate Probed(cfg: Config, ops: seq<Op>) {
    ops != [] && match Last(ops)
                 case Failure(_) => false
                 case Allow(now) => Probed(cfg, Front(ops)) || now - LastFailureAt(Front(ops)) > cfg.timeout
                 case Success => Probed(cfg, Front(ops))
  }

  /** Successes since that call. */
  function SuccessesSinceProbe(cfg: Config, ops: seq<Op>): nat {
    if ops == [] || !Probed(cfg, ops) || !Probed(cfg, Front(ops)) then 0
    else SuccessesSinceProbe(cfg, Front(ops)) + if Last(ops).Success? then 1 else 0
  }

  /** A success wipes the failures if too few had come to trip the breaker, or if it completes the
      required number of successes after the probe. */
  predicate Resets(cfg: Config, ops: seq<Op>)
    decreases |ops|, 0
  {
    && ops != [] && Last(ops).Success?
    && (FailuresSinceReset(cfg, Front(ops)) < cfg.threshold
        || (Probed(cfg, Front(ops)) && SuccessesSinceProbe(cfg, ops) >= cfg.halfOpenMaxCalls))
  }

  function FailuresSinceReset(cfg: Config, ops: seq<Op>): nat
    decreases |ops|, 1
  {
    if ops == [] || Resets(cfg, ops) then 0
    else FailuresSinceReset(cfg, Front(ops)) + if Last(ops).Failure? then 1 else 0
  }

  /** The state is a function of the history: closed iff fewer than threshold failures came since the
      last reset; otherwise half-open iff a probe came after the last failure. */
  lemma {:induction false} StateFromHistory(cfg: Config, ops: seq<Op>)
    requires cfg.threshold >= 1 && cfg.halfOpenMaxCalls >= 1
    ensures var b := Run(cfg, ops);
            && b.failures == FailuresSinceReset(cfg, ops) && b.lastFailure == LastFailureAt(ops)
            && (b.state.Closed? <==> FailuresSinceReset(cfg, ops) < cfg.threshold)
            && (b.state.HalfOpen? <==> FailuresSinceReset(cfg, ops) >= cfg.threshold && Probed(cfg, ops))
            && (b.state.HalfOpen? ==> b.successes == SuccessesSinceProbe(cfg, ops) < cfg.halfOpenMaxCalls)
  {
    if ops != [] {
      StateFromHistory(cfg, Front(ops));
    }
  }

  /** A call is refused exactly when the breaker has tripped, no probe has been let through since the
      last failure, and that failure is no older than the timeout. */
  lemma {:induction false} RefusedIff(cfg: Config, ops: seq<Op>, now: int)
    requires cfg.threshold >= 1 && cfg.halfOpenMaxCalls >= 1
    ensures !Allows(cfg, Run(cfg, ops), now)
            <==> FailuresSinceReset(cfg, ops) >= cfg.threshold && !Probed(cfg, ops)
                 && now - LastFailureAt(ops) <= cfg.timeout
  {
    StateFromHistory(cfg, ops);
  }

  function Successes(ops: seq<Op>): nat {
    if ops == [] then 0 else Successes(Front(ops)) + if Last(ops).Success? then 1 else 0
  }

  predicate NoFailure(ops: seq<Op>) {
    forall k :: 0 <= k < |ops| ==> !ops[k].Failure?
  }

  /** A half-open breaker got there by one call after the timeout; no failure has come since, and the
      successes counted are all the successes since. */
  lemma {:induction false} HalfOpenSince(cfg: Config, ops: seq<Op>) returns (p: nat)
    requires Run(cfg, ops).state.HalfOpen?
    ensures p < |ops| && ops[p].Allow? && Run(cfg, ops[..p]).state.Open?
    ensures ops[p].now - Run(cfg, ops[..p]).lastFailure > cfg.timeout
    ensures NoFailure(ops[p + 1..]) && Run(cfg, ops).successes == Successes(ops[p + 1..])
  {
    hide Run, Step, Successes, NoFailure;
    HalfOpenStep(cfg, ops);
    var before := Front(ops);
    if Run(cfg, before).state.HalfOpen? {
      p := HalfOpenSince(cfg, before);
      assert before[..p] == ops[..p];
      assert ops[p + 1..] == before[p + 1..] + [Last(ops)];
      SinceSnoc(before[p + 1..], Last(ops));
    } else {
      p := |ops| - 1;
      assert ops[..p] == before && ops[p + 1..] == [];
      SinceNothing();
    }
  }

  lemma {:induction false} HalfOpenStep(cfg: Config, ops: seq<Op>)
    requires Run(cfg, ops).state.HalfOpen?
    ensures ops != []
    ensures var b, op := Run(cfg, Front(ops)), Last(ops);
            if b.state.HalfOpen? then
              !op.Failure? && Run(cfg, ops).successes == b.successes + if op.Success? then 1 else 0
            else
              op.Allow? && b.state.Open? && op.now - b.lastFailure > cfg.timeout && Run(cfg, ops).successes == 0
  {
  }

  lemma {:induction false} SinceSnoc(since: seq<Op>, op: Op)
    ensures Successes(since + [op]) == Successes(since) + if op.Success? then 1 else 0
    ensures NoFailure(since) && !op.Failure? ==> NoFailure(since + [op])
  {
    SnocParts(since, op);
  }

  lemma {:induction false} SinceNothing()
    ensures Successes([]) == 0 && NoFailure([])
  {
  }

  /** A tripped breaker closes only by a success that ends an unbroken streak: after the probe there is
      no failure at all, and exactly halfOpenMaxCalls successes. */
  lemma {:induction false} ReclosesOnlyAfterStreak(cfg: Config, ops: seq<Op>) returns (p: nat)
    requires cfg.halfOpenMaxCalls >= 1
    requires ops != [] && !Run(cfg, Front(ops)).state.Closed? && Run(cfg, ops).state.Closed?
    ensures p < |ops| - 1 && ops[p].Allow? && Run(cfg, ops[..p]).state.Open?
    ensures ops[p].now - Run(cfg, ops[..p]).lastFailure > cfg.timeout
    ensures NoFailure(ops[p + 1..]) && Successes(ops[p + 1..]) == cfg.halfOpenMaxCalls
  {
    hide Run, Step, Successes, NoFailure;
    var before := Front(ops);
    ClosingStep(cfg, ops);
    p := HalfOpenSince(cfg, before);
    HalfOpenCount(cfg, before);
    assert before[..p] == ops[..p];
    assert ops[p + 1..] == before[p + 1..] + [Last(ops)];
    SinceSnoc(before[p + 1..], Last(ops));
  }

  lemma {:induction false} ClosingStep(cfg: Config, ops: seq<Op>)
    requires ops != [] && !Run(cfg, Front(ops)).state.Closed? && Run(cfg, ops).state.Closed?
    ensures var b := Run(cfg, Front(ops));
            Last(ops).Success? && b.state.HalfOpen? && b.successes + 1 >= cfg.halfOpenMaxCalls
  {
  }

  /** In half-open the count stays below the limit, or the limit is not positive and the count is 0. */
  lemma {:induction false} HalfOpenCount(cfg: Config, ops: seq<Op>)
    ensures var b := Run(cfg, ops);
            b.state.HalfOpen? ==> 0 <= b.successes && (b.successes < cfg.halfOpenMaxCalls || b.successes == 0)
  {
    if ops != [] {
      HalfOpenCount(cfg, Front(ops));
    }
  }

  /** Half-open never caps calls: it refuses one only under a configuration whose limit is not positive,
      and then it refuses all. */
  lemma {:induction false} HalfOpenRefusesIff(cfg: Config, ops: seq<Op>, now: int)
    requires Run(cfg, ops).state.HalfOpen?
    ensures !Allows(cfg, Run(cfg, ops), now) <==> cfg.halfOpenMaxCalls <= 0
  {
    HalfOpenCount(cfg, ops);
  }

  function Calls(ops: seq<Op>): nat {
    if ops == [] then 0 else Calls(Front(ops)) + if Last(ops).Allow? then 1 else 0
  }

  /** The calls let through from the p-th operation on. */
  function LetThrough(cfg: Config, ops: seq<Op>, p: nat): nat
    decreases |ops|
  {
    if |ops| <= p then 0
    else
      LetThrough(cfg, Front(ops), p)
      + if Last(ops).Allow? && Allows(cfg, Run(cfg, Front(ops)), Last(ops).now) then 1 else 0
  }

  /** As a cap on the calls let through in half-open state, probe included, the limit is kept exactly as
      long as no more calls come than it allows: the breaker lets every one of them through. */
  lemma {:induction false} HalfOpenCapIff(cfg: Config, ops: seq<Op>) returns (p: nat)
    requires cfg.halfOpenMaxCalls >= 1 && Run(cfg, ops).state.HalfOpen?
    ensures p < |ops| && ops[p].Allow? && Run(cfg, ops[..p]).state.Open?
    ensures ops[p].now - Run(cfg, ops[..p]).lastFailure > cfg.timeout && NoFailure(ops[p + 1..])
    ensures LetThrough(cfg, ops, p) == Calls(ops[p..])
    ensures LetThrough(cfg, ops, p) <= cfg.halfOpenMaxCalls <==> Calls(ops[p..]) <= cfg.halfOpenMaxCalls
  {
    hide Run, Step, Calls, LetThrough, NoFailure, Successes, Allows;
    HalfOpenStep(cfg, ops);
    var before := Front(ops);
    if Run(cfg, before).state.HalfOpen? {
      p := HalfOpenCapIff(cfg, before);
      assert before[..p] == ops[..p];
      assert ops[p..] == before[p..] + [Last(ops)] && ops[p + 1..] == before[p + 1..] + [Last(ops)];
      SinceSnoc(before[p + 1..], Last(ops));
      CallsSnoc(before[p..], Last(ops));
      HalfOpenRefusesIff(cfg, before, if Last(ops).Allow? then Last(ops).now else 0);
    } else {
      p := |ops| - 1;
      assert ops[..p] == before && ops[p + 1..] == [] && ops[p..] == [] + [Last(ops)];
      SinceNothing();
      CallsSnoc([], Last(ops));
      ProbeAllowed(cfg, Run(cfg, before), Last(ops).now);
    }
    LetThroughStep(cfg, ops, p);
  }

  lemma {:induction false} CallsSnoc(ops: seq<Op>, op: Op)
    ensures Calls([]) == 0 && Calls(ops + [op]) == Calls(ops) + if op.Allow? then 1 else 0
  {
    SnocParts(ops, op);
  }

  lemma {:induction false} ProbeAllowed(cfg: Config, b: Breaker, now: int)
    requires b.state.Open? && now - b.lastFailure > cfg.timeout
    ensures Allows(cfg, b, now)
  {
  }

  lemma {:induction false} LetThroughStep(cfg: Config, ops: seq<Op>, p: nat)
    requires p < |ops|
    ensures LetThrough(cfg, ops[..p], p) == 0
    ensures LetThrough(cfg, ops, p)
            == LetThrough(cfg, Front(ops), p)
               + if Last(ops).Allow? && Allows(cfg, Run(cfg, Front(ops)), Last(ops).now) then 1 else 0
  {
    hide Run, Allows;
  }

  /** Such a run: with a limit of one call, two are let through in half-open state. */
  lemma {:induction false} HalfOpenLetsTwoThrough(timeout: int)
    ensures var cfg := Config(1, timeout, 1); var probed := [Failure(0), Allow(timeout + 1)];
            && Run(cfg, [Failure(0)]).state.Open? && Allows(cfg, Run(cfg, [Failure(0)]), timeout + 1)
            && Run(cfg, probed).state.HalfOpen? && Allows(cfg, Run(cfg, probed), timeout + 1)
            && Run(cfg, probed + [Allow(timeout + 1)]).state.HalfOpen?
  {
    var probed := [Failure(0), Allow(timeout + 1)];
    SnocParts([], Failure(0));
    SnocParts([Failure(0)], Allow(timeout + 1));
    SnocParts(probed, Allow(timeout + 1));
    assert [] + [Failure(0)] == [Failure(0)] && [Failure(0)] + [Allow(timeout + 1)] == probed;
  }
}
