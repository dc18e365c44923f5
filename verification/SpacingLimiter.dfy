/** internal/protect/protect.go: the limiter of upstream requests. A semaphore caps how many run, a
    minimum interval spaces their starts. Requests are concurrent: the protocol is the interleaving
    of their atomic steps. */
module SpacingLimiter {
  import opened Basics

  /** maxConcurrent <= 0 means no semaphore, minWait <= 0 no spacing. */
  datatype Config = Config(maxConcurrent: int, minWait: int)

  predicate Limited(cfg: Config) {
    cfg.maxConcurrent > 0
  }

  // ---- The shared object; each method is one atomic step of a request ----

  /** What the critical section decides: start now, or sleep this long and look again. */
  function Decide(cfg: Config, lastAt: Option<int>, now: int): Option<int> {
    if lastAt.None? || now - lastAt.value >= cfg.minWait then None else Some(cfg.minWait - (now - lastAt.value))
  }

  class Limiter {
    const cfg: Config
    var sem: nat
    var lastAt: Option<int>

    constructor (maxConcurrent: int, minInterval: int)
      ensures cfg == Config(maxConcurrent, minInterval) && sem == 0 && lastAt == None
    {
      cfg := Config(maxConcurrent, minInterval);
      sem, lastAt := 0, None;
    }

    /** Sends to the semaphore channel if it has room. */
    method TrySlot() returns (ok: bool)
      modifies `sem
      ensures ok == (Limited(cfg) ==> old(sem) < cfg.maxConcurrent)
      ensures sem == if ok && Limited(cfg) then old(sem) + 1 else old(sem)
    {
      ok := true;
      if cfg.maxConcurrent > 0 {
        if sem >= cfg.maxConcurrent {
          return false;
        }
        sem := sem + 1;
      }
    }

    /** The critical section: takes the start if the last one is long enough ago. */
    method TryStart(now: int) returns (wait: Option<int>)
      modifies `lastAt
      ensures wait == if cfg.minWait > 0 then Decide(cfg, old(lastAt), now) else None
      ensures lastAt == if cfg.minWait > 0 && wait.None? then Some(now) else old(lastAt)
    {
      if cfg.minWait <= 0 {
        return None;
      }
      if lastAt.None? || now - lastAt.value >= cfg.minWait {
        lastAt := Some(now);
        return None;
      }
      wait := Some(cfg.minWait - (now - lastAt.value));
    }

    /** Receives from the semaphore channel: on release, and on cancellation while waiting. */
    method FreeSlot()
      requires Limited(cfg) ==> sem > 0
      modifies `sem
      ensures sem == if Limited(cfg) then old(sem) - 1 else old(sem)
    {
      if cfg.maxConcurrent > 0 {
        sem := sem - 1;
      }
    }
  }

  // ---- The protocol ----

  /** Where a request stands. */
  datatype Phase =
    | Queued                  // waiting for a slot
    | Holding                 // has a slot, about to enter the critical section
    | Waiting(wakeAt: int)    // has a slot, asleep until the interval has passed
    | Running

  predicate HoldsSlot(ph: Phase) {
    !ph.Queued?
  }

  datatype State = State(
    sem: int,
    lastAt: Option<int>,
    clock: int,
    requests: map<nat, Phase>,
    starts: seq<int>)         // the times of all starts so far

  datatype Step =
    | Arrive(r: nat)
    | TakeSlot(r: nat)
    | GiveUp(r: nat)          // cancelled while queued
    | Begin(r: nat)
    | Delay(r: nat)
    | Wake(r: nat)
    | Cancel(r: nat)          // cancelled while waiting for the interval
    | Release(r: nat)
    | Tick(now: int)

  function Init(t0: int): State {
    State(0, None, t0, map[], [])
  }

  predicate Is(s: State, r: nat, ph: Phase) {
    r in s.requests && s.requests[r] == ph
  }

  predicate Enabled(cfg: Config, s: State, step: Step) {
    match step
    case Arrive(r) => r !in s.requests
    case TakeSlot(r) => Is(s, r, Queued) && (Limited(cfg) ==> s.sem < cfg.maxConcurrent)
    case GiveUp(r) => Is(s, r, Queued) && Limited(cfg)
    case Begin(r) => Is(s, r, Holding) && (cfg.minWait > 0 ==> Decide(cfg, s.lastAt, s.clock).None?)
    case Delay(r) => Is(s, r, Holding) && cfg.minWait > 0 && Decide(cfg, s.lastAt, s.clock).Some?
    case Wake(r) => r in s.requests && s.requests[r].Waiting? && s.clock >= s.requests[r].wakeAt
    case Cancel(r) => r in s.requests && s.requests[r].Waiting?
    case Release(r) => Is(s, r, Running)
    case Tick(now) => now >= s.clock
  }

  function Exit(cfg: Config, s: State, r: nat): State {
    s.(requests := s.requests - {r}, sem := if Limited(cfg) then s.sem - 1 else s.sem)
  }

  function Apply(cfg: Config, s: State, step: Step): State
    requires Enabled(cfg, s, step)
  {
    match step
    case Arrive(r) => s.(requests := s.requests[r := Queued])
    case TakeSlot(r) => s.(requests := s.requests[r := Holding], sem := if Limited(cfg) then s.sem + 1 else s.sem)
    case GiveUp(r) => s.(requests := s.requests - {r})
    case Begin(r) =>
      s.(requests := s.requests[r := Running], starts := s.starts + [s.clock],
         lastAt := if cfg.minWait > 0 then Some(s.clock) else s.lastAt)
    case Delay(r) =>
      s.(requests := s.requests[r := Waiting(s.clock + Decide(cfg, s.lastAt, s.clock).value)])
    case Wake(r) => s.(requests := s.requests[r := Holding])
    case Cancel(r) => Exit(cfg, s, r)
    case Release(r) => Exit(cfg, s, r)
    case Tick(now) => s.(clock := now)
  }

  /** The state after an interleaving, or None if one of its steps was not possible. */
  function After(cfg: Config, t0: int, steps: seq<Step>): Option<State> {
    if steps == [] then Some(Init(t0))
    else
      var s := After(cfg, t0, Front(steps));
      if s.Some? && Enabled(cfg, s.value, Last(steps)) then Some(Apply(cfg, s.value, Last(steps))) else None
  }

  // ---- What every interleaving keeps ----

  function Holders(requests: map<nat, Phase>): set<nat> {
    set r | r in requests && HoldsSlot(requests[r])
  }

  /** Starts are spaced, and the last one is what lastAt records. */
  ghost predicate Spaced(cfg: Config, s: State) {
    && (forall i :: 0 < i < |s.starts| ==> s.starts[i - 1] + cfg.minWait <= s.starts[i])
    && s.lastAt == (if s.starts == [] then None else Some(Last(s.starts)))
    && (s.starts != [] ==> Last(s.starts) <= s.clock)
  }

  /** Nobody sleeps past the moment at which a start becomes possible again. */
  ghost predicate NoOversleep(cfg: Config, s: State) {
    forall r :: r in s.requests && s.requests[r].Waiting? ==>
      s.lastAt.Some? && s.requests[r].wakeAt <= s.lastAt.value + cfg.minWait
  }

  ghost predicate Inv(cfg: Config, s: State) {
    && s.sem == (if Limited(cfg) then |Holders(s.requests)| else 0)
    && (Limited(cfg) ==> s.sem <= cfg.maxConcurrent)
    && (cfg.minWait > 0 ==> Spaced(cfg, s) && NoOversleep(cfg, s))
    && (cfg.minWait <= 0 ==> s.lastAt == None && forall r :: r in s.requests ==> !s.requests[r].Waiting?)
  }

  lemma {:induction false} StepKeepsInv(cfg: Config, s: State, step: Step)
    requires Inv(cfg, s) && Enabled(cfg, s, step)
    ensures Inv(cfg, Apply(cfg, s, step))
  {
    hide Holders, HoldsSlot, Spaced, NoOversleep;
    SlotsMoveOneByOne(cfg, s, step);
    if cfg.minWait > 0 {
      StepKeepsSpacing(cfg, s, step);
    }
  }

  lemma {:induction false} StepKeepsSpacing(cfg: Config, s: State, step: Step)
    requires cfg.minWait > 0 && Spaced(cfg, s) && NoOversleep(cfg, s) && Enabled(cfg, s, step)
    ensures Spaced(cfg, Apply(cfg, s, step)) && NoOversleep(cfg, Apply(cfg, s, step))
  {
  }

  /** In every interleaving the slots taken are exactly the requests past the semaphore (about to start,
      waiting for the interval, or running), and they never exceed the limit. */
  lemma {:induction false} EveryInterleavingKeepsInv(cfg: Config, t0: int, steps: seq<Step>)
    requires After(cfg, t0, steps).Some?
    ensures Inv(cfg, After(cfg, t0, steps).value)
  {
    hide Inv, Enabled, Apply;
    if steps == [] {
      InitInv(cfg, t0);
    } else {
      EveryInterleavingKeepsInv(cfg, t0, Front(steps));
      StepKeepsInv(cfg, After(cfg, t0, Front(steps)).value, Last(steps));
    }
  }

  lemma {:induction false} InitInv(cfg: Config, t0: int)
    ensures Inv(cfg, Init(t0))
  {
    assert Holders(map[]) == {};
  }

  /** Any two starts, k apart in order, are at least k intervals apart in time. */
  lemma {:induction false} StartsApart(cfg: Config, t0: int, steps: seq<Step>, i: nat, j: nat)
    requires After(cfg, t0, steps).Some? && cfg.minWait > 0
    requires i <= j < |After(cfg, t0, steps).value.starts|
    ensures var starts := After(cfg, t0, steps).value.starts; starts[j] - starts[i] >= (j - i) * cfg.minWait
    decreases j - i
  {
    hide After, Holders, NoOversleep;
    var s := After(cfg, t0, steps).value;
    if i < j {
      StartsApart(cfg, t0, steps, i, j - 1);
      EveryInterleavingKeepsInv(cfg, t0, steps);
      assert s.starts[j - 1] + cfg.minWait <= s.starts[j];
      assert (j - i) * cfg.minWait == (j - 1 - i) * cfg.minWait + cfg.minWait;
    }
  }

  predicate Leaves(step: Step) {
    step.Cancel? || step.Release?
  }

  /** Each exit of a request that has a slot frees exactly that one; no other step frees any, and only
      taking a slot takes one. */
  lemma {:induction false} SlotsMoveOneByOne(cfg: Config, s: State, step: Step)
    requires Enabled(cfg, s, step)
    ensures var t := Apply(cfg, s, step); var h, h' := Holders(s.requests), Holders(t.requests);
            && (Leaves(step) ==> step.r in h && h' == h - {step.r} && (Limited(cfg) ==> t.sem == s.sem - 1))
            && (step.TakeSlot? ==> step.r !in h && h' == h + {step.r} && (Limited(cfg) ==> t.sem == s.sem + 1))
            && (!Leaves(step) && !step.TakeSlot? ==> t.sem == s.sem && h' == h)
  {
  }

  /** No slot leaks: once all requests have gone, all slots are free; and while every slot is taken, some
      request that will give one back holds it. */
  lemma {:induction false} NoSlotLeaks(cfg: Config, t0: int, steps: seq<Step>)
    requires After(cfg, t0, steps).Some? && Limited(cfg)
    ensures var s := After(cfg, t0, steps).value;
            && (s.requests == map[] ==> s.sem == 0)
            && (s.sem == cfg.maxConcurrent ==> exists r :: r in s.requests && HoldsSlot(s.requests[r]))
  {
    hide After;
    EveryInterleavingKeepsInv(cfg, t0, steps);
    var s := After(cfg, t0, steps).value;
    if s.sem == cfg.maxConcurrent {
      assert Holders(s.requests) != {};
      var r :| r in Holders(s.requests);
    }
  }

  /** The same state once the clock has reached t. */
  function At(s: State, t: int): State {
    s.(clock := if s.clock >= t then s.clock else t)
  }

  /** Progress: whoever holds a slot without running can always move once enough time has passed. */
  lemma {:induction false} HolderCanMove(cfg: Config, t0: int, steps: seq<Step>, r: nat)
    requires After(cfg, t0, steps).Some?
    requires r in After(cfg, t0, steps).value.requests
    ensures var s := After(cfg, t0, steps).value; var ph := s.requests[r];
            && (ph.Holding? ==> Enabled(cfg, s, Begin(r)) || Enabled(cfg, s, Delay(r)))
            && (ph.Waiting? ==> s.lastAt.Some? && Enabled(cfg, At(s, s.lastAt.value + cfg.minWait), Wake(r)))
  {
    hide After;
    EveryInterleavingKeepsInv(cfg, t0, steps);
  }

  /** A holder may begin exactly when there is no spacing, nothing has started yet, or the last start is at
      least one interval ago; else it sleeps until exactly one interval after the last start. */
  lemma {:induction false} BeginsIff(cfg: Config, t0: int, steps: seq<Step>, r: nat)
    requires After(cfg, t0, steps).Some? && Is(After(cfg, t0, steps).value, r, Holding)
    ensures var s := After(cfg, t0, steps).value;
            && (Enabled(cfg, s, Begin(r)) <==>
                  cfg.minWait <= 0 || s.starts == [] || s.clock - Last(s.starts) >= cfg.minWait)
            && (Enabled(cfg, s, Delay(r)) <==> !Enabled(cfg, s, Begin(r)))
            && (Enabled(cfg, s, Delay(r)) ==>
                  s.starts != [] && Is(Apply(cfg, s, Delay(r)), r, Waiting(Last(s.starts) + cfg.minWait)))
  {
    hide After;
    EveryInterleavingKeepsInv(cfg, t0, steps);
  }

  /** The object's methods are the protocol's steps on the shared part of the state. */
  method Simulate(cfg: Config, s: State, step: Step) returns (sem: int, lastAt: Option<int>)
    requires Inv(cfg, s) && Enabled(cfg, s, step)
    ensures var t := Apply(cfg, s, step); sem == t.sem && lastAt == t.lastAt
  {
    var l := new Limiter(cfg.maxConcurrent, cfg.minWait);
    l.sem, l.lastAt := s.sem, s.lastAt;
    match step {
      case TakeSlot(_) => var ok := l.TrySlot();
      case Begin(_) => var wait := l.TryStart(s.clock);
      case Delay(_) => var wait := l.TryStart(s.clock);
      case Cancel(r) =>
        assert r in Holders(s.requests);
        l.FreeSlot();
      case Release(r) =>
        assert r in Holders(s.requests);
        l.FreeSlot();
      case _ =>
    }
    sem, lastAt := l.sem, l.lastAt;
  }

  /** A queued request gets a slot from the object exactly when the protocol lets it take one, and a
      refusal leaves the object as it was. */
  method AskSlot(cfg: Config, s: State, r: nat) returns (ok: bool, sem: int)
    requires Inv(cfg, s) && Is(s, r, Queued)
    ensures ok <==> Enabled(cfg, s, TakeSlot(r))
    ensures sem == if ok then Apply(cfg, s, TakeSlot(r)).sem else s.sem
  {
    var l := new Limiter(cfg.maxConcurrent, cfg.minWait);
    l.sem := s.sem;
    ok := l.TrySlot();
    sem := l.sem;
  }

  /** A request with a slot is told to start exactly when the protocol lets it begin; else, and exactly
      when the protocol delays it, it is told to sleep for as long as the protocol says. */
  method AskStart(cfg: Config, s: State, r: nat) returns (wait: Option<int>, lastAt: Option<int>)
    requires Inv(cfg, s) && Is(s, r, Holding)
    ensures wait.None? <==> Enabled(cfg, s, Begin(r))
    ensures wait.Some? <==> Enabled(cfg, s, Delay(r))
    ensures wait.None? ==> lastAt == Apply(cfg, s, Begin(r)).lastAt
    ensures wait.Some? ==>
              var t := Apply(cfg, s, Delay(r)); lastAt == t.lastAt && Is(t, r, Waiting(s.clock + wait.value))
  {
    var l := new Limiter(cfg.maxConcurrent, cfg.minWait);
    l.lastAt := s.lastAt;
    wait := l.TryStart(s.clock);
    lastAt := l.lastAt;
  }
}
