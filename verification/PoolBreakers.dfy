/** The breakers of internal/auth/pool.go over whole runs of the pool: what an account's breaker has been
    told, and that nothing else decides whether the account is refused. */
module PoolBreakers {
  import opened Basics
  import opened Pool
  import B = CircuitBreaker

  // ---- What a breaker is told ----

  /** By one try of its account: the question, and the failure if the credential was no good. */
  function TryOps(opts: Options, acc: Account, a: Attempt): seq<B.Op> {
    [B.Allow(a.allowAt)] + if Try(opts, acc, a).1.Failed? then [B.Failure(a.failAt)] else []
  }

  /** By the round-robin pass from its i-th try on. */
  function PassOps(opts: Options, p: Pool, w: World, i: nat, j: nat): seq<B.Op>
    requires p.accounts != []
    decreases |p.accounts| - i
  {
    var n := |p.accounts|;
    if i >= n then []
    else
      var idx := (p.index + i) % n;
      var (acc, o) := Try(opts, p.accounts[idx], w.pool(idx));
      (if idx == j then TryOps(opts, p.accounts[idx], w.pool(idx)) else [])
      + if o.Granted? then [] else PassOps(opts, p.(accounts := p.accounts[idx := acc]), w, i + 1, j)
  }

  /** By a whole call: the preferred try, and the pass unless that try was granted. */
  function CallOps(opts: Options, p: Pool, w: World, j: nat): seq<B.Op>
    requires First(p).Some? ==> First(p).value < |p.accounts|
  {
    if p.accounts == [] then []
    else if First(p).None? then PassOps(opts, p, w, 0, j)
    else
      var f := First(p).value;
      (if f == j then TryOps(opts, p.accounts[f], w.preferred) else [])
      + if Try(opts, p.accounts[f], w.preferred).1.Granted? then [] else PassOps(opts, AfterFirst(opts, p, w), w, 0, j)
  }

  lemma {:induction false} FirstInRange(p: Pool)
    ensures First(p).Some? ==> First(p).value < |p.accounts|
  {
    PreferredIs(p.accounts, p.active, 0);
  }

  function OpsOf(opts: Options, p: Pool, op: Op, j: nat): seq<B.Op> {
    match op
    case Get(w) => FirstInRange(p); CallOps(opts, p, w, j)
    case Fail(key, now) => if Target(p.accounts, key) == Some(j) then [B.Failure(now)] else []
    case Succeed(key) => if Target(p.accounts, key) == Some(j) then [B.Success] else []
    case _ => []
  }

  /** By a run of the pool. */
  function History(opts: Options, p: Pool, ops: seq<Op>, j: nat): seq<B.Op> {
    if ops == [] then [] else History(opts, p, Front(ops), j) + OpsOf(opts, After(opts, p, Front(ops)), Last(ops), j)
  }

  // ---- The breaker is what it has been told ----

  /** The breaker after the operations h is the breaker of an account's history. */
  predicate Told(opts: Options, acc: Account, h: seq<B.Op>) {
    acc.breaker == B.Run(opts.breaker, h)
  }

  lemma {:induction false} ToldOne(opts: Options, b: B.Breaker, h: seq<B.Op>, op: B.Op)
    requires b == B.Run(opts.breaker, h)
    ensures B.Step(opts.breaker, b, op) == B.Run(opts.breaker, h + [op])
  {
    SnocParts(h, op);
  }

  lemma {:induction false} TryTold(opts: Options, acc: Account, a: Attempt, h: seq<B.Op>)
    requires Told(opts, acc, h)
    ensures Told(opts, Try(opts, acc, a).0, h + TryOps(opts, acc, a))
  {
    hide B.Run, B.Step;
    ToldOne(opts, acc.breaker, h, B.Allow(a.allowAt));
    TrySteps(opts, acc, a);
    ToldOne(opts, B.Step(opts.breaker, acc.breaker, B.Allow(a.allowAt)), h + [B.Allow(a.allowAt)], B.Failure(a.failAt));
    assert h + [B.Allow(a.allowAt)] + [B.Failure(a.failAt)] == h + ([B.Allow(a.allowAt)] + [B.Failure(a.failAt)]);
    assert [B.Allow(a.allowAt)] + [] == [B.Allow(a.allowAt)];
  }

  lemma {:induction false} TrySteps(opts: Options, acc: Account, a: Attempt)
    ensures var (acc', o) := Try(opts, acc, a); var asked := B.Step(opts.breaker, acc.breaker, B.Allow(a.allowAt));
            acc'.breaker == if o.Failed? then B.Step(opts.breaker, asked, B.Failure(a.failAt)) else asked
  {
    hide B.Step, B.Allows;
  }

  lemma {:induction false} PassTold(opts: Options, p: Pool, w: World, i: nat, saw: bool, j: nat, h: seq<B.Op>)
    requires p.accounts != [] && j < |p.accounts| && Told(opts, p.accounts[j], h)
    ensures var q := Scan(opts, p, w, i, saw).0;
            j < |q.accounts| && Told(opts, q.accounts[j], h + PassOps(opts, p, w, i, j))
    decreases |p.accounts| - i
  {
    hide Try, TryOps, Told;
    var n := |p.accounts|;
    if i >= n {
      assert h + [] == h;
    } else {
      var idx := (p.index + i) % n;
      var (acc, o) := Try(opts, p.accounts[idx], w.pool(idx));
      var told := if idx == j then TryOps(opts, p.accounts[idx], w.pool(idx)) else [];
      if idx == j {
        TryTold(opts, p.accounts[idx], w.pool(idx), h);
      } else {
        assert h + told == h;
      }
      var p' := p.(accounts := p.accounts[idx := acc]);
      if o.Granted? {
        assert told + [] == told;
      } else {
        PassTold(opts, p', w, i + 1, saw || o.Failed?, j, h + told);
        Assoc(h, told, PassOps(opts, p', w, i + 1, j));
      }
    }
  }

  lemma {:induction false} CallTold(opts: Options, p: Pool, w: World, j: nat, h: seq<B.Op>)
    requires j < |p.accounts| && Told(opts, p.accounts[j], h)
    ensures var q := GetToken(opts, p, w).0;
            j < |q.accounts| && Told(opts, q.accounts[j], h + OpsOf(opts, p, Get(w), j))
  {
    hide Try, Scan, TryOps, PassOps, Told;
    FirstInRange(p);
    if First(p).None? {
      PassTold(opts, p, w, 0, false, j, h);
    } else {
      var f := First(p).value;
      var told := if f == j then TryOps(opts, p.accounts[f], w.preferred) else [];
      if f == j {
        TryTold(opts, p.accounts[f], w.preferred, h);
      } else {
        assert h + told == h;
      }
      if Try(opts, p.accounts[f], w.preferred).1.Granted? {
        assert told + [] == told;
      } else {
        PassTold(opts, AfterFirst(opts, p, w), w, 0, false, j, h + told);
        Assoc(h, told, PassOps(opts, AfterFirst(opts, p, w), w, 0, j));
      }
    }
  }

  lemma {:induction false} StepTold(opts: Options, p: Pool, op: Op, j: nat, h: seq<B.Op>)
    requires j < |p.accounts| && Told(opts, p.accounts[j], h)
    ensures j < |Apply(opts, p, op).accounts| && Told(opts, Apply(opts, p, op).accounts[j], h + OpsOf(opts, p, op, j))
  {
    hide GetToken, Target, CallOps, B.Run, B.Step;
    assert h + [] == h;
    match op
    case Get(w) => CallTold(opts, p, w, j, h);
    case Fail(key, now) => ToldOne(opts, p.accounts[j].breaker, h, B.Failure(now));
    case Succeed(key) => ToldOne(opts, p.accounts[j].breaker, h, B.Success);
    case _ =>
  }

  /** After any run of the pool every breaker is as if it had been asked and told alone: by the tries of
      its own account, and by the reports that reached it. */
  lemma {:induction false} RunDecomposes(opts: Options, p: Pool, ops: seq<Op>, j: nat, h: seq<B.Op>)
    requires j < |p.accounts| && Told(opts, p.accounts[j], h)
    ensures var q := After(opts, p, ops);
            j < |q.accounts| && Told(opts, q.accounts[j], h + History(opts, p, ops, j))
  {
    hide Apply, OpsOf, Told;
    if ops == [] {
      assert h + [] == h;
    } else {
      var before := Front(ops);
      RunDecomposes(opts, p, before, j, h);
      StepTold(opts, After(opts, p, before), Last(ops), j, h + History(opts, p, before, j));
      Assoc(h, History(opts, p, before, j), OpsOf(opts, After(opts, p, before), Last(ops), j));
    }
  }

  /** In a run of the pool a try of an account is refused exactly when its history has tripped the breaker,
      no probe has been let through since the last failure, and that failure is no older than the timeout. */
  lemma {:induction false} RefusedInRunIff(opts: Options, p: Pool, ops: seq<Op>, j: nat, a: Attempt)
    requires opts.breaker.threshold >= 1 && opts.breaker.halfOpenMaxCalls >= 1
    requires j < |p.accounts| && p.accounts[j].breaker == B.FRESH
    ensures var q, h, cfg := After(opts, p, ops), History(opts, p, ops, j), opts.breaker;
            && j < |q.accounts|
            && (Try(opts, q.accounts[j], a).1.Refused?
                <==> B.FailuresSinceReset(cfg, h) >= cfg.threshold && !B.Probed(cfg, h)
                     && a.allowAt - B.LastFailureAt(h) <= cfg.timeout)
  {
    hide Try, History, After, B.FailuresSinceReset, B.Probed, B.LastFailureAt, B.Allows, B.Step;
    var h := History(opts, p, ops, j);
    RunDecomposes(opts, p, ops, j, []);
    assert [] + h == h;
    TryKeeps(opts, After(opts, p, ops).accounts[j], a);
    B.RefusedIff(opts.breaker, h, a.allowAt);
  }
}
