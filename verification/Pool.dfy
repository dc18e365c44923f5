/** internal/auth/pool.go: accounts with refreshing credentials, a circuit breaker each, an optional
    preferred account and round-robin over the rest. This module is the specification; CredentialPool
    holds the classes that refine it. */
module Pool {
  import opened Basics
  import B = CircuitBreaker

  // ---- Tokens; a missing time is Go's zero time ----

  datatype Token = Token(access: string, refresh: string, expiresAt: Option<int>, refreshExpiresAt: Option<int>)

  predicate IsExpired(t: Token, now: int) {
    t.expiresAt.Some? && now >= t.expiresAt.value
  }

  predicate NeedsRefresh(t: Token, early: int, now: int) {
    t.expiresAt.Some? && now + early > t.expiresAt.value
  }

  predicate CanRefresh(t: Token, now: int) {
    t.refresh != "" && t.refreshExpiresAt.Some? && now < t.refreshExpiresAt.value
  }

  // ---- Accounts ----

  datatype Account = Account(
    id: string,
    name: string,
    reloadable: bool,          // a storage file or an environment variable, not a fixed token
    token: Option<Token>,
    stale: bool,
    breaker: B.Breaker)

  datatype Options = Options(refreshEarly: int, hasRefresher: bool, breaker: B.Config)

  /** What the outside world does while one account is tried: the clock at each reading, and what the
      refresh endpoint and the credential source would answer. */
  datatype Attempt = Attempt(
    allowAt: int, checkAt: int, refreshAt: int, reloadAt: int, fallbackAt: int, failAt: int,
    firstLoad: Option<Token>,
    refreshed: Option<Token>,
    reloaded: Option<Token>)

  /** How a usable token was come by. */
  datatype How = Kept | Refreshed | Reloaded | FellBack | Unusable

  function Load(acc: Account, answer: Option<Token>): Option<Token> {
    if acc.reloadable then answer else None
  }

  /** API refresh, then source reload, then the old token while it lasts. */
  function EnsureFresh(opts: Options, acc0: Account, a: Attempt): (Account, How) {
    if acc0.token.None? && Load(acc0, a.firstLoad).None? then (acc0, Unusable)
    else
      var acc := if acc0.token.None? then acc0.(token := Load(acc0, a.firstLoad)) else acc0;
      var tok := acc.token.value;
      var reload := Load(acc, a.reloaded);
      if !acc.stale && tok.access != "" && !NeedsRefresh(tok, opts.refreshEarly, a.checkAt) then (acc, Kept)
      else if opts.hasRefresher && CanRefresh(tok, a.refreshAt)
              && a.refreshed.Some? && a.refreshed.value.access != "" then
        (acc.(token := a.refreshed, stale := false), Refreshed)
      else if reload.Some? && reload.value.access != "" && !IsExpired(reload.value, a.reloadAt) then
        (acc.(token := reload, stale := false), Reloaded)
      else if !acc.stale && !IsExpired(tok, a.fallbackAt) && tok.access != "" then (acc, FellBack)
      else (acc, Unusable)
  }

  datatype Outcome = Refused | Failed | Granted(token: string, how: How)

  /** One try of one account: the breaker first, then its credential. */
  function Try(opts: Options, acc: Account, a: Attempt): (Account, Outcome) {
    var allowed := acc.(breaker := B.Step(opts.breaker, acc.breaker, B.Allow(a.allowAt)));
    if !B.Allows(opts.breaker, acc.breaker, a.allowAt) then (allowed, Refused)
    else
      var (acc', how) := EnsureFresh(opts, allowed, a);
      if how.Unusable? || acc'.token.None? then
        (acc'.(breaker := B.Step(opts.breaker, acc'.breaker, B.Failure(a.failAt))), Failed)
      else (acc'.(stale := false), Granted(acc'.token.value.access, how))
  }

  // ---- What makes an account usable, said without running a try ----

  /** The credential a try starts from: the one held, else the first load from the source. */
  function Current(acc: Account, a: Attempt): Option<Token> {
    if acc.token.Some? then acc.token else Load(acc, a.firstLoad)
  }

  /** The new credential the world offers: the refresh endpoint's if a refresh is possible and answers
      with one, else the source's if that is not expired. */
  function Supply(opts: Options, acc: Account, a: Attempt): Option<Token> {
    if Current(acc, a).None? then None
    else if opts.hasRefresher && MayRefresh(Current(acc, a).value, a.refreshAt) && Filled(a.refreshed) then a.refreshed
    else if acc.reloadable && Filled(a.reloaded) && Lasts(a.reloaded.value, a.reloadAt) then a.reloaded
    else None
  }

  /** Not yet in the window before its expiry in which a token is to be refreshed. */
  predicate InTime(opts: Options, t: Token, now: int) {
    t.expiresAt.None? || now + opts.refreshEarly <= t.expiresAt.value
  }

  /** There is a refresh token, and it has a time at which it expires that has not come. */
  predicate MayRefresh(t: Token, now: int) {
    t.refresh != "" && t.refreshExpiresAt.Some? && now < t.refreshExpiresAt.value
  }

  /** The token has no expiry, or one that has not come. */
  predicate Lasts(t: Token, now: int) {
    t.expiresAt.None? || now < t.expiresAt.value
  }

  predicate Filled(t: Option<Token>) {
    t.Some? && t.value.access != ""
  }

  /** The credential held is still trusted: not reported, and well before its expiry or not yet expired. */
  predicate Trusted(opts: Options, acc: Account, a: Attempt) {
    && !acc.stale && Filled(Current(acc, a))
    && (InTime(opts, Current(acc, a).value, a.checkAt) || Lasts(Current(acc, a).value, a.fallbackAt))
  }

  /** The breaker allows a try, and there is a trusted credential or a new one. */
  predicate Usable(opts: Options, acc: Account, a: Attempt) {
    B.Allows(opts.breaker, acc.breaker, a.allowAt) && (Trusted(opts, acc, a) || Supply(opts, acc, a).Some?)
  }

  /** A try yields a token exactly for the usable accounts. */
  lemma {:induction false} UsableIff(opts: Options, acc: Account, a: Attempt)
    ensures Usable(opts, acc, a) <==> Try(opts, acc, a).1.Granted?
  {
    hide B.Step, B.Allows;
  }

  // ---- The pool ----

  datatype Pool = Pool(accounts: seq<Account>, index: nat, active: string)

  /** One attempt on the preferred account and one per account of the round-robin pass. */
  datatype World = World(preferred: Attempt, pool: nat -> Attempt)

  datatype Answer =
    | NoAccounts
    | AllUnavailable
    | AllBroken
    | Answer(token: string, key: string, who: nat, how: How)

  function Key(acc: Account): string {
    if acc.id == "" then acc.name else acc.id
  }

  predicate IsPreferred(acc: Account, active: string) {
    acc.id == active || (acc.id == "" && acc.name == active)
  }

  /** The first account from i on that the preferred id names. */
  function Preferred(accounts: seq<Account>, active: string, i: nat): Option<nat>
    decreases |accounts| - i
  {
    if i >= |accounts| then None
    else if IsPreferred(accounts[i], active) then Some(i)
    else Preferred(accounts, active, i + 1)
  }

  function Answered(acc: Account, who: nat, o: Outcome): Answer
    requires o.Granted?
  {
    Answer(o.token, Key(acc), who, o.how)
  }

  /** The round-robin pass from its i-th try on. */
  function Scan(opts: Options, p: Pool, w: World, i: nat, sawFailure: bool): (Pool, Answer)
    requires p.accounts != []
    decreases |p.accounts| - i
  {
    var n := |p.accounts|;
    if i >= n then (p, if sawFailure then AllUnavailable else AllBroken)
    else
      var idx := (p.index + i) % n;
      var (acc, o) := Try(opts, p.accounts[idx], w.pool(idx));
      var q := p.(accounts := p.accounts[idx := acc]);
      if o.Granted? then (q.(index := (idx + 1) % n), Answered(acc, idx, o))
      else Scan(opts, q, w, i + 1, sawFailure || o.Failed?)
  }

  function GetToken(opts: Options, p: Pool, w: World): (Pool, Answer) {
    if p.accounts == [] then (p, NoAccounts)
    else
      var pref := if p.active == "" then None else Preferred(p.accounts, p.active, 0);
      if pref.None? || pref.value >= |p.accounts| then Scan(opts, p, w, 0, false)
      else
        var (acc, o) := Try(opts, p.accounts[pref.value], w.preferred);
        var q := p.(accounts := p.accounts[pref.value := acc]);
        if o.Granted? then (q, Answered(acc, pref.value, o)) else Scan(opts, q, w, 0, false)
  }

  /** Reports name an account by id; by name only if exactly one account has that name. */
  function ById(accounts: seq<Account>, key: string, i: nat): Option<nat>
    decreases |accounts| - i
  {
    if i >= |accounts| then None
    else if accounts[i].id != "" && accounts[i].id == key then Some(i)
    else ById(accounts, key, i + 1)
  }

  function CountNamed(accounts: seq<Account>, key: string): nat {
    if accounts == [] then 0 else CountNamed(Front(accounts), key) + if Last(accounts).name == key then 1 else 0
  }

  function LastNamed(accounts: seq<Account>, key: string): (r: Option<nat>)
    ensures r.Some? ==> r.value < |accounts|
  {
    if accounts == [] then None
    else if Last(accounts).name == key then Some(|accounts| - 1)
    else LastNamed(Front(accounts), key)
  }

  function Target(accounts: seq<Account>, key: string): Option<nat> {
    if ById(accounts, key, 0).Some? then ById(accounts, key, 0)
    else if CountNamed(accounts, key) == 1 then LastNamed(accounts, key)
    else None
  }

  function Charge(opts: Options, acc: Account, now: int): Account {
    acc.(stale := true, breaker := B.Step(opts.breaker, acc.breaker, B.Failure(now)))
  }

  function Credit(opts: Options, acc: Account): Account {
    acc.(breaker := B.Step(opts.breaker, acc.breaker, B.Success))
  }

  function ReportFailure(opts: Options, p: Pool, key: string, now: int): Pool {
    var who := Target(p.accounts, key);
    if who.Some? && who.value < |p.accounts|
    then p.(accounts := p.accounts[who.value := Charge(opts, p.accounts[who.value], now)]) else p
  }

  function ReportSuccess(opts: Options, p: Pool, key: string): Pool {
    var who := Target(p.accounts, key);
    if who.Some? && who.value < |p.accounts|
    then p.(accounts := p.accounts[who.value := Credit(opts, p.accounts[who.value])]) else p
  }

  function AddAccount(p: Pool, acc: Account, isCurrent: bool): Pool {
    p.(accounts := p.accounts + [acc], active := if isCurrent && p.active == "" then acc.id else p.active)
  }

  // ---- One call: what a returned token is worth, and what a failure means ----

  /** The expiry check a token went through, at the clock reading that belongs to how it was come by. */
  predicate Unexpired(t: Token, how: How, a: Attempt) {
    match how
    case Kept => Lasts(t, a.checkAt)
    case Reloaded => Lasts(t, a.reloadAt)
    case FellBack => Lasts(t, a.fallbackAt)
    case Refreshed => true
    case Unusable => false
  }

  /** A granted token is non-empty and the account's own. Unless the refresh endpoint supplied it just
      now, it had not expired when it was checked. A stale account is granted only what the refresh
      endpoint or the source supplies in this try. */
  lemma {:induction false} GrantedIsGood(opts: Options, acc: Account, a: Attempt)
    requires opts.refreshEarly > 0 && Try(opts, acc, a).1.Granted?
    ensures var (acc', o) := Try(opts, acc, a);
            && o.token != "" && acc'.token.Some? && o.token == acc'.token.value.access && !acc'.stale
            && Unexpired(acc'.token.value, o.how, a)
            && (o.how.Refreshed? ==> acc'.token == a.refreshed)
            && (o.how.Reloaded? ==> acc.reloadable && acc'.token == a.reloaded)
            && (o.how.Kept? || o.how.FellBack? ==> !acc.stale && acc'.token == Current(acc, a))
            && (o.how.Refreshed? || o.how.Reloaded? ==> acc'.token == Supply(opts, acc, a))
            && (o.how.Kept? ==> InTime(opts, acc'.token.value, a.checkAt))
            && (o.how.FellBack? ==> Supply(opts, acc, a) == None)
  {
    hide B.Step, B.Allows;
  }

  /** Exactly how a try ends once the breaker allows it: a token well before its expiry is kept; else a
      refresh comes first, then a reload, and only then the old token while it lasts. */
  lemma {:induction false} HowIff(opts: Options, acc: Account, a: Attempt)
    requires B.Allows(opts.breaker, acc.breaker, a.allowAt)
    ensures var o := Try(opts, acc, a).1; var tok := Current(acc, a);
            var kept := !acc.stale && Filled(tok) && InTime(opts, tok.value, a.checkAt);
            var refreshed :=
              tok.Some? && opts.hasRefresher && MayRefresh(tok.value, a.refreshAt) && Filled(a.refreshed);
            var reloaded := tok.Some? && acc.reloadable && Filled(a.reloaded) && Lasts(a.reloaded.value, a.reloadAt);
            var fallback := !acc.stale && Filled(tok) && Lasts(tok.value, a.fallbackAt);
            o == if kept then Granted(tok.value.access, Kept)
                 else if refreshed then Granted(a.refreshed.value.access, Refreshed)
                 else if reloaded then Granted(a.reloaded.value.access, Reloaded)
                 else if fallback then Granted(tok.value.access, FellBack)
                 else Failed
  {
    hide B.Step, B.Allows;
  }

  /** A token inside the early window is replaced before its expiry as soon as a new one is on offer. */
  lemma {:induction false} EarlyWindowRefreshes(opts: Options, acc: Account, a: Attempt)
    requires B.Allows(opts.breaker, acc.breaker, a.allowAt) && acc.token.Some?
    requires !InTime(opts, acc.token.value, a.checkAt) && Supply(opts, acc, a).Some?
    ensures Try(opts, acc, a).1.Granted? && Try(opts, acc, a).1.token == Supply(opts, acc, a).value.access
  {
    hide B.Step, B.Allows;
  }

  /** A stale account is granted exactly when its breaker allows and the world supplies a credential; the
      rejected access string comes back exactly when that supply carries it, for nothing compares the two. */
  lemma {:induction false} RepeatsIff(opts: Options, acc: Account, a: Attempt)
    requires acc.stale && acc.token.Some?
    ensures Usable(opts, acc, a) <==> B.Allows(opts.breaker, acc.breaker, a.allowAt) && Supply(opts, acc, a).Some?
    ensures var o := Try(opts, acc, a).1;
            && (Usable(opts, acc, a) ==> o.Granted? && o.token == Supply(opts, acc, a).value.access)
            && (o.Granted? && o.token == acc.token.value.access
                <==> Usable(opts, acc, a) && Supply(opts, acc, a).value.access == acc.token.value.access)
  {
    hide B.Step, B.Allows;
  }

  /** What a try that is not granted leaves alone: the stale mark, the credential if there was one, and
      who the account is. */
  predicate Keeps(acc: Account, acc': Account) {
    && acc'.id == acc.id && acc'.name == acc.name && acc'.reloadable == acc.reloadable
    && acc'.stale == acc.stale && (acc.token.Some? ==> acc'.token == acc.token)
  }

  /** A try touches nothing but the tried account's token, stale mark and breaker, and, if it is not
      granted, neither the mark nor a credential that was there. */
  lemma {:induction false} TryKeeps(opts: Options, acc: Account, a: Attempt)
    ensures var (acc', o) := Try(opts, acc, a);
            && acc'.id == acc.id && acc'.name == acc.name && acc'.reloadable == acc.reloadable
            && (!o.Granted? ==> Keeps(acc, acc'))
            && (o.Refused? <==> !B.Allows(opts.breaker, acc.breaker, a.allowAt))
            && (o.Refused? ==> acc' == acc)
  {
  }

  /** Position of the d-th account tried by a pass that starts at index. */
  function At(index: nat, d: nat, n: nat): nat
    requires n > 0
  {
    (index + d) % n
  }

  /** Two tries of one pass are of different accounts. */
  lemma {:induction false} DistinctTries(index: nat, d: nat, e: nat, n: nat)
    requires d < e < n
    ensures At(index, d, n) != At(index, e, n)
  {
    if At(index, d, n) == At(index, e, n) {
      var x, y := index + d, index + e;
      assert x == n * (x / n) + x % n && y == n * (y / n) + y % n;
      var k := y / n - x / n;
      assert n * k == e - d by { assert n * (y / n) - n * (x / n) == n * k; }
      NoMultipleBetween(n, k);
    }
  }

  lemma {:induction false} NoMultipleBetween(n: nat, k: int)
    ensures !(0 < n * k < n)
  {
    if k >= 1 {
      assert n * k >= n * 1;
    } else {
      assert n * k <= n * 0;
    }
  }

  ghost predicate NoneUsable(opts: Options, p: Pool, w: World, i: nat)
    requires p.accounts != []
  {
    var n := |p.accounts|;
    forall d: nat :: i <= d < n ==> !Usable(opts, p.accounts[At(p.index, d, n)], w.pool(At(p.index, d, n)))
  }

  /** The pass: it grants the first usable account in cyclic order from index, and the accounts it did
      not reach are as they were. It fails exactly when no account is usable. */
  lemma {:induction false} ScanFinds(opts: Options, p: Pool, w: World, i: nat, saw: bool)
    requires p.accounts != [] && i <= |p.accounts|
    ensures var (q, r) := Scan(opts, p, w, i, saw); var n := |p.accounts|;
            && |q.accounts| == n && q.active == p.active
            && (r.Answer? ==>
                  exists d :: i <= d < n && r.who == At(p.index, d, n)
                    && Usable(opts, p.accounts[r.who], w.pool(r.who))
                    && r.how == Try(opts, p.accounts[r.who], w.pool(r.who)).1.how
                    && (forall e :: i <= e < d ==>
                          !Usable(opts, p.accounts[At(p.index, e, n)], w.pool(At(p.index, e, n))))
                    && q.index == (r.who + 1) % n)
            && (!r.Answer? ==> q.index == p.index && !r.NoAccounts? && NoneUsable(opts, p, w, i))
    decreases |p.accounts| - i
  {
    hide Try, Usable;
    var n := |p.accounts|;
    if i < n {
      var idx := At(p.index, i, n);
      var (acc, o) := Try(opts, p.accounts[idx], w.pool(idx));
      var p' := p.(accounts := p.accounts[idx := acc]);
      UsableIff(opts, p.accounts[idx], w.pool(idx));
      if o.Granted? {
        assert idx == At(p.index, i, n);
      } else {
        ScanFinds(opts, p', w, i + 1, saw || o.Failed?);
        forall e | i + 1 <= e < n ensures p'.accounts[At(p.index, e, n)] == p.accounts[At(p.index, e, n)] {
          DistinctTries(p.index, i, e, n);
        }
      }
    }
  }

  /** One step of the pass. */
  lemma {:induction false} ScanUnfolds(opts: Options, p: Pool, w: World, i: nat, saw: bool)
    requires p.accounts != [] && i <= |p.accounts|
    ensures var n := |p.accounts|;
            Scan(opts, p, w, i, saw)
            == if i == n then (p, if saw then AllUnavailable else AllBroken)
               else
                 var idx := (p.index + i) % n;
                 var (acc, o) := Try(opts, p.accounts[idx], w.pool(idx));
                 var q := p.(accounts := p.accounts[idx := acc]);
                 if o.Granted? then (q.(index := (idx + 1) % n), Answered(acc, idx, o))
                 else Scan(opts, q, w, i + 1, saw || o.Failed?)
    ensures i < |p.accounts| ==>
              Key(Try(opts, p.accounts[(p.index + i) % |p.accounts|], w.pool((p.index + i) % |p.accounts|)).0)
              == Key(p.accounts[(p.index + i) % |p.accounts|])
  {
    if i < |p.accounts| {
      var idx := (p.index + i) % |p.accounts|;
      TryKeeps(opts, p.accounts[idx], w.pool(idx));
    }
  }

  /** The pass reports broken breakers exactly when no account was even allowed a try. */
  lemma {:induction false} ScanError(opts: Options, p: Pool, w: World, i: nat, saw: bool)
    requires p.accounts != [] && i <= |p.accounts|
    ensures var r := Scan(opts, p, w, i, saw).1; var n := |p.accounts|;
            r.AllBroken? <==>
              !saw && forall d: nat :: i <= d < n ==>
                Try(opts, p.accounts[At(p.index, d, n)], w.pool(At(p.index, d, n))).1.Refused?
    decreases |p.accounts| - i
  {
    hide Try;
    var n := |p.accounts|;
    if i < n {
      var idx := At(p.index, i, n);
      var (acc, o) := Try(opts, p.accounts[idx], w.pool(idx));
      var p' := p.(accounts := p.accounts[idx := acc]);
      assert idx == At(p.index, i, n);
      if !o.Granted? {
        ScanError(opts, p', w, i + 1, saw || o.Failed?);
        forall e: nat | i + 1 <= e < n ensures p'.accounts[At(p.index, e, n)] == p.accounts[At(p.index, e, n)] {
          DistinctTries(p.index, i, e, n);
        }
      }
    }
  }

  /** Every account has its place in the pass. */
  lemma {:induction false} EveryAccountTried(index: nat, j: nat, n: nat) returns (d: nat)
    requires j < n
    ensures d < n && At(index, d, n) == j
  {
    var s := index % n;
    d := if j >= s then j - s else j - s + n;
    assert index == n * (index / n) + s;
    var k := if j >= s then index / n else index / n + 1;
    assert index + d == n * k + j by { assert n * (index / n + 1) == n * (index / n) + n; }
    QuotientIs(index + d, n, k, j);
  }

  lemma {:induction false} QuotientIs(x: nat, n: nat, k: nat, j: nat)
    requires x == n * k + j && j < n
    ensures x % n == j
  {
    var e := x / n - k;
    assert x == n * (x / n) + x % n;
    assert n * e == j - x % n by { assert n * (x / n) - n * k == n * e; }
    NoMultipleBetween(n, e);
    NoMultipleBetween(n, -e);
    assert n * -e == -(n * e);
  }

  // ---- Whole calls ----

  /** What the pass does to one account's standing. */
  lemma {:induction false} ScanKeeps(opts: Options, p: Pool, w: World, i: nat, saw: bool, j: nat)
    requires p.accounts != [] && j < |p.accounts|
    ensures var (q, r) := Scan(opts, p, w, i, saw);
            && |q.accounts| == |p.accounts|
            && q.accounts[j].id == p.accounts[j].id && q.accounts[j].name == p.accounts[j].name
            && (!(r.Answer? && r.who == j) ==> Keeps(p.accounts[j], q.accounts[j]))
    decreases |p.accounts| - i
  {
    hide Try;
    var n := |p.accounts|;
    if i < n {
      var idx := (p.index + i) % n;
      var (acc, o) := Try(opts, p.accounts[idx], w.pool(idx));
      TryKeeps(opts, p.accounts[idx], w.pool(idx));
      var p' := p.(accounts := p.accounts[idx := acc]);
      if !o.Granted? {
        ScanKeeps(opts, p', w, i + 1, saw || o.Failed?, j);
      }
    }
  }

  /** The answer of a pass is the outcome of a try of the answering account as it then stood. */
  lemma {:induction false} ScanAnswer(opts: Options, p: Pool, w: World, i: nat, saw: bool) returns (acc: Account)
    requires p.accounts != [] && Scan(opts, p, w, i, saw).1.Answer?
    ensures var (q, r) := Scan(opts, p, w, i, saw);
            && r.who < |p.accounts| == |q.accounts| && Keeps(p.accounts[r.who], acc)
            && Try(opts, acc, w.pool(r.who)) == (q.accounts[r.who], Granted(r.token, r.how))
            && r.key == Key(acc)
    decreases |p.accounts| - i
  {
    hide Try;
    var n := |p.accounts|;
    var idx := (p.index + i) % n;
    var (acc', o) := Try(opts, p.accounts[idx], w.pool(idx));
    TryKeeps(opts, p.accounts[idx], w.pool(idx));
    if o.Granted? {
      acc := p.accounts[idx];
    } else {
      acc := ScanAnswer(opts, p.(accounts := p.accounts[idx := acc']), w, i + 1, saw || o.Failed?);
    }
  }

  lemma {:induction false} PreferredIs(accounts: seq<Account>, active: string, i: nat)
    ensures var r := Preferred(accounts, active, i);
            && (r.Some? ==>
                  && i <= r.value < |accounts|
                  && (|| accounts[r.value].id == active
                      || (accounts[r.value].id == "" && accounts[r.value].name == active))
                  && forall k :: i <= k < r.value ==>
                       accounts[k].id != active && (accounts[k].id == "" ==> accounts[k].name != active))
            && (r.None? ==> forall k :: i <= k < |accounts| ==>
                              accounts[k].id != active && (accounts[k].id == "" ==> accounts[k].name != active))
    decreases |accounts| - i
  {
    if i < |accounts| && !IsPreferred(accounts[i], active) {
      PreferredIs(accounts, active, i + 1);
    }
  }

  /** The account tried first, if one is preferred and present. */
  function First(p: Pool): Option<nat> {
    if p.active == "" then None else Preferred(p.accounts, p.active, 0)
  }

  /** The pool the round-robin pass works on. */
  function AfterFirst(opts: Options, p: Pool, w: World): Pool
    requires First(p).Some? ==> First(p).value < |p.accounts|
  {
    if First(p).None? then p
    else p.(accounts := p.accounts[First(p).value := Try(opts, p.accounts[First(p).value], w.preferred).0])
  }

  /** The active account comes first: if it is usable its token is the answer, and nothing else in the pool
      changes; if it is not, the call is the pass on the pool that its failed try leaves. */
  lemma {:induction false} ActiveComesFirst(opts: Options, p: Pool, w: World)
    requires p.accounts != []
    ensures First(p).Some? ==> First(p).value < |p.accounts|
    ensures First(p).Some? && Usable(opts, p.accounts[First(p).value], w.preferred) ==>
              var f := First(p).value; var (acc, o) := Try(opts, p.accounts[f], w.preferred);
              GetToken(opts, p, w) == (p.(accounts := p.accounts[f := acc]), Answer(o.token, Key(acc), f, o.how))
    ensures First(p).None? || !Usable(opts, p.accounts[First(p).value], w.preferred) ==>
              GetToken(opts, p, w) == Scan(opts, AfterFirst(opts, p, w), w, 0, false)
  {
    hide Try, Scan, Usable;
    PreferredIs(p.accounts, p.active, 0);
    if First(p).Some? {
      UsableIff(opts, p.accounts[First(p).value], w.preferred);
    }
  }

  /** A new account comes last, and becomes the active one exactly if it is meant to be and none is. */
  lemma {:induction false} AddedIs(p: Pool, acc: Account, isCurrent: bool)
    ensures var q := AddAccount(p, acc, isCurrent);
            && q.accounts == p.accounts + [acc] && q.index == p.index
            && (isCurrent && p.active == "" ==> q.active == acc.id)
            && (!isCurrent || p.active != "" ==> q.active == p.active)
  {
  }

  /** A reported failure marks exactly its target and is told to its breaker; a success is told alone. */
  lemma {:induction false} ReportsTouch(opts: Options, p: Pool, key: string, now: int, j: nat)
    requires j < |p.accounts|
    ensures var acc, failed := p.accounts[j], ReportFailure(opts, p, key, now).accounts;
            var credited := ReportSuccess(opts, p, key).accounts;
            && |failed| == |credited| == |p.accounts|
            && (Target(p.accounts, key) != Some(j) ==> failed[j] == credited[j] == acc)
            && (Target(p.accounts, key) == Some(j) ==>
                  && failed[j] == acc.(stale := true, breaker := B.Step(opts.breaker, acc.breaker, B.Failure(now)))
                  && credited[j] == acc.(breaker := B.Step(opts.breaker, acc.breaker, B.Success)))
  {
    hide Target, B.Step;
  }

  /** The answer of a whole call is the outcome of a try of the answering account, either the preferred
      try or the one of the pass, with the stale mark it had before the call. */
  lemma {:induction false} CallAnswer(opts: Options, p: Pool, w: World) returns (acc: Account, a: Attempt)
    requires GetToken(opts, p, w).1.Answer?
    ensures var (q, r) := GetToken(opts, p, w);
            && r.who < |p.accounts| == |q.accounts| && Keeps(p.accounts[r.who], acc)
            && (a == w.pool(r.who) || (a == w.preferred && First(p) == Some(r.who)))
            && Try(opts, acc, a) == (q.accounts[r.who], Granted(r.token, r.how))
            && r.key == Key(p.accounts[r.who])
  {
    hide Try, Scan;
    PreferredIs(p.accounts, p.active, 0);
    if First(p).Some? {
      var f := First(p).value;
      var (acc', o) := Try(opts, p.accounts[f], w.preferred);
      TryKeeps(opts, p.accounts[f], w.preferred);
      if o.Granted? {
        return p.accounts[f], w.preferred;
      }
      acc := ScanAnswer(opts, p.(accounts := p.accounts[f := acc']), w, 0, false);
    } else {
      acc := ScanAnswer(opts, p, w, 0, false);
    }
    a := w.pool(GetToken(opts, p, w).1.who);
  }

  /** Every token handed out is non-empty, is the account's current credential, and was unexpired at the
      clock reading of its check unless the refresh endpoint itself has just supplied it; an account
      marked stale hands out only what is refreshed or reloaded in this very call. */
  lemma {:induction false} TokenIsGood(opts: Options, p: Pool, w: World) returns (a: Attempt)
    requires opts.refreshEarly > 0 && GetToken(opts, p, w).1.Answer?
    ensures var (q, r) := GetToken(opts, p, w);
            && r.who < |p.accounts| == |q.accounts|
            && (a == w.pool(r.who) || (a == w.preferred && First(p) == Some(r.who)))
            && r.token != "" && q.accounts[r.who].token.Some? && r.token == q.accounts[r.who].token.value.access
            && Unexpired(q.accounts[r.who].token.value, r.how, a)
            && (r.how.Refreshed? ==> q.accounts[r.who].token == a.refreshed)
            && (r.how.Reloaded? ==> q.accounts[r.who].token == a.reloaded)
            && (p.accounts[r.who].stale ==> r.how.Refreshed? || r.how.Reloaded?)
            && (p.accounts[r.who].stale && p.accounts[r.who].token.Some? ==>
                  q.accounts[r.who].token == Supply(opts, p.accounts[r.who], a))
            && (r.how.Kept? ==> InTime(opts, q.accounts[r.who].token.value, a.checkAt))
            && (r.how.FellBack? && p.accounts[r.who].token.Some? ==> Supply(opts, p.accounts[r.who], a) == None)
  {
    hide Try, GetToken, Supply;
    var acc;
    acc, a := CallAnswer(opts, p, w);
    GrantedIsGood(opts, acc, a);
    if p.accounts[GetToken(opts, p, w).1.who].token.Some? {
      SameSupply(opts, p.accounts[GetToken(opts, p, w).1.who], acc, a);
    }
  }

  lemma {:induction false} SameSupply(opts: Options, x: Account, y: Account, a: Attempt)
    requires x.token.Some? && y.token == x.token && y.reloadable == x.reloadable
    ensures Supply(opts, x, a) == Supply(opts, y, a)
  {
  }

  /** A call on a non-empty pool fails exactly when no try it makes can succeed: neither the preferred
      account's own try, nor, for any account, the try of the pass. */
  lemma {:induction false} FailsIffNoneUsable(opts: Options, p: Pool, w: World)
    requires p.accounts != []
    ensures First(p).Some? ==> First(p).value < |p.accounts|
    ensures !GetToken(opts, p, w).1.Answer?
            <==> (First(p).Some? ==> !Usable(opts, p.accounts[First(p).value], w.preferred))
                 && forall j: nat :: j < |p.accounts| ==> !Usable(opts, AfterFirst(opts, p, w).accounts[j], w.pool(j))
  {
    hide Try, Scan, Usable;
    PreferredIs(p.accounts, p.active, 0);
    if First(p).Some? {
      UsableIff(opts, p.accounts[First(p).value], w.preferred);
    }
    if First(p).None? || !Usable(opts, p.accounts[First(p).value], w.preferred) {
      PassFailsIff(opts, AfterFirst(opts, p, w), w);
    }
  }

  lemma {:induction false} PassFailsIff(opts: Options, p: Pool, w: World)
    requires p.accounts != []
    ensures !Scan(opts, p, w, 0, false).1.Answer?
            <==> forall j: nat :: j < |p.accounts| ==> !Usable(opts, p.accounts[j], w.pool(j))
  {
    hide Try, Scan, Usable;
    ScanFinds(opts, p, w, 0, false);
    var n := |p.accounts|;
    if !Scan(opts, p, w, 0, false).1.Answer? {
      forall j: nat | j < n ensures !Usable(opts, p.accounts[j], w.pool(j)) {
        var d := EveryAccountTried(p.index, j, n);
      }
    }
  }

  // ---- Whole runs: after a reported failure nothing is handed out that has not been supplied anew ----

  datatype Op =
    | Get(w: World)
    | Fail(key: string, now: int)
    | Succeed(key: string)
    | SetActive(id: string)
    | Add(acc: Account, isCurrent: bool)

  function Apply(opts: Options, p: Pool, op: Op): Pool {
    match op
    case Get(w) => GetToken(opts, p, w).0
    case Fail(key, now) => ReportFailure(opts, p, key, now)
    case Succeed(key) => ReportSuccess(opts, p, key)
    case SetActive(id) => p.(active := id)
    case Add(acc, isCurrent) => AddAccount(p, acc, isCurrent)
  }

  function After(opts: Options, p: Pool, ops: seq<Op>): Pool {
    if ops == [] then p else Apply(opts, After(opts, p, Front(ops)), Last(ops))
  }

  /** Does the op hand out a token of account j? */
  predicate HandsOut(opts: Options, p: Pool, op: Op, j: nat) {
    op.Get? && var r := GetToken(opts, p, op.w).1; r.Answer? && r.who == j
  }

  lemma {:induction false} CallKeepsStale(opts: Options, p: Pool, w: World, j: nat)
    requires j < |p.accounts| && !HandsOut(opts, p, Get(w), j)
    ensures var q := GetToken(opts, p, w).0; |q.accounts| == |p.accounts| && Keeps(p.accounts[j], q.accounts[j])
  {
    hide Try, Scan;
    PreferredIs(p.accounts, p.active, 0);
    if First(p).Some? {
      var f := First(p).value;
      TryKeeps(opts, p.accounts[f], w.preferred);
      var p' := p.(accounts := p.accounts[f := Try(opts, p.accounts[f], w.preferred).0]);
      ScanKeeps(opts, p', w, 0, false, j);
    } else {
      ScanKeeps(opts, p, w, 0, false, j);
    }
  }

  /** A stale account with a credential, still as it was. */
  predicate Rejected(p: Pool, j: nat, acc: Account) {
    && j < |p.accounts| && p.accounts[j].stale && p.accounts[j].reloadable == acc.reloadable
    && (acc.token.Some? ==> p.accounts[j].token == acc.token)
  }

  lemma {:induction false} StepKeepsStale(opts: Options, p: Pool, op: Op, j: nat, acc: Account)
    requires Rejected(p, j, acc) && !HandsOut(opts, p, op, j)
    ensures Rejected(Apply(opts, p, op), j, acc)
  {
    hide GetToken, Target, HandsOut;
    if op.Get? {
      CallKeepsStale(opts, p, op.w, j);
    }
  }

  /** Until it hands out a token, a stale account stays stale and keeps the credential it had. */
  lemma {:induction false} StaysStale(opts: Options, p: Pool, ops: seq<Op>, a: nat, b: nat, j: nat, acc: Account)
    requires a <= b <= |ops| && Rejected(After(opts, p, ops[..a]), j, acc)
    requires forall c :: a <= c < b ==> !HandsOut(opts, After(opts, p, ops[..c]), ops[c], j)
    ensures Rejected(After(opts, p, ops[..b]), j, acc)
    decreases b - a
  {
    hide Apply, HandsOut, Rejected;
    if a < b {
      AfterNext(opts, p, ops, a);
      StepKeepsStale(opts, After(opts, p, ops[..a]), ops[a], j, acc);
      StaysStale(opts, p, ops, a + 1, b, j, acc);
    }
  }

  lemma {:induction false} AfterNext(opts: Options, p: Pool, ops: seq<Op>, c: nat)
    requires c < |ops|
    ensures After(opts, p, ops[..c + 1]) == Apply(opts, After(opts, p, ops[..c]), ops[c])
  {
    hide Apply;
    assert Front(ops[..c + 1]) == ops[..c];
  }

  /** After a reported failure, the first token the account hands out again, however many calls later,
      is one that the refresh endpoint or the credential source has supplied in that very call. It is the
      rejected one again exactly when that supply carries the same access string. */
  lemma {:induction false} NoReuseAfterFailure(opts: Options, p: Pool, ops: seq<Op>, a: nat, b: nat, j: nat)
    returns (at: Attempt)
    requires opts.refreshEarly > 0 && a < b < |ops|
    requires ops[a].Fail? && j < |After(opts, p, ops[..a]).accounts|
    requires Target(After(opts, p, ops[..a]).accounts, ops[a].key) == Some(j)
    requires HandsOut(opts, After(opts, p, ops[..b]), ops[b], j)
    requires forall c :: a < c < b ==> !HandsOut(opts, After(opts, p, ops[..c]), ops[c], j)
    ensures at == ops[b].w.pool(j) || at == ops[b].w.preferred
    ensures var acc := After(opts, p, ops[..a]).accounts[j];
            var r := GetToken(opts, After(opts, p, ops[..b]), ops[b].w).1;
            && (r.how.Refreshed? || r.how.Reloaded?)
            && (acc.token.Some? ==>
                  && Supply(opts, acc, at).Some?
                  && (r.token == acc.token.value.access
                      <==> Supply(opts, acc, at).value.access == acc.token.value.access))
  {
    hide GetToken, Target, Scan, Try, Supply;
    var acc, q := After(opts, p, ops[..a]).accounts[j], After(opts, p, ops[..b]);
    AfterNext(opts, p, ops, a);
    StaysStale(opts, p, ops, a + 1, b, j, acc);
    at := TokenIsGood(opts, q, ops[b].w);
    if acc.token.Some? {
      SameSupply(opts, acc, q.accounts[j], at);
    }
  }

  /** Such a run: an environment variable still holds the rejected token, and the reload hands it back. */
  lemma {:induction false} RejectedTokenComesBack(opts: Options, w: World, now: int)
    requires opts.breaker.threshold > 1
    requires w.pool(0).reloaded == Some(Token("x", "", None, None))
    ensures var acc := Account("a", "", true, Some(Token("x", "", None, None)), false, B.FRESH);
            var p := Pool([acc], 0, "");
            GetToken(opts, ReportFailure(opts, p, "a", now), w).1 == Answer("x", "a", 0, Reloaded)
  {
    var acc := Account("a", "", true, Some(Token("x", "", None, None)), false, B.FRESH);
    assert ById([acc], "a", 0) == Some(0);
  }

  // ---- Reports reach exactly the account they name ----

  lemma {:induction false} ByIdIs(accounts: seq<Account>, key: string, i: nat)
    ensures var r := ById(accounts, key, i);
            && (r.Some? ==> i <= r.value < |accounts| && accounts[r.value].id == key != ""
                            && forall k :: i <= k < r.value ==> accounts[k].id != key || key == "")
            && (r.None? ==> forall k :: i <= k < |accounts| ==> accounts[k].id != key || key == "")
    decreases |accounts| - i
  {
    if i < |accounts| {
      ByIdIs(accounts, key, i + 1);
    }
  }

  lemma {:induction false} NamedIs(accounts: seq<Account>, key: string)
    ensures CountNamed(accounts, key) == 0 <==> forall k :: 0 <= k < |accounts| ==> accounts[k].name != key
    ensures CountNamed(accounts, key) == 1 ==>
              var r := LastNamed(accounts, key);
              r.Some? && accounts[r.value].name == key
              && forall k :: 0 <= k < |accounts| && k != r.value ==> accounts[k].name != key
  {
    if accounts != [] {
      NamedIs(Front(accounts), key);
      assert forall k :: 0 <= k < |accounts| - 1 ==> Front(accounts)[k] == accounts[k];
    }
  }

  predicate OnlyOneNamed(accounts: seq<Account>, key: string, k: nat) {
    k < |accounts| && accounts[k].name == key
    && forall j :: 0 <= j < |accounts| && j != k ==> accounts[j].name != key
  }

  lemma {:induction false} OnlyOneCounts(accounts: seq<Account>, key: string, k: nat)
    requires OnlyOneNamed(accounts, key, k)
    ensures CountNamed(accounts, key) == 1
  {
    assert forall j :: 0 <= j < |accounts| - 1 ==> Front(accounts)[j] == accounts[j];
    if k == |accounts| - 1 {
      NamedIs(Front(accounts), key);
    } else {
      OnlyOneCounts(Front(accounts), key, k);
    }
  }

  /** Exactly which account a report reaches: the first one with that id; failing that, the one with that
      name if the name is its alone; failing that, none. Accounts sharing a name are never charged for
      one another. */
  lemma {:induction false} TargetIs(accounts: seq<Account>, key: string)
    ensures var r := Target(accounts, key);
            var named := key != "" && exists k :: 0 <= k < |accounts| && accounts[k].id == key;
            && (named ==> r.Some? && r.value < |accounts| && accounts[r.value].id == key
                          && forall k :: 0 <= k < r.value ==> accounts[k].id != key)
            && (!named && r.Some? ==> OnlyOneNamed(accounts, key, r.value))
            && (!named && r.None? ==> forall k: nat :: !OnlyOneNamed(accounts, key, k))
  {
    hide ById, CountNamed, LastNamed;
    ByIdIs(accounts, key, 0);
    NamedIs(accounts, key);
    forall k: nat | OnlyOneNamed(accounts, key, k) ensures CountNamed(accounts, key) == 1 {
      OnlyOneCounts(accounts, key, k);
    }
  }

  /** No report by this account's key can go astray: its id is its own from the front, or, without an id,
      its name is no other account's name or id. */
  predicate Addressable(accounts: seq<Account>, who: nat)
    requires who < |accounts|
  {
    var acc := accounts[who];
    if acc.id != "" then forall k :: 0 <= k < who ==> accounts[k].id != acc.id
    else OnlyOneNamed(accounts, acc.name, who)
         && (acc.name == "" || forall k :: 0 <= k < |accounts| ==> accounts[k].id != acc.name)
  }

  /** A report with the key that a call returned reaches the account that answered exactly when that
      account is addressable. */
  lemma {:induction false} ReportReachesIff(opts: Options, p: Pool, w: World)
    requires GetToken(opts, p, w).1.Answer?
    ensures var (q, r) := GetToken(opts, p, w);
            && r.who < |q.accounts|
            && (Target(q.accounts, r.key) == Some(r.who) <==> Addressable(q.accounts, r.who))
  {
    hide GetToken, Try, Target;
    var acc, a := CallAnswer(opts, p, w);
    var (q, r) := GetToken(opts, p, w);
    TryKeeps(opts, acc, a);
    KeyReachesIff(q.accounts, r.who);
  }

  lemma {:induction false} KeyReachesIff(accounts: seq<Account>, who: nat)
    requires who < |accounts|
    ensures Target(accounts, Key(accounts[who])) == Some(who) <==> Addressable(accounts, who)
  {
    hide Target;
    TargetIs(accounts, Key(accounts[who]));
  }

  /** Two accounts without ids that share a name: the report marks neither. */
  lemma {:induction false} SharedNameIsUnreachable(acc: Account)
    requires acc.id == ""
    ensures Target([acc, acc], Key(acc)) == None
  {
    var accounts := [acc, acc];
    hide Target;
    TargetIs(accounts, Key(acc));
    assert accounts[0] == accounts[1];
  }
}
