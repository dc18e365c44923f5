/** internal/queue/queue.go: the combined limiter: one global bucket, one window per user, one per
    account. */
module RateLimiter {
  import opened Basics
  import T = TokenBucket
  import W = SlidingWindow

  const MINUTE := 60000000000

  datatype Config = Config(globalRPS: real, userRPM: int, accountRPM: int)

  function BucketOf(cfg: Config): T.Config {
    T.Config(cfg.globalRPS * 1.5, cfg.globalRPS)
  }

  function UserWindow(cfg: Config): W.Config {
    W.Config(MINUTE, cfg.userRPM)
  }

  function AccountWindow(cfg: Config): W.Config {
    W.Config(MINUTE, cfg.accountRPM)
  }

  datatype Limits = Limits(bucket: T.Bucket, users: map<string, seq<int>>, accounts: map<string, seq<int>>)

  /** One call and the clock as each of the three limiters reads it. */
  datatype Call = Call(user: string, account: string, bucketAt: int, userAt: int, accountAt: int)

  /** A window that does not exist yet is an empty one. */
  function Held(m: map<string, seq<int>>, key: string): seq<int> {
    if key in m then m[key] else []
  }

  /** Bucket, then user window, then account window; a later refusal does not give back what the
      earlier ones took. */
  function Decide(cfg: Config, l: Limits, c: Call): (Limits, bool) {
    var (bucket, ok) := T.Take(BucketOf(cfg), l.bucket, c.bucketAt);
    var l1 := l.(bucket := bucket);
    if !ok then (l1, false)
    else
      var (user, okUser) := W.Take(UserWindow(cfg), Held(l.users, c.user), c.userAt);
      var l2 := l1.(users := l.users[c.user := user]);
      if !okUser then (l2, false)
      else
        var (account, okAccount) := W.Take(AccountWindow(cfg), Held(l.accounts, c.account), c.accountAt);
        (l2.(accounts := l.accounts[c.account := account]), okAccount)
  }

  class RateLimiter {
    const cfg: Config
    const global: T.TokenBucket
    var perUser: map<string, W.SlidingWindowCounter>
    var perAcct: map<string, W.SlidingWindowCounter>

    ghost function Counters(): set<object>
      reads this
    {
      perUser.Values + perAcct.Values
    }

    ghost predicate Valid()
      reads this
    {
      && global.cfg == BucketOf(cfg)
      && (forall u, a :: u in perUser && a in perAcct ==> perUser[u] != perAcct[a])
      && (forall u, v :: u in perUser && v in perUser && u != v ==> perUser[u] != perUser[v])
      && (forall u, v :: u in perAcct && v in perAcct && u != v ==> perAcct[u] != perAcct[v])
      && (forall u :: u in perUser ==> perUser[u].cfg == UserWindow(cfg))
      && (forall u :: u in perAcct ==> perAcct[u].cfg == AccountWindow(cfg))
    }

    ghost function View(): Limits
      reads this, global, Counters()
    {
      Limits(global.View(), Stamps(perUser), Stamps(perAcct))
    }

    constructor (cfg: Config, now: int)
      ensures Valid() && this.cfg == cfg && fresh(global)
      ensures View() == Limits(T.Bucket(cfg.globalRPS * 1.5, now), map[], map[])
    {
      this.cfg := cfg;
      global := new T.TokenBucket(BucketOf(cfg), now);
      perUser, perAcct := map[], map[];
    }

    /** The user's window, created on first use. */
    method EnsureUser(user: string)
      requires Valid()
      modifies `perUser
      ensures Valid() && user in perUser && fresh(Counters() - old(Counters()))
      ensures Stamps(perUser) == old(Stamps(perUser))[user := Held(old(Stamps(perUser)), user)]
    {
      if user !in perUser {
        var counter := new W.SlidingWindowCounter(UserWindow(cfg));
        perUser := perUser[user := counter];
      }
    }

    method EnsureAccount(account: string)
      requires Valid()
      modifies `perAcct
      ensures Valid() && account in perAcct && fresh(Counters() - old(Counters()))
      ensures Stamps(perAcct) == old(Stamps(perAcct))[account := Held(old(Stamps(perAcct)), account)]
    {
      if account !in perAcct {
        var counter := new W.SlidingWindowCounter(AccountWindow(cfg));
        perAcct := perAcct[account := counter];
      }
    }

    method AllowUser(user: string, now: int) returns (ok: bool)
      requires Valid() && user in perUser
      modifies perUser[user]
      ensures Valid() && Stamps(perAcct) == old(Stamps(perAcct))
      ensures var (ts, granted) := W.Take(UserWindow(cfg), old(Stamps(perUser))[user], now);
              ok == granted && Stamps(perUser) == old(Stamps(perUser))[user := ts]
    {
      hide W.Take;
      ok := perUser[user].Allow(now);
    }

    method AllowAccount(account: string, now: int) returns (ok: bool)
      requires Valid() && account in perAcct
      modifies perAcct[account]
      ensures Valid() && Stamps(perUser) == old(Stamps(perUser))
      ensures var (ts, granted) := W.Take(AccountWindow(cfg), old(Stamps(perAcct))[account], now);
              ok == granted && Stamps(perAcct) == old(Stamps(perAcct))[account := ts]
    {
      hide W.Take;
      ok := perAcct[account].Allow(now);
    }

    /** The per-user limit: the user's window, created if need be, is asked. */
    method AskUser(user: string, now: int) returns (ok: bool)
      requires Valid()
      modifies `perUser, perUser.Values
      ensures Valid() && fresh(Counters() - old(Counters()))
      ensures Stamps(perAcct) == old(Stamps(perAcct))
      ensures var (ts, granted) := W.Take(UserWindow(cfg), Held(old(Stamps(perUser)), user), now);
              ok == granted && Stamps(perUser) == old(Stamps(perUser))[user := ts]
    {
      hide W.Take, Stamps, Held;
      ghost var users := Stamps(perUser);
      EnsureUser(user);
      ok := AllowUser(user, now);
      UpdatedTwice(users, user, Held(users, user), W.Take(UserWindow(cfg), Held(users, user), now).0);
    }

    /** The per-account limit. */
    method AskAccount(account: string, now: int) returns (ok: bool)
      requires Valid()
      modifies `perAcct, perAcct.Values
      ensures Valid() && fresh(Counters() - old(Counters()))
      ensures Stamps(perUser) == old(Stamps(perUser))
      ensures var (ts, granted) := W.Take(AccountWindow(cfg), Held(old(Stamps(perAcct)), account), now);
              ok == granted && Stamps(perAcct) == old(Stamps(perAcct))[account := ts]
    {
      hide W.Take, Stamps, Held;
      ghost var accounts := Stamps(perAcct);
      EnsureAccount(account);
      ok := AllowAccount(account, now);
      UpdatedTwice(accounts, account, Held(accounts, account),
                   W.Take(AccountWindow(cfg), Held(accounts, account), now).0);
    }

    method Allow(c: Call) returns (ok: bool)
      requires Valid()
      modifies this, global, Counters()
      ensures Valid() && (View(), ok) == Decide(cfg, old(View()), c)
    {
      hide W.Take, T.Take, Stamps, Held;
      ok := global.Allow(c.bucketAt);
      if ok {
        ok := AskUser(c.user, c.userAt);
        if ok {
          ok := AskAccount(c.account, c.accountAt);
        }
      }
    }
  }

  lemma {:induction false} UpdatedTwice(m: map<string, seq<int>>, key: string, a: seq<int>, b: seq<int>)
    ensures m[key := a][key := b] == m[key := b]
  {
  }

  /** What the counters of a table hold. */
  ghost function Stamps(m: map<string, W.SlidingWindowCounter>): (r: map<string, seq<int>>)
    reads m.Values
    ensures r.Keys == m.Keys
  {
    map u | u in m :: m[u].timestamp
  }

  // ---- Whole runs, taken apart into the runs of the single limiters ----

  function Run(cfg: Config, t0: int, calls: seq<Call>): Limits {
    if calls == [] then Limits(T.Bucket(BucketOf(cfg).capacity, t0), map[], map[])
    else Decide(cfg, Run(cfg, t0, Front(calls)), Last(calls)).0
  }

  predicate LastAllowed(cfg: Config, t0: int, calls: seq<Call>)
    requires calls != []
  {
    Decide(cfg, Run(cfg, t0, Front(calls)), Last(calls)).1
  }

  /** Each limiter's clock runs forwards. */
  ghost predicate Ordered(t0: int, calls: seq<Call>) {
    && (forall i :: 0 <= i < |calls| ==> t0 <= calls[i].bucketAt)
    && forall i, j :: 0 <= i < j < |calls| ==>
         calls[i].bucketAt <= calls[j].bucketAt && calls[i].userAt <= calls[j].userAt
         && calls[i].accountAt <= calls[j].accountAt
  }

  function BucketTimes(calls: seq<Call>): seq<int> {
    if calls == [] then [] else BucketTimes(Front(calls)) + [Last(calls).bucketAt]
  }

  /** The bucket let the last call through. */
  predicate PastBucket(cfg: Config, t0: int, calls: seq<Call>)
    requires calls != []
  {
    T.Take(BucketOf(cfg), Run(cfg, t0, Front(calls)).bucket, Last(calls).bucketAt).1
  }

  predicate PastUser(cfg: Config, t0: int, calls: seq<Call>)
    requires calls != []
  {
    PastBucket(cfg, t0, calls)
    && W.Take(UserWindow(cfg), Held(Run(cfg, t0, Front(calls)).users, Last(calls).user), Last(calls).userAt).1
  }

  /** The times at which a user's window was asked. */
  function UserTimes(cfg: Config, t0: int, calls: seq<Call>, user: string): seq<int> {
    if calls == [] then []
    else UserTimes(cfg, t0, Front(calls), user)
         + if Last(calls).user == user && PastBucket(cfg, t0, calls) then [Last(calls).userAt] else []
  }

  function AccountTimes(cfg: Config, t0: int, calls: seq<Call>, account: string): seq<int> {
    if calls == [] then []
    else AccountTimes(cfg, t0, Front(calls), account)
         + if Last(calls).account == account && PastUser(cfg, t0, calls) then [Last(calls).accountAt] else []
  }

  lemma {:induction false} RunNext(cfg: Config, t0: int, calls: seq<Call>)
    requires calls != []
    ensures var l, m, c := Run(cfg, t0, Front(calls)), Run(cfg, t0, calls), Last(calls);
            && m.bucket == T.Take(BucketOf(cfg), l.bucket, c.bucketAt).0
            && (forall u :: Held(m.users, u) ==
                  if u == c.user && PastBucket(cfg, t0, calls)
                  then W.Take(UserWindow(cfg), Held(l.users, u), c.userAt).0 else Held(l.users, u))
            && (forall a :: Held(m.accounts, a) ==
                  if a == c.account && PastUser(cfg, t0, calls)
                  then W.Take(AccountWindow(cfg), Held(l.accounts, a), c.accountAt).0 else Held(l.accounts, a))
            && (LastAllowed(cfg, t0, calls) <==>
                  PastUser(cfg, t0, calls)
                  && W.Take(AccountWindow(cfg), Held(l.accounts, c.account), c.accountAt).1)
  {
    hide T.Take, W.Take;
  }

  /** The state after a run is that of the single limiters after the calls each of them saw. */
  lemma {:induction false} RunDecomposes(cfg: Config, t0: int, calls: seq<Call>, user: string, account: string)
    ensures var l := Run(cfg, t0, calls);
            && l.bucket == T.Run(BucketOf(cfg), t0, BucketTimes(calls))
            && Held(l.users, user) == W.Run(UserWindow(cfg), UserTimes(cfg, t0, calls, user))
            && Held(l.accounts, account) == W.Run(AccountWindow(cfg), AccountTimes(cfg, t0, calls, account))
  {
    if calls != [] {
      hide *;
      RunDecomposes(cfg, t0, Front(calls), user, account);
      RunNext(cfg, t0, calls);
      BucketNext(cfg, t0, calls);
      UserNext(cfg, t0, calls, user);
      AccountNext(cfg, t0, calls, account);
    }
  }

  lemma {:induction false} BucketNext(cfg: Config, t0: int, calls: seq<Call>)
    requires calls != []
    ensures T.Run(BucketOf(cfg), t0, BucketTimes(calls))
            == T.Take(BucketOf(cfg), T.Run(BucketOf(cfg), t0, BucketTimes(Front(calls))), Last(calls).bucketAt).0
  {
    hide T.Take;
    SnocParts(BucketTimes(Front(calls)), Last(calls).bucketAt);
  }

  lemma {:induction false} UserNext(cfg: Config, t0: int, calls: seq<Call>, user: string)
    requires calls != []
    ensures var before := W.Run(UserWindow(cfg), UserTimes(cfg, t0, Front(calls), user));
            W.Run(UserWindow(cfg), UserTimes(cfg, t0, calls, user))
            == if user == Last(calls).user && PastBucket(cfg, t0, calls)
               then W.Take(UserWindow(cfg), before, Last(calls).userAt).0 else before
  {
    hide W.Take, PastBucket;
    var times := UserTimes(cfg, t0, Front(calls), user);
    SnocParts(times, Last(calls).userAt);
    assert times + [] == times;
  }

  lemma {:induction false} AccountNext(cfg: Config, t0: int, calls: seq<Call>, account: string)
    requires calls != []
    ensures var before := W.Run(AccountWindow(cfg), AccountTimes(cfg, t0, Front(calls), account));
            W.Run(AccountWindow(cfg), AccountTimes(cfg, t0, calls, account))
            == if account == Last(calls).account && PastUser(cfg, t0, calls)
               then W.Take(AccountWindow(cfg), before, Last(calls).accountAt).0 else before
  {
    hide W.Take, PastUser;
    var times := AccountTimes(cfg, t0, Front(calls), account);
    SnocParts(times, Last(calls).accountAt);
    assert times + [] == times;
  }

  lemma {:induction false} OrderedFront(t0: int, calls: seq<Call>)
    requires calls != [] && Ordered(t0, calls)
    ensures Ordered(t0, Front(calls)) && t0 <= Last(calls).bucketAt
    ensures forall i :: 0 <= i < |calls| - 1 ==>
              Front(calls)[i].bucketAt <= Last(calls).bucketAt && Front(calls)[i].userAt <= Last(calls).userAt
              && Front(calls)[i].accountAt <= Last(calls).accountAt
  {
  }

  /** No call of the run is later, on any of the three clocks, than these readings. */
  ghost predicate NoneAfter(calls: seq<Call>, b: int, u: int, a: int) {
    forall i :: 0 <= i < |calls| ==> calls[i].bucketAt <= b && calls[i].userAt <= u && calls[i].accountAt <= a
  }

  lemma {:induction false} FrontNotAfter(t0: int, calls: seq<Call>, b: int, u: int, a: int)
    requires calls != [] && Ordered(t0, calls) && NoneAfter(calls, b, u, a)
    ensures var c := Last(calls);
            && Ordered(t0, Front(calls)) && NoneAfter(Front(calls), c.bucketAt, c.userAt, c.accountAt)
            && t0 <= c.bucketAt <= b && c.userAt <= u && c.accountAt <= a
  {
    OrderedFront(t0, calls);
    assert Last(calls) == calls[|calls| - 1];
  }

  /** Every limiter sees its calls in order of time, none later than the bound given. */
  lemma {:induction false} TimesOrdered(cfg: Config, t0: int, calls: seq<Call>, user: string, account: string,
                                        b: int, u: int, a: int)
    requires Ordered(t0, calls) && NoneAfter(calls, b, u, a)
    ensures T.Ordered(t0, BucketTimes(calls))
    ensures forall i :: 0 <= i < |BucketTimes(calls)| ==> BucketTimes(calls)[i] <= b
    ensures W.Ordered(UserTimes(cfg, t0, calls, user)) && W.UpTo(UserTimes(cfg, t0, calls, user), u)
    ensures W.Ordered(AccountTimes(cfg, t0, calls, account)) && W.UpTo(AccountTimes(cfg, t0, calls, account), a)
  {
    hide *;
    BucketOrdered(t0, calls, b, u, a);
    UserOrdered(cfg, t0, calls, user, b, u, a);
    AccountOrdered(cfg, t0, calls, account, b, u, a);
  }

  lemma {:induction false} BucketOrdered(t0: int, calls: seq<Call>, b: int, u: int, a: int)
    requires Ordered(t0, calls) && NoneAfter(calls, b, u, a)
    ensures T.Ordered(t0, BucketTimes(calls))
    ensures forall i :: 0 <= i < |BucketTimes(calls)| ==> BucketTimes(calls)[i] <= b
  {
    hide Ordered, NoneAfter;
    if calls != [] {
      var c := Last(calls);
      FrontNotAfter(t0, calls, b, u, a);
      BucketOrdered(t0, Front(calls), c.bucketAt, c.userAt, c.accountAt);
    }
  }

  lemma {:induction false} UserOrdered(cfg: Config, t0: int, calls: seq<Call>, user: string, b: int, u: int, a: int)
    requires Ordered(t0, calls) && NoneAfter(calls, b, u, a)
    ensures W.Ordered(UserTimes(cfg, t0, calls, user)) && W.UpTo(UserTimes(cfg, t0, calls, user), u)
  {
    hide Ordered, NoneAfter, PastBucket, W.Ordered, W.UpTo;
    if calls == [] {
      W.OrderedNil(u);
    } else {
      var c := Last(calls);
      var times := UserTimes(cfg, t0, Front(calls), user);
      FrontNotAfter(t0, calls, b, u, a);
      UserOrdered(cfg, t0, Front(calls), user, c.bucketAt, c.userAt, c.accountAt);
      W.OrderedSnoc(times, c.userAt, u);
      assert times + [] == times;
    }
  }

  lemma {:induction false} AccountOrdered(cfg: Config, t0: int, calls: seq<Call>, account: string, b: int, u: int,
                                          a: int)
    requires Ordered(t0, calls) && NoneAfter(calls, b, u, a)
    ensures W.Ordered(AccountTimes(cfg, t0, calls, account)) && W.UpTo(AccountTimes(cfg, t0, calls, account), a)
  {
    hide Ordered, NoneAfter, PastUser, W.Ordered, W.UpTo;
    if calls == [] {
      W.OrderedNil(a);
    } else {
      var c := Last(calls);
      var times := AccountTimes(cfg, t0, Front(calls), account);
      FrontNotAfter(t0, calls, b, u, a);
      AccountOrdered(cfg, t0, Front(calls), account, c.bucketAt, c.userAt, c.accountAt);
      W.OrderedSnoc(times, c.accountAt, a);
      assert times + [] == times;
    }
  }

  // ---- The times of the calls the whole limiter allowed ----

  function UserAllowed(cfg: Config, t0: int, calls: seq<Call>, user: string): seq<int> {
    if calls == [] then []
    else UserAllowed(cfg, t0, Front(calls), user)
         + if Last(calls).user == user && LastAllowed(cfg, t0, calls) then [Last(calls).userAt] else []
  }

  function AccountAllowed(cfg: Config, t0: int, calls: seq<Call>, account: string): seq<int> {
    if calls == [] then []
    else AccountAllowed(cfg, t0, Front(calls), account)
         + if Last(calls).account == account && LastAllowed(cfg, t0, calls) then [Last(calls).accountAt] else []
  }

  function AllowedWithin(cfg: Config, t0: int, calls: seq<Call>, s: int, t: int): nat {
    if calls == [] then 0
    else AllowedWithin(cfg, t0, Front(calls), s, t)
         + if s <= Last(calls).bucketAt <= t && LastAllowed(cfg, t0, calls) then 1 else 0
  }

  /** What the whole limiter allows a user is among what the user's window granted, and likewise for
      accounts and the bucket. */
  lemma {:induction false} AllowedAmongGranted(cfg: Config, t0: int, calls: seq<Call>, user: string,
                                               account: string, lo: int, hi: int)
    ensures W.CountIn(UserAllowed(cfg, t0, calls, user), lo, hi)
            <= W.CountIn(W.Grants(UserWindow(cfg), UserTimes(cfg, t0, calls, user)), lo, hi)
    ensures W.CountIn(AccountAllowed(cfg, t0, calls, account), lo, hi)
            <= W.CountIn(W.Grants(AccountWindow(cfg), AccountTimes(cfg, t0, calls, account)), lo, hi)
    ensures AllowedWithin(cfg, t0, calls, lo, hi) <= T.GrantsWithin(BucketOf(cfg), t0, BucketTimes(calls), lo, hi)
  {
    if calls == [] {
      NothingAllowed(cfg, t0, user, account, lo, hi);
    } else {
      hide *;
      AllowedAmongGranted(cfg, t0, Front(calls), user, account, lo, hi);
      BucketStep(cfg, t0, calls, lo, hi);
      UserStep(cfg, t0, calls, user, lo, hi);
      AccountStep(cfg, t0, calls, account, lo, hi);
    }
  }

  lemma {:induction false} NothingAllowed(cfg: Config, t0: int, user: string, account: string, lo: int, hi: int)
    ensures UserAllowed(cfg, t0, [], user) == [] && AccountAllowed(cfg, t0, [], account) == []
    ensures AllowedWithin(cfg, t0, [], lo, hi) == 0 && W.CountIn([], lo, hi) == 0
  {
  }

  lemma {:induction false} BucketStep(cfg: Config, t0: int, calls: seq<Call>, lo: int, hi: int)
    requires calls != []
    requires AllowedWithin(cfg, t0, Front(calls), lo, hi)
             <= T.GrantsWithin(BucketOf(cfg), t0, BucketTimes(Front(calls)), lo, hi)
    ensures AllowedWithin(cfg, t0, calls, lo, hi) <= T.GrantsWithin(BucketOf(cfg), t0, BucketTimes(calls), lo, hi)
  {
    hide Run, T.Take, T.Run, W.Take, Held, W.Run;
    var before, c := Front(calls), Last(calls);
    RunNext(cfg, t0, calls);
    RunDecomposes(cfg, t0, before, c.user, c.account);
    SnocParts(BucketTimes(before), c.bucketAt);
  }

  lemma {:induction false} UserStep(cfg: Config, t0: int, calls: seq<Call>, user: string, lo: int, hi: int)
    requires calls != []
    requires W.CountIn(UserAllowed(cfg, t0, Front(calls), user), lo, hi)
             <= W.CountIn(W.Grants(UserWindow(cfg), UserTimes(cfg, t0, Front(calls), user)), lo, hi)
    ensures W.CountIn(UserAllowed(cfg, t0, calls, user), lo, hi)
            <= W.CountIn(W.Grants(UserWindow(cfg), UserTimes(cfg, t0, calls, user)), lo, hi)
  {
    hide Run, T.Take, W.Take, Held, W.CountIn, W.Run, T.Run, W.Grants;
    var before, c := Front(calls), Last(calls);
    var us, ok := UserTimes(cfg, t0, before, user), UserAllowed(cfg, t0, before, user);
    RunNext(cfg, t0, calls);
    RunDecomposes(cfg, t0, before, user, c.account);
    assert us + [] == us && ok + [] == ok;
    W.CountSnoc(ok, c.userAt, lo, hi);
    GrantsSnoc(UserWindow(cfg), us, c.userAt, lo, hi);
  }

  lemma {:induction false} AccountStep(cfg: Config, t0: int, calls: seq<Call>, account: string, lo: int, hi: int)
    requires calls != []
    requires W.CountIn(AccountAllowed(cfg, t0, Front(calls), account), lo, hi)
             <= W.CountIn(W.Grants(AccountWindow(cfg), AccountTimes(cfg, t0, Front(calls), account)), lo, hi)
    ensures W.CountIn(AccountAllowed(cfg, t0, calls, account), lo, hi)
            <= W.CountIn(W.Grants(AccountWindow(cfg), AccountTimes(cfg, t0, calls, account)), lo, hi)
  {
    hide Run, T.Take, W.Take, Held, W.CountIn, W.Run, T.Run, W.Grants;
    var before, c := Front(calls), Last(calls);
    var accts, ok := AccountTimes(cfg, t0, before, account), AccountAllowed(cfg, t0, before, account);
    RunNext(cfg, t0, calls);
    RunDecomposes(cfg, t0, before, c.user, account);
    assert accts + [] == accts && ok + [] == ok;
    W.CountSnoc(ok, c.accountAt, lo, hi);
    GrantsSnoc(AccountWindow(cfg), accts, c.accountAt, lo, hi);
  }

  lemma {:induction false} GrantsSnoc(cfg: W.Config, times: seq<int>, now: int, lo: int, hi: int)
    ensures W.CountIn(W.Grants(cfg, times + [now]), lo, hi)
            == W.CountIn(W.Grants(cfg, times), lo, hi)
               + if W.Take(cfg, W.Run(cfg, times), now).1 && lo < now <= hi then 1 else 0
  {
    hide W.Take, W.CountIn;
    SnocParts(times, now);
    W.CountSnoc(W.Grants(cfg, times), now, lo, hi);
    assert W.Grants(cfg, times) + [] == W.Grants(cfg, times);
  }

  // ---- The guarantees ----

  function AtMost(n: int): nat {
    if n > 0 then n else 0
  }

  /** No user and no account is ever allowed more than its limit in any minute, and no interval sees
      more than the bucket's capacity plus its inflow. */
  lemma {:induction false} EveryBoundHolds(cfg: Config, t0: int, calls: seq<Call>, user: string, account: string,
                                           s: int, t: int)
    requires Ordered(t0, calls) && cfg.globalRPS >= 0.0 && s <= t
    ensures W.CountIn(UserAllowed(cfg, t0, calls, user), t - 60000000000, t) <= AtMost(cfg.userRPM)
    ensures W.CountIn(AccountAllowed(cfg, t0, calls, account), t - 60000000000, t) <= AtMost(cfg.accountRPM)
    ensures AllowedWithin(cfg, t0, calls, s, t) as real
            <= cfg.globalRPS * 1.5 + cfg.globalRPS * ((t - s) as real / 1000000000.0)
  {
    hide Run, T.Accrued, UserTimes, AccountTimes, BucketTimes, W.Grants, W.CountIn, T.GrantsWithin,
         UserAllowed, AccountAllowed, AllowedWithin;
    var c := if calls == [] then Call("", "", 0, 0, 0) else Last(calls);
    TimesOrdered(cfg, t0, calls, user, account, c.bucketAt, c.userAt, c.accountAt);
    AllowedAmongGranted(cfg, t0, calls, user, account, t - MINUTE, t);
    AllowedAmongGranted(cfg, t0, calls, user, account, s, t);
    W.WindowBounded(UserWindow(cfg), UserTimes(cfg, t0, calls, user), t);
    W.WindowBounded(AccountWindow(cfg), AccountTimes(cfg, t0, calls, account), t);
    T.IntervalBounded(BucketOf(cfg), t0, BucketTimes(calls), s, t);
  }

  /** A call is allowed exactly when the bucket has room in every interval ending now, the user has had
      fewer than its limit of window grants in the last minute, and so has the account. */
  lemma {:induction false} AllowedIff(cfg: Config, t0: int, calls: seq<Call>, c: Call)
    requires Ordered(t0, calls + [c]) && cfg.globalRPS >= 0.0
    ensures Decide(cfg, Run(cfg, t0, calls), c).1 <==>
              && (forall s :: s <= c.bucketAt ==> T.Fits(BucketOf(cfg), t0, BucketTimes(calls), c.bucketAt, s))
              && |W.Live(W.Grants(UserWindow(cfg), UserTimes(cfg, t0, calls, c.user)), c.userAt - MINUTE)| < cfg.userRPM
              && |W.Live(W.Grants(AccountWindow(cfg), AccountTimes(cfg, t0, calls, c.account)), c.accountAt - MINUTE)|
                 < cfg.accountRPM
  {
    hide Run, T.Take, W.Take, W.Grants, W.Live, T.Fits, BucketTimes, UserTimes, AccountTimes;
    SnocParts(calls, c);
    OrderedFront(t0, calls + [c]);
    TimesOrdered(cfg, t0, calls, c.user, c.account, c.bucketAt, c.userAt, c.accountAt);
    RunDecomposes(cfg, t0, calls, c.user, c.account);
    T.GrantedIff(BucketOf(cfg), t0, BucketTimes(calls), c.bucketAt);
    W.GrantedIff(UserWindow(cfg), UserTimes(cfg, t0, calls, c.user), c.userAt);
    W.GrantedIff(AccountWindow(cfg), AccountTimes(cfg, t0, calls, c.account), c.accountAt);
  }

  // ---- What a call takes, and keeps even when it is refused ----

  /** Tokens the bucket holds at the call, before the call pays. */
  function TokensAt(cfg: Config, l: Limits, c: Call): real {
    T.Refilled(BucketOf(cfg), l.bucket, c.bucketAt)
  }

  /** Slots of the caller's window in use at the call. */
  function SlotsUsed(l: Limits, c: Call): nat {
    |W.Live(Held(l.users, c.user), c.userAt - MINUTE)|
  }

  function AccountSlotsUsed(l: Limits, c: Call): nat {
    |W.Live(Held(l.accounts, c.account), c.accountAt - MINUTE)|
  }

  ghost predicate BucketHasRoom(cfg: Config, t0: int, calls: seq<Call>, c: Call) {
    forall s :: s <= c.bucketAt ==> T.Fits(BucketOf(cfg), t0, BucketTimes(calls), c.bucketAt, s)
  }

  ghost predicate UserHasRoom(cfg: Config, t0: int, calls: seq<Call>, c: Call) {
    |W.Live(W.Grants(UserWindow(cfg), UserTimes(cfg, t0, calls, c.user)), c.userAt - MINUTE)| < cfg.userRPM
  }

  /** A call keeps a token of the bucket exactly when the bucket had room, a slot of the user exactly when
      bucket and user window both had room, a slot of the account exactly when it is allowed; for the
      first two, whether the call is allowed in the end is not asked. */
  lemma {:induction false} KeepsIff(cfg: Config, t0: int, calls: seq<Call>, c: Call)
    requires Ordered(t0, calls + [c]) && cfg.globalRPS >= 0.0
    ensures var l := Run(cfg, t0, calls); var m := Decide(cfg, l, c).0;
            && (if BucketHasRoom(cfg, t0, calls, c) then m.bucket.tokens == TokensAt(cfg, l, c) - 1.0
                else m.bucket.tokens == TokensAt(cfg, l, c))
            && (if BucketHasRoom(cfg, t0, calls, c) && UserHasRoom(cfg, t0, calls, c)
                then SlotsUsed(m, c) == SlotsUsed(l, c) + 1 else SlotsUsed(m, c) == SlotsUsed(l, c))
            && (if Decide(cfg, l, c).1 then AccountSlotsUsed(m, c) == AccountSlotsUsed(l, c) + 1
                else AccountSlotsUsed(m, c) == AccountSlotsUsed(l, c))
  {
    DecideAccount(cfg, Run(cfg, t0, calls), c);
    hide Run, W.Take, W.Grants, W.Live, T.Refilled, T.Take, T.Fits, BucketTimes, UserTimes, AccountTimes, Held;
    var l := Run(cfg, t0, calls);
    SnocParts(calls, c);
    OrderedFront(t0, calls + [c]);
    TimesOrdered(cfg, t0, calls, c.user, c.account, c.bucketAt, c.userAt, c.accountAt);
    RunDecomposes(cfg, t0, calls, c.user, c.account);
    T.GrantedIff(BucketOf(cfg), t0, BucketTimes(calls), c.bucketAt);
    W.GrantedIff(UserWindow(cfg), UserTimes(cfg, t0, calls, c.user), c.userAt);
    BucketPays(cfg, l.bucket, c.bucketAt);
    WindowFills(cfg, Held(l.users, c.user), c.userAt);
    DecideUser(cfg, l, c);
  }

  lemma {:induction false} DecideAccount(cfg: Config, l: Limits, c: Call)
    ensures var (m, ok) := Decide(cfg, l, c);
            AccountSlotsUsed(m, c) == AccountSlotsUsed(l, c) + if ok then 1 else 0
  {
    hide T.Take, W.Take, W.Live;
    AccountFills(cfg, Held(l.accounts, c.account), c.accountAt);
  }

  lemma {:induction false} AccountFills(cfg: Config, ts: seq<int>, now: int)
    ensures var (ts', ok) := W.Take(AccountWindow(cfg), ts, now);
            |W.Live(ts', now - MINUTE)| == |W.Live(ts, now - MINUTE)| + if ok then 1 else 0
  {
    hide W.Live;
    W.LiveTwice(ts, now - MINUTE, now - MINUTE);
    W.LiveSnoc(W.Live(ts, now - MINUTE), now, now - MINUTE);
  }

  lemma {:induction false} BucketPays(cfg: Config, b: T.Bucket, now: int)
    ensures var (b', ok) := T.Take(BucketOf(cfg), b, now);
            b'.tokens == if ok then T.Refilled(BucketOf(cfg), b, now) - 1.0 else T.Refilled(BucketOf(cfg), b, now)
  {
    hide T.Refilled;
  }

  lemma {:induction false} WindowFills(cfg: Config, ts: seq<int>, now: int)
    ensures var (ts', ok) := W.Take(UserWindow(cfg), ts, now);
            |W.Live(ts', now - MINUTE)| == |W.Live(ts, now - MINUTE)| + if ok then 1 else 0
  {
    hide W.Live;
    W.LiveTwice(ts, now - MINUTE, now - MINUTE);
    W.LiveSnoc(W.Live(ts, now - MINUTE), now, now - MINUTE);
  }

  lemma {:induction false} DecideUser(cfg: Config, l: Limits, c: Call)
    ensures var m := Decide(cfg, l, c).0; var (bucket, ok) := T.Take(BucketOf(cfg), l.bucket, c.bucketAt);
            && m.bucket == bucket
            && Held(m.users, c.user)
               == if ok then W.Take(UserWindow(cfg), Held(l.users, c.user), c.userAt).0 else Held(l.users, c.user)
  {
    hide T.Take, W.Take;
  }

  /** Such a call: refused for its account, it has cost the bucket a token and the user the only slot. */
  lemma {:induction false} RefusedCallKeepsBoth(user: string, account: string)
    ensures var cfg, c := Config(2.0, 1, 0), Call(user, account, 0, 0, 0);
            var l := Run(cfg, 0, []); var (m, ok) := Decide(cfg, l, c);
            && !ok && TokensAt(cfg, l, c) == 3.0 && m.bucket.tokens == 2.0
            && SlotsUsed(l, c) == 0 && SlotsUsed(m, c) == 1
  {
    var cfg, c := Config(2.0, 1, 0), Call(user, account, 0, 0, 0);
    var l := Run(cfg, 0, []);
    WindowFills(cfg, [], 0);
    DecideUser(cfg, l, c);
  }
}
