/** The account and pool objects of internal/auth/pool.go. Every method is proved against the
    functions of module Pool. */
module CredentialPool {
  import opened Basics
  import B = CircuitBreaker
  import P = Pool

  class Account {
    const id: string
    const name: string
    const reloadable: bool
    const breaker: B.CircuitBreaker
    var token: Option<P.Token>
    var stale: bool

    function View(): P.Account
      reads this, breaker
    {
      P.Account(id, name, reloadable, token, stale, breaker.Abs())
    }

    constructor (id: string, name: string, reloadable: bool, token: Option<P.Token>, cfg: B.Config)
      ensures View() == P.Account(id, name, reloadable, token, false, B.FRESH)
      ensures fresh(breaker) && breaker.cfg == cfg
    {
      this.id, this.name, this.reloadable := id, name, reloadable;
      this.token, stale := token, false;
      breaker := new B.CircuitBreaker(cfg);
    }

    /** Answers of the credential source; a fixed token cannot be reloaded. */
    method LoadSource(answer: Option<P.Token>) returns (t: Option<P.Token>)
      ensures t == P.Load(View(), answer)
    {
      t := if reloadable then answer else None;
    }

    /** Makes sure the account holds a usable token. */
    method EnsureFresh(opts: P.Options, a: P.Attempt) returns (how: P.How)
      modifies this
      ensures (View(), how) == P.EnsureFresh(opts, old(View()), a)
      ensures !how.Unusable? ==> token.Some?
    {
      if token.None? {
        var nt := LoadSource(a.firstLoad);
        if nt.None? {
          return P.Unusable;
        }
        token := nt;
      }
      var tok := token.value;
      if !stale && tok.access != "" && !P.NeedsRefresh(tok, opts.refreshEarly, a.checkAt) {
        return P.Kept;
      }
      if opts.hasRefresher && P.CanRefresh(tok, a.refreshAt) {
        if a.refreshed.Some? && a.refreshed.value.access != "" {
          token, stale := a.refreshed, false;
          return P.Refreshed;
        }
      }
      var nt := LoadSource(a.reloaded);
      if nt.Some? && nt.value.access != "" && !P.IsExpired(nt.value, a.reloadAt) {
        token, stale := nt, false;
        return P.Reloaded;
      }
      if !stale && !P.IsExpired(tok, a.fallbackAt) && tok.access != "" {
        return P.FellBack;
      }
      return P.Unusable;
    }

    /** One try: breaker, credential, and the breaker's verdict on a failure. */
    method TryToken(opts: P.Options, a: P.Attempt) returns (o: P.Outcome)
      requires breaker.cfg == opts.breaker
      modifies this, breaker
      ensures (View(), o) == P.Try(opts, old(View()), a)
    {
      var allowed := breaker.TryAllow(a.allowAt);
      if !allowed {
        B.RefusedUnchanged(breaker.cfg, old(breaker.Abs()), a.allowAt);
        return P.Refused;
      }
      var how := EnsureFresh(opts, a);
      if !how.Unusable? {
        stale := false;
        o := P.Granted(token.value.access, how);
      } else {
        breaker.RecordFailure(a.failAt);
        o := P.Failed;
      }
    }
  }

  class Pool {
    const opts: P.Options
    var accounts: seq<Account>
    var index: nat
    var activeAccountID: string

    ghost function Breakers(): set<object>
      reads this
    {
      set a | a in accounts :: a.breaker
    }

    /** Accounts and their breakers are objects of their own, all under the pool's configuration. */
    ghost predicate Valid()
      reads this
    {
      && (forall i, j :: 0 <= i < j < |accounts| ==>
            accounts[i] != accounts[j] && accounts[i].breaker != accounts[j].breaker)
      && forall i :: 0 <= i < |accounts| ==> accounts[i].breaker.cfg == opts.breaker
    }

    ghost function View(): P.Pool
      reads this, accounts, Breakers()
    {
      P.Pool(Views(accounts), index, activeAccountID)
    }

    constructor (opts: P.Options)
      ensures Valid() && View() == P.Pool([], 0, "") && this.opts == opts
    {
      this.opts := opts;
      accounts, index, activeAccountID := [], 0, "";
    }

    method SetActiveAccount(id: string)
      requires Valid()
      modifies `activeAccountID
      ensures Valid() && View() == old(View()).(active := id)
    {
      activeAccountID := id;
    }

    /** AddSourceWithID and its relatives: registers an account with the token given or loaded. */
    method Register(id: string, name: string, reloadable: bool, token: Option<P.Token>, isCurrent: bool)
      requires Valid()
      modifies `accounts, `activeAccountID
      ensures Valid()
      ensures View() == P.AddAccount(old(View()), P.Account(id, name, reloadable, token, false, B.FRESH), isCurrent)
    {
      var acc := new Account(id, name, reloadable, token, opts.breaker);
      accounts := accounts + [acc];
      if isCurrent && activeAccountID == "" {
        activeAccountID := id;
      }
    }

    /** Tries one account; only that account and its breaker change. */
    method TryAt(i: nat, a: P.Attempt) returns (o: P.Outcome)
      requires Valid() && i < |accounts|
      modifies accounts[i], accounts[i].breaker
      ensures Valid()
      ensures var (acc, out) := P.Try(opts, old(View()).accounts[i], a);
              o == out && View() == old(View()).(accounts := old(View()).accounts[i := acc])
    {
      hide P.Try;
      o := accounts[i].TryToken(opts, a);
    }

    method GetToken(w: P.World) returns (r: P.Answer)
      requires Valid()
      modifies `index, accounts, Breakers()
      ensures Valid()
      ensures (View(), r) == P.GetToken(opts, old(View()), w)
    {
      hide P.Try, P.Scan;
      var n := |accounts|;
      if n == 0 {
        return P.NoAccounts;
      }
      if activeAccountID != "" {
        var f := FindPreferred();
        if f.Some? {
          P.TryKeeps(opts, View().accounts[f.value], w.preferred);
          var o := TryAt(f.value, w.preferred);
          if o.Granted? {
            return P.Answer(o.token, KeyOf(f.value), f.value, o.how);
          }
        }
      }
      r := Pass(w);
    }

    function KeyOf(i: nat): string
      requires i < |accounts|
      reads this
    {
      if accounts[i].id == "" then accounts[i].name else accounts[i].id
    }

    lemma {:induction false} KeyIsKey(i: nat)
      requires i < |accounts|
      ensures KeyOf(i) == P.Key(View().accounts[i])
    {
    }

    /** The first account the active id names. */
    method FindPreferred() returns (f: Option<nat>)
      ensures f == P.Preferred(View().accounts, activeAccountID, 0)
      ensures f.Some? ==> f.value < |accounts|
    {
      for i := 0 to |accounts|
        invariant P.Preferred(View().accounts, activeAccountID, 0) == P.Preferred(View().accounts, activeAccountID, i)
      {
        if accounts[i].id == activeAccountID || (accounts[i].id == "" && accounts[i].name == activeAccountID) {
          return Some(i);
        }
      }
      f := None;
    }

    /** One iteration of the round-robin pass: an answer, or on to the next account. */
    method PassStep(w: P.World, i: nat, saw: bool) returns (r: Option<P.Answer>, saw': bool)
      requires Valid() && i < |accounts|
      modifies `index, accounts, Breakers()
      ensures Valid() && accounts == old(accounts)
      ensures if r.Some? then (View(), r.value) == P.Scan(opts, old(View()), w, i, saw)
              else P.Scan(opts, View(), w, i + 1, saw') == P.Scan(opts, old(View()), w, i, saw)
    {
      hide P.Try, P.Scan, Views;
      P.ScanUnfolds(opts, View(), w, i, saw);
      var n := |accounts|;
      var idx := (index + i) % n;
      KeyIsKey(idx);
      var o := TryAt(idx, w.pool(idx));
      if o.Granted? {
        index := (idx + 1) % n;
        return Some(P.Answer(o.token, KeyOf(idx), idx, o.how)), saw;
      }
      r, saw' := None, saw || o.Failed?;
    }

    /** The round-robin pass. */
    method Pass(w: P.World) returns (r: P.Answer)
      requires Valid() && accounts != []
      modifies `index, accounts, Breakers()
      ensures Valid() && accounts == old(accounts)
      ensures (View(), r) == P.Scan(opts, old(View()), w, 0, false)
    {
      hide P.Try, P.Scan, Views;
      var sawFailure := false;
      for i := 0 to |accounts|
        invariant Valid() && accounts == old(accounts)
        invariant P.Scan(opts, View(), w, i, sawFailure) == P.Scan(opts, old(View()), w, 0, false)
      {
        var a;
        a, sawFailure := PassStep(w, i, sawFailure);
        if a.Some? {
          return a.value;
        }
      }
      P.ScanUnfolds(opts, View(), w, |accounts|, sawFailure);
      r := if sawFailure then P.AllUnavailable else P.AllBroken;
    }

    /** The account a report is about: by id, or by a name no other account has. */
    method FindReported(key: string) returns (who: Option<nat>)
      ensures who == P.Target(View().accounts, key)
      ensures who.Some? ==> who.value < |accounts|
    {
      for i := 0 to |accounts|
        invariant P.ById(View().accounts, key, 0) == P.ById(View().accounts, key, i)
      {
        if accounts[i].id != "" && accounts[i].id == key {
          return Some(i);
        }
      }
      var matched: Option<nat> := None;
      var count := 0;
      assert View().accounts[..0] == [];
      for i := 0 to |accounts|
        invariant count == P.CountNamed(View().accounts[..i], key)
        invariant matched == P.LastNamed(View().accounts[..i], key)
      {
        assert Front(View().accounts[..i + 1]) == View().accounts[..i];
        if accounts[i].name == key {
          matched := Some(i);
          count := count + 1;
        }
      }
      assert View().accounts[..|accounts|] == View().accounts;
      who := if count == 1 then matched else None;
    }

    /** Marks the account stale and charges its breaker. */
    method ReportFailure(key: string, now: int)
      requires Valid()
      modifies accounts, Breakers()
      ensures Valid() && View() == P.ReportFailure(opts, old(View()), key, now)
    {
      hide P.Target;
      var who := FindReported(key);
      if who.Some? {
        accounts[who.value].stale := true;
        accounts[who.value].breaker.RecordFailure(now);
        assert View().accounts == old(View()).accounts[who.value := accounts[who.value].View()];
      }
    }

    method ReportSuccess(key: string)
      requires Valid()
      modifies Breakers()
      ensures Valid() && View() == P.ReportSuccess(opts, old(View()), key)
    {
      hide P.Target;
      var who := FindReported(key);
      if who.Some? {
        accounts[who.value].breaker.RecordSuccess();
        assert View().accounts == old(View()).accounts[who.value := accounts[who.value].View()];
      }
    }
  }

  ghost function Views(accounts: seq<Account>): (r: seq<P.Account>)
    reads accounts, set a | a in accounts :: a.breaker
    ensures |r| == |accounts|
  {
    seq(|accounts|, i requires 0 <= i < |accounts| reads accounts, (set a | a in accounts :: a.breaker) =>
      accounts[i].View())
  }
}
