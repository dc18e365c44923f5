/** Fairness of Pool.GetToken without a preferred account: while the same accounts stay usable, they
    take turns. */
module RoundRobin {
  import opened Basics
  import opened Pool

  /** The pool after the calls answered under these worlds. */
  function Calls(opts: Options, p: Pool, worlds: seq<World>): Pool {
    if worlds == [] then p else GetToken(opts, Calls(opts, p, Front(worlds)), Last(worlds)).0
  }

  function AnswerOf(opts: Options, p: Pool, worlds: seq<World>, k: nat): Answer
    requires k < |worlds|
  {
    GetToken(opts, Calls(opts, p, worlds[..k]), worlds[k]).1
  }

  /** Exactly the accounts of H are usable, right now and in this world. */
  ghost predicate UsableAre(opts: Options, p: Pool, w: World, H: set<nat>) {
    forall j: nat :: j < |p.accounts| ==> (Usable(opts, p.accounts[j], w.pool(j)) <==> j in H)
  }

  /** All the runs considered: no preferred account, and before each call exactly H is usable. */
  ghost predicate Steady(opts: Options, p: Pool, worlds: seq<World>, H: set<nat>) {
    && p.active == "" && H != {} && (forall j :: j in H ==> j < |p.accounts|)
    && forall k :: 0 <= k < |worlds| ==> UsableAre(opts, Calls(opts, p, worlds[..k]), worlds[k], H)
  }

  /** to is the first member of H at or after place from of the cyclic order. */
  ghost predicate NextMember(H: set<nat>, n: nat, from: nat, to: nat) {
    n > 0 && to in H
    && exists d: nat :: d < n && to == At(from, d, n) && forall e: nat :: e < d ==> At(from, e, n) !in H
  }

  /** One call: it returns the next member of H and moves the index just past it. */
  lemma {:induction false} CallTakesNext(opts: Options, p: Pool, w: World, H: set<nat>)
    requires p.active == "" && p.accounts != [] && UsableAre(opts, p, w, H)
    requires exists j: nat :: j in H && j < |p.accounts|
    ensures var (q, r) := GetToken(opts, p, w); var n := |p.accounts|;
            && |q.accounts| == n && q.active == ""
            && r.Answer? && r.who < n && NextMember(H, n, p.index, r.who) && q.index == (r.who + 1) % n
  {
    hide Try, Scan, Usable;
    var n := |p.accounts|;
    var j: nat :| j in H && j < n;
    ScanFinds(opts, p, w, 0, false);
    var (q, r) := GetToken(opts, p, w);
    if !r.Answer? {
      var d := EveryAccountTried(p.index, j, n);
    } else {
      var d: nat :| d < n && r.who == At(p.index, d, n) && Usable(opts, p.accounts[r.who], w.pool(r.who))
                    && forall e :: 0 <= e < d ==>
                         !Usable(opts, p.accounts[At(p.index, e, n)], w.pool(At(p.index, e, n)));
      assert forall e: nat :: e < d ==> At(p.index, e, n) !in H;
    }
  }

  lemma {:induction false} CallsNext(opts: Options, p: Pool, worlds: seq<World>, k: nat)
    requires k < |worlds|
    ensures Calls(opts, p, worlds[..k + 1]) == GetToken(opts, Calls(opts, p, worlds[..k]), worlds[k]).0
  {
    hide GetToken;
    assert Front(worlds[..k + 1]) == worlds[..k];
  }

  lemma {:induction false} PoolKept(opts: Options, p: Pool, worlds: seq<World>, H: set<nat>, k: nat)
    requires Steady(opts, p, worlds, H) && k <= |worlds|
    ensures var q := Calls(opts, p, worlds[..k]); |q.accounts| == |p.accounts| > 0 && q.active == ""
  {
    hide GetToken, UsableAre;
    if k > 0 {
      PoolKept(opts, p, worlds, H, k - 1);
      CallsNext(opts, p, worlds, k - 1);
      CallTakesNext(opts, Calls(opts, p, worlds[..k - 1]), worlds[k - 1], H);
    }
  }

  // ---- Places: the cyclic order laid out on the line ----

  /** The accounts met at the places from base to just before place. */
  ghost function Met(H: set<nat>, n: nat, base: nat, place: nat): set<nat>
    requires n > 0
  {
    set q: nat | base <= q < place && Wrap(q, n) in H :: Wrap(q, n)
  }

  lemma {:induction false} PlacesDiffer(a: nat, b: nat, n: nat)
    requires a < b < a + n
    ensures Wrap(a, n) != Wrap(b, n)
  {
    DistinctTries(a, 0, b - a, n);
  }

  lemma {:induction false} AtIsWrap(from: nat, n: nat)
    requires n > 0
    ensures forall e: nat :: At(from, e, n) == Wrap(from + e, n)
  {
  }

  /** Moving from place on to the next member of H, while some member is still missing, meets exactly
      one new account and stays within one round. */
  lemma {:induction false} MeetOneMore(H: set<nat>, n: nat, base: nat, place: nat, who: nat) returns (next: nat)
    requires n > 0 && (forall j :: j in H ==> j < n)
    requires base <= place <= base + n && Met(H, n, base, place) < H
    requires NextMember(H, n, place, who)
    ensures place < next <= base + n && Wrap(next, n) == Wrap(who + 1, n)
    ensures who !in Met(H, n, base, place)
    ensures Met(H, n, base, next) == Met(H, n, base, place) + {who}
  {
    hide Wrap, At;
    var d: nat :| d < n && who == At(place, d, n) && forall e: nat :: e < d ==> At(place, e, n) !in H;
    AtIsWrap(place, n);
    var q := place + d;
    next := q + 1;
    var m := MissingPlace(H, n, base, place);
    var e: nat := m - place;
    assert At(place, e, n) in H;
    forall r: nat | base <= r < q ensures Wrap(r, n) != who {
      PlacesDiffer(r, q, n);
    }
    forall r: nat | place <= r < q ensures Wrap(r, n) !in H {
      var e: nat := r - place;
      assert At(place, e, n) !in H;
    }
    SuccessorMod(q, n);
  }

  /** A member not yet met has a place later in the round. */
  lemma {:induction false} MissingPlace(H: set<nat>, n: nat, base: nat, place: nat) returns (m: nat)
    requires n > 0 && (forall j :: j in H ==> j < n)
    requires Met(H, n, base, place) < H
    ensures place <= m < base + n && Wrap(m, n) in H
  {
    hide Wrap, At;
    var missing :| missing in H && missing !in Met(H, n, base, place);
    var o := EveryAccountTried(base, missing, n);
    AtIsWrap(base, n);
    m := base + o;
    assert Wrap(m, n) == missing;
  }

  function Wrap(x: nat, n: nat): nat
    requires n > 0
  {
    x % n
  }

  lemma {:induction false} SuccessorMod(q: nat, n: nat)
    requires n > 0
    ensures Wrap(q + 1, n) == Wrap(Wrap(q, n) + 1, n)
  {
    var k, r := q / n, q % n;
    assert q == n * k + r;
    MulNext(n, k);
    if r + 1 < n {
      QuotientIs(q + 1, n, k, r + 1);
      QuotientIs(r + 1, n, 0, r + 1);
    } else {
      QuotientIs(q + 1, n, k + 1, 0);
      QuotientIs(n, n, 1, 0);
    }
  }

  lemma {:induction false} MulNext(n: nat, k: nat)
    ensures n * (k + 1) == n * k + n && n * 0 == 0 && n * 1 == n
  {
  }

  /** Starting the search from a place is starting it from the index the place has modulo n. */
  lemma {:induction false} SameStart(H: set<nat>, n: nat, index: nat, place: nat, to: nat)
    requires n > 0 && Wrap(index, n) == Wrap(place, n) && NextMember(H, n, index, to)
    ensures NextMember(H, n, place, to)
  {
    var d: nat :| d < n && to == At(index, d, n) && forall e: nat :: e < d ==> At(index, e, n) !in H;
    forall e: nat | e <= d ensures At(place, e, n) == At(index, e, n) {
      AddMod(index, place, e, n);
    }
  }

  lemma {:induction false} AddMod(x: nat, y: nat, e: nat, n: nat)
    requires n > 0 && Wrap(x, n) == Wrap(y, n)
    ensures Wrap(x + e, n) == Wrap(y + e, n)
  {
    hide Wrap;
    if e > 0 {
      AddMod(x, y, e - 1, n);
      SuccessorMod(x + (e - 1), n);
      SuccessorMod(y + (e - 1), n);
    }
  }

  // ---- The theorem ----

  /** The accounts that answered calls 0 to k - 1. */
  ghost function Served(opts: Options, p: Pool, worlds: seq<World>, k: nat): set<nat>
    requires k <= |worlds|
  {
    set i: nat | i < k && AnswerOf(opts, p, worlds, i).Answer? :: AnswerOf(opts, p, worlds, i).who
  }

  lemma {:induction false} ServedNext(opts: Options, p: Pool, worlds: seq<World>, k: nat)
    requires k < |worlds| && AnswerOf(opts, p, worlds, k).Answer?
    ensures Served(opts, p, worlds, k + 1) == Served(opts, p, worlds, k) + {AnswerOf(opts, p, worlds, k).who}
  {
    hide AnswerOf;
  }

  /** After k calls of the round, k different accounts have been served: those met up to some place. */
  lemma {:induction false} RoundSoFar(opts: Options, p: Pool, worlds: seq<World>, H: set<nat>,
                                      k: nat) returns (place: nat)
    requires Steady(opts, p, worlds, H) && k <= |worlds| && k <= |H|
    ensures p.index <= place <= p.index + |p.accounts| && |p.accounts| > 0
    ensures Wrap(Calls(opts, p, worlds[..k]).index, |p.accounts|) == Wrap(place, |p.accounts|)
    ensures Served(opts, p, worlds, k) == Met(H, |p.accounts|, p.index, place)
    ensures |Served(opts, p, worlds, k)| == k && Served(opts, p, worlds, k) <= H
    ensures forall i :: 0 <= i < k ==> AnswerOf(opts, p, worlds, i).Answer?
  {
    hide GetToken, UsableAre, Met, NextMember, Served, Wrap, Calls;
    var n := |p.accounts|;
    var first :| first in H;
    if k == 0 {
      place := p.index;
      RoundStarts(opts, p, worlds, H);
    } else {
      var before := RoundSoFar(opts, p, worlds, H, k - 1);
      PoolKept(opts, p, worlds, H, k - 1);
      CallsNext(opts, p, worlds, k - 1);
      var q := Calls(opts, p, worlds[..k - 1]);
      CallTakesNext(opts, q, worlds[k - 1], H);
      var who := AnswerOf(opts, p, worlds, k - 1).who;
      SameStart(H, n, q.index, before, who);
      MemberOf(H, n, q.index, who);
      assert Met(H, n, p.index, before) != H;
      place := MeetOneMore(H, n, p.index, before, who);
      ServedNext(opts, p, worlds, k - 1);
      ModOnce(who + 1, n);
    }
  }

  lemma {:induction false} RoundStarts(opts: Options, p: Pool, worlds: seq<World>, H: set<nat>)
    requires p.accounts != []
    ensures Calls(opts, p, worlds[..0]) == p
    ensures Met(H, |p.accounts|, p.index, p.index) == Served(opts, p, worlds, 0) == {}
  {
    assert worlds[..0] == [];
  }

  lemma {:induction false} MemberOf(H: set<nat>, n: nat, from: nat, to: nat)
    requires NextMember(H, n, from, to)
    ensures to in H
  {
  }

  lemma {:induction false} ModOnce(x: nat, n: nat)
    requires n > 0
    ensures Wrap(x % n, n) == Wrap(x, n)
  {
  }

  lemma {:induction false} SubsetOfSameSize(a: set<nat>, b: set<nat>)
    requires a <= b && |a| == |b|
    ensures a == b
  {
    if a != b {
      var x :| x in b && x !in a;
      assert a <= b - {x};
      SizeOfSubset(a, b - {x});
    }
  }

  lemma {:induction false} SizeOfSubset(a: set<nat>, b: set<nat>)
    requires a <= b
    ensures |a| <= |b|
  {
    if a != {} {
      var x :| x in a;
      SizeOfSubset(a - {x}, b - {x});
    }
  }

  /** Any |H| consecutive calls: every call succeeds, every member of H is served exactly once (|H|
      calls, all of H served), and each call takes the next member in cyclic order after the last. */
  lemma {:induction false} RoundServesEachOnce(opts: Options, p: Pool, worlds: seq<World>, H: set<nat>)
    requires Steady(opts, p, worlds, H) && |worlds| == |H|
    ensures forall i :: 0 <= i < |worlds| ==> AnswerOf(opts, p, worlds, i).Answer?
    ensures Served(opts, p, worlds, |worlds|) == H
    ensures forall i, j :: 0 <= i < j < |worlds| ==>
              AnswerOf(opts, p, worlds, i).who != AnswerOf(opts, p, worlds, j).who
    ensures forall i :: 0 < i < |worlds| ==>
              NextMember(H, |p.accounts|, (AnswerOf(opts, p, worlds, i - 1).who + 1) % |p.accounts|,
                         AnswerOf(opts, p, worlds, i).who)
  {
    hide GetToken, UsableAre, AnswerOf, Served;
    var place := RoundSoFar(opts, p, worlds, H, |worlds|);
    SubsetOfSameSize(Served(opts, p, worlds, |worlds|), H);
    forall i, j | 0 <= i < j < |worlds|
      ensures AnswerOf(opts, p, worlds, i).who != AnswerOf(opts, p, worlds, j).who
    {
      NotServedTwice(opts, p, worlds, H, i, j);
    }
    forall i | 0 < i < |worlds|
      ensures NextMember(H, |p.accounts|, (AnswerOf(opts, p, worlds, i - 1).who + 1) % |p.accounts|,
                         AnswerOf(opts, p, worlds, i).who)
    {
      TakesTurns(opts, p, worlds, H, i);
    }
  }

  lemma {:induction false} NotServedTwice(opts: Options, p: Pool, worlds: seq<World>, H: set<nat>, i: nat, j: nat)
    requires Steady(opts, p, worlds, H) && |worlds| == |H| && i < j < |worlds|
    ensures AnswerOf(opts, p, worlds, i).Answer? && AnswerOf(opts, p, worlds, j).Answer?
    ensures AnswerOf(opts, p, worlds, i).who != AnswerOf(opts, p, worlds, j).who
  {
    hide GetToken, UsableAre, AnswerOf;
    var a := RoundSoFar(opts, p, worlds, H, j);
    var b := RoundSoFar(opts, p, worlds, H, j + 1);
    ServedNext(opts, p, worlds, j);
    assert AnswerOf(opts, p, worlds, i).who in Served(opts, p, worlds, j);
  }

  lemma {:induction false} TakesTurns(opts: Options, p: Pool, worlds: seq<World>, H: set<nat>, i: nat)
    requires Steady(opts, p, worlds, H) && 0 < i < |worlds|
    ensures |p.accounts| > 0 && AnswerOf(opts, p, worlds, i - 1).Answer? && AnswerOf(opts, p, worlds, i).Answer?
    ensures NextMember(H, |p.accounts|, (AnswerOf(opts, p, worlds, i - 1).who + 1) % |p.accounts|,
                       AnswerOf(opts, p, worlds, i).who)
  {
    hide GetToken, UsableAre, NextMember;
    var first :| first in H;
    PoolKept(opts, p, worlds, H, i - 1);
    PoolKept(opts, p, worlds, H, i);
    CallsNext(opts, p, worlds, i - 1);
    CallTakesNext(opts, Calls(opts, p, worlds[..i - 1]), worlds[i - 1], H);
    CallTakesNext(opts, Calls(opts, p, worlds[..i]), worlds[i], H);
  }
}
