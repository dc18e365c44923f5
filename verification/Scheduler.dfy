/** internal/queue/scheduler.go: four deques by priority, refining one list in order of arrival. */
module Scheduler {
  import opened Basics

  const LOW := 1
  const NORMAL := 5
  const HIGH := 10
  const VIP := 100

  /** Most urgent first. */
  const LEVELS: seq<int> := [VIP, HIGH, NORMAL, LOW]

  datatype Request = Request(id: string, priority: int, addedAt: int, updatedAt: int)

  /** Requests of an unknown priority are queued as normal ones. */
  function Level(r: Request): int {
    if r.priority in LEVELS then r.priority else NORMAL
  }

  // ---- The reference: one list of waiting requests, oldest first ----

  /** The waiting requests of a level, oldest first. */
  function OfLevel(waiting: seq<Request>, level: int): seq<Request> {
    if waiting == [] then []
    else OfLevel(Front(waiting), level) + if Level(Last(waiting)) == level then [Last(waiting)] else []
  }

  /** The place of the oldest request of a level. */
  function Oldest(waiting: seq<Request>, level: int): Option<nat> {
    if waiting == [] then None
    else if Oldest(Front(waiting), level).Some? then Oldest(Front(waiting), level)
    else if Level(Last(waiting)) == level then Some(|waiting| - 1)
    else None
  }

  lemma {:induction false} OldestIs(waiting: seq<Request>, level: int)
    ensures var r := Oldest(waiting, level);
            && (r.Some? ==> r.value < |waiting| && Level(waiting[r.value]) == level
                            && forall k :: 0 <= k < r.value ==> Level(waiting[k]) != level)
            && (r.None? ==> forall k :: 0 <= k < |waiting| ==> Level(waiting[k]) != level)
  {
    if waiting != [] {
      OldestIs(Front(waiting), level);
      assert forall k :: 0 <= k < |waiting| - 1 ==> Front(waiting)[k] == waiting[k];
    }
  }

  /** The place of the oldest request of the most urgent non-empty level, from the i-th level on. */
  function ChooseFrom(waiting: seq<Request>, i: nat): Option<nat>
    requires i <= |LEVELS|
    decreases |LEVELS| - i
  {
    if i == |LEVELS| then None
    else if Oldest(waiting, LEVELS[i]).Some? then Oldest(waiting, LEVELS[i])
    else ChooseFrom(waiting, i + 1)
  }

  function Choose(waiting: seq<Request>): Option<nat> {
    ChooseFrom(waiting, 0)
  }

  function Without(waiting: seq<Request>, k: nat): seq<Request>
    requires k < |waiting|
  {
    waiting[..k] + waiting[k + 1..]
  }

  /** VIP requests come first, then high ones, low ones last; all others are normal. */
  function Rank(r: Request): int {
    if r.priority == 100 then 0 else if r.priority == 10 then 1 else if r.priority == 1 then 3 else 2
  }

  /** The choice: nothing waiting is more urgent, nothing as urgent has waited longer, and something is
      chosen unless nothing waits at all. */
  lemma {:induction false} ChoiceIsRight(waiting: seq<Request>)
    ensures Choose(waiting).None? <==> waiting == []
    ensures Choose(waiting).Some? ==>
              var k := Choose(waiting).value;
              && k < |waiting|
              && (forall j :: 0 <= j < |waiting| ==> Rank(waiting[k]) <= Rank(waiting[j]))
              && (forall j :: 0 <= j < k ==> Rank(waiting[k]) < Rank(waiting[j]))
  {
    hide Level;
    OldestIs(waiting, VIP);
    OldestIs(waiting, HIGH);
    OldestIs(waiting, NORMAL);
    OldestIs(waiting, LOW);
    ChooseUnrolled(waiting);
    forall j | 0 <= j < |waiting|
      ensures Level(waiting[j]) == if Rank(waiting[j]) == 0 then VIP else if Rank(waiting[j]) == 1 then HIGH
                                   else if Rank(waiting[j]) == 2 then NORMAL else LOW
    {
      LevelIs(waiting[j]);
    }
  }

  lemma {:induction false} LevelIs(r: Request)
    ensures Level(r) == if Rank(r) == 0 then VIP else if Rank(r) == 1 then HIGH
                        else if Rank(r) == 2 then NORMAL else LOW
  {
  }

  lemma {:induction false} ChooseUnrolled(waiting: seq<Request>)
    ensures Choose(waiting)
            == if Oldest(waiting, VIP).Some? then Oldest(waiting, VIP)
               else if Oldest(waiting, HIGH).Some? then Oldest(waiting, HIGH)
               else if Oldest(waiting, NORMAL).Some? then Oldest(waiting, NORMAL)
               else Oldest(waiting, LOW)
  {
    assert ChooseFrom(waiting, 4) == None;
    assert ChooseFrom(waiting, 3) == Oldest(waiting, LOW);
    assert ChooseFrom(waiting, 2)
        == if Oldest(waiting, NORMAL).Some? then Oldest(waiting, NORMAL) else Oldest(waiting, LOW);
    assert ChooseFrom(waiting, 1)
        == if Oldest(waiting, HIGH).Some? then Oldest(waiting, HIGH) else ChooseFrom(waiting, 2);
  }

  // ---- How the deques see the list ----

  lemma {:induction false} LevelSnoc(waiting: seq<Request>, r: Request, level: int)
    ensures OfLevel(waiting + [r], level) == OfLevel(waiting, level) + if Level(r) == level then [r] else []
  {
    SnocParts(waiting, r);
  }

  /** The head of a level's deque is the oldest request of that level. */
  lemma {:induction false} HeadIsOldest(waiting: seq<Request>, level: int)
    ensures Oldest(waiting, level).Some? <==> OfLevel(waiting, level) != []
    ensures Oldest(waiting, level).Some? ==>
              Oldest(waiting, level).value < |waiting|
              && OfLevel(waiting, level)[0] == waiting[Oldest(waiting, level).value]
  {
    if waiting != [] {
      HeadIsOldest(Front(waiting), level);
    }
  }

  /** Removing the oldest request of a level takes the head off its deque and leaves the others alone. */
  lemma {:induction false} RemoveOldest(waiting: seq<Request>, level: int, other: int)
    requires Oldest(waiting, level).Some?
    ensures var k := Oldest(waiting, level).value;
            && k < |waiting| && OfLevel(waiting, level) != []
            && OfLevel(Without(waiting, k), other)
               == if other == level then OfLevel(waiting, level)[1..] else OfLevel(waiting, other)
  {
    hide OfLevel, Oldest;
    OldestIs(waiting, level);
    HeadIsOldest(waiting, level);
    var before, r := Front(waiting), Last(waiting);
    assert before + [r] == waiting;
    OldestSnoc(before, r, level);
    HeadIsOldest(before, level);
    OldestIs(before, level);
    LevelSnoc(before, r, level);
    LevelSnoc(before, r, other);
    var k := Oldest(waiting, level).value;
    if Oldest(before, level).Some? {
      RemoveOldest(before, level, other);
      assert Without(waiting, k) == Without(before, k) + [r];
      LevelSnoc(Without(before, k), r, other);
    } else {
      assert Without(waiting, k) == before;
      assert OfLevel(before, other) + [] == OfLevel(before, other);
    }
  }

  lemma {:induction false} OldestSnoc(before: seq<Request>, r: Request, level: int)
    ensures Oldest(before + [r], level)
            == if Oldest(before, level).Some? then Oldest(before, level)
               else if Level(r) == level then Some(|before|) else None
  {
    hide Oldest, Level;
    SnocParts(before, r);
    OldestUnfolds(before + [r], level);
  }

  lemma {:induction false} OldestUnfolds(waiting: seq<Request>, level: int)
    requires waiting != []
    ensures Oldest(waiting, level)
            == if Oldest(Front(waiting), level).Some? then Oldest(Front(waiting), level)
               else if Level(Last(waiting)) == level then Some(|waiting| - 1) else None
  {
    hide Level;
  }

  // ---- The scheduler object ----

  class Deque {
    var list: seq<Request>

    constructor ()
      ensures list == []
    {
      list := [];
    }

    method PushBack(r: Request)
      modifies this
      ensures list == old(list) + [r]
    {
      list := list + [r];
    }

    method PopFront() returns (r: Option<Request>)
      modifies this
      ensures if old(list) == [] then r == None && list == [] else r == Some(old(list)[0]) && list == old(list)[1..]
    {
      if |list| == 0 {
        return None;
      }
      r := Some(list[0]);
      list := list[1..];
    }
  }

  class Scheduler {
    const queues: map<int, Deque>
    const maxLen: int
    ghost var waiting: seq<Request>     // everything queued, in order of arrival

    /** Four deques, each holding the waiting requests of its level in order of arrival. */
    ghost predicate Valid()
      reads this, queues.Values
    {
      && queues.Keys == {VIP, HIGH, NORMAL, LOW}
      && (forall p, q :: p in queues && q in queues && p != q ==> queues[p] != queues[q])
      && (forall p :: p in queues ==> queues[p].list == OfLevel(waiting, p))
      && |waiting| <= if maxLen > 0 then maxLen else 0
    }

    constructor (maxLen: int)
      ensures Valid() && waiting == [] && this.maxLen == maxLen
      ensures forall p :: p in queues ==> fresh(queues[p])
    {
      this.maxLen := maxLen;
      var vip := new Deque();
      var high := new Deque();
      var normal := new Deque();
      var low := new Deque();
      queues := map[VIP := vip, HIGH := high, NORMAL := normal, LOW := low];
      waiting := [];
    }

    method GetQueueLength() returns (total: nat)
      requires Valid()
      ensures total == |waiting|
    {
      total := 0;
      for i := 0 to |LEVELS|
        invariant total == LengthOf(waiting, i)
      {
        assert LEVELS[i] in queues;
        total := total + |queues[LEVELS[i]].list|;
        LengthNext(waiting, i);
      }
      AllLevelsCounted(waiting);
    }

    method Enqueue(r: Request, now: int) returns (ok: bool)
      requires Valid()
      modifies this, queues.Values
      ensures Valid() && ok == (|old(waiting)| < maxLen)
      ensures waiting == if ok then old(waiting) + [r.(addedAt := now, updatedAt := now)] else old(waiting)
    {
      var total := GetQueueLength();
      if total >= maxLen {
        return false;
      }
      var q := r.(addedAt := now, updatedAt := now);
      LevelKnown(q);
      var key := if q.priority in queues then q.priority else NORMAL;
      forall p | p in queues ensures OfLevel(waiting + [q], p) == OfLevel(waiting, p) + if key == p then [q] else [] {
        LevelSnoc(waiting, q, p);
      }
      queues[key].PushBack(q);
      waiting := waiting + [q];
      ok := true;
    }

    /** Takes the oldest request of a level, if there is one. */
    method PopLevel(level: int) returns (r: Option<Request>)
      requires Valid() && level in queues
      modifies `waiting, queues.Values
      ensures Valid()
      ensures var k := Oldest(old(waiting), level);
              if k.None? || k.value >= |old(waiting)| then r == None && waiting == old(waiting)
              else r == Some(old(waiting)[k.value]) && waiting == Without(old(waiting), k.value)
    {
      hide OfLevel, Oldest;
      OldestIs(waiting, level);
      HeadIsOldest(waiting, level);
      ghost var k := Oldest(waiting, level);
      if k.Some? {
        forall p ensures OfLevel(Without(waiting, k.value), p)
                         == if p == level then OfLevel(waiting, level)[1..] else OfLevel(waiting, p) {
          RemoveOldest(waiting, level, p);
        }
      }
      r := queues[level].PopFront();
      if r.Some? {
        waiting := Without(waiting, k.value);
      }
    }

    method Dequeue() returns (r: Option<Request>)
      requires Valid()
      modifies this, queues.Values
      ensures Valid()
      ensures var k := Choose(old(waiting));
              if k.None? || k.value >= |old(waiting)| then r == None && waiting == old(waiting)
              else r == Some(old(waiting)[k.value]) && waiting == Without(old(waiting), k.value)
    {
      for i := 0 to |LEVELS|
        invariant Valid() && waiting == old(waiting)
        invariant Choose(waiting) == ChooseFrom(waiting, i)
      {
        hide Oldest;
        assert LEVELS[i] in queues;
        OldestIs(waiting, LEVELS[i]);
        r := PopLevel(LEVELS[i]);
        if r.Some? {
          return;
        }
      }
      r := None;
    }
  }

  lemma {:induction false} LevelKnown(r: Request)
    ensures (if r.priority in {VIP, HIGH, NORMAL, LOW} then r.priority else NORMAL) == Level(r)
    ensures Level(r) in {VIP, HIGH, NORMAL, LOW}
  {
  }

  /** The lengths of the first i deques. */
  function LengthOf(waiting: seq<Request>, i: nat): nat
    requires i <= |LEVELS|
  {
    if i == 0 then 0 else LengthOf(waiting, i - 1) + |OfLevel(waiting, LEVELS[i - 1])|
  }

  lemma {:induction false} LengthNext(waiting: seq<Request>, i: nat)
    requires i < |LEVELS|
    ensures LengthOf(waiting, i + 1) == LengthOf(waiting, i) + |OfLevel(waiting, LEVELS[i])|
  {
  }

  lemma {:induction false} LengthUnrolled(waiting: seq<Request>)
    ensures LengthOf(waiting, |LEVELS|)
            == |OfLevel(waiting, VIP)| + |OfLevel(waiting, HIGH)| + |OfLevel(waiting, NORMAL)| + |OfLevel(waiting, LOW)|
  {
    LengthNext(waiting, 3);
    LengthNext(waiting, 2);
    LengthNext(waiting, 1);
    LengthNext(waiting, 0);
  }

  /** Every waiting request is in exactly one deque. */
  lemma {:induction false} AllLevelsCounted(waiting: seq<Request>)
    ensures LengthOf(waiting, |LEVELS|) == |waiting|
  {
    LengthUnrolled(waiting);
    if waiting != [] {
      AllLevelsCounted(Front(waiting));
      LengthUnrolled(Front(waiting));
      LevelKnown(Last(waiting));
    }
  }

  // ---- Whole runs of the reference ----

  datatype Op = Enqueue(r: Request, now: int) | Dequeue

  /** What waits, what was accepted and what was handed out so far. */
  datatype Trace = Trace(waiting: seq<Request>, accepted: seq<Request>, served: seq<Request>)

  function Step(maxLen: int, t: Trace, op: Op): Trace {
    match op
    case Enqueue(r, now) =>
      if |t.waiting| < maxLen then
        var q := r.(addedAt := now, updatedAt := now);
        t.(waiting := t.waiting + [q], accepted := t.accepted + [q])
      else t
    case Dequeue =>
      var k := Choose(t.waiting);
      if k.None? || k.value >= |t.waiting| then t
      else t.(waiting := Without(t.waiting, k.value), served := t.served + [t.waiting[k.value]])
  }

  function Run(maxLen: int, ops: seq<Op>): Trace {
    if ops == [] then Trace([], [], []) else Step(maxLen, Run(maxLen, Front(ops)), Last(ops))
  }

  lemma {:induction false} WithoutConserves(waiting: seq<Request>, k: nat)
    requires k < |waiting|
    ensures multiset(waiting) == multiset(Without(waiting, k)) + multiset{waiting[k]}
  {
    assert waiting == waiting[..k] + [waiting[k]] + waiting[k + 1..];
  }

  /** What every run keeps: served, then waiting, is exactly what was accepted, as a collection and,
      level by level, in order. */
  ghost predicate Conserved(t: Trace, level: int) {
    && multiset(t.accepted) == multiset(t.served) + multiset(t.waiting)
    && OfLevel(t.served, level) + OfLevel(t.waiting, level) == OfLevel(t.accepted, level)
  }

  /** In every run nothing is lost, nothing duplicated, within each level requests leave in the order
      they came, and the queue never grows past its limit. */
  lemma {:induction false} RunConserves(maxLen: int, ops: seq<Op>, level: int)
    ensures Conserved(Run(maxLen, ops), level)
    ensures |Run(maxLen, ops).waiting| <= if maxLen > 0 then maxLen else 0
  {
    hide Choose, OfLevel, Without, Conserved;
    if ops == [] {
      NothingYet(level);
    } else {
      var t := Run(maxLen, Front(ops));
      RunConserves(maxLen, Front(ops), level);
      match Last(ops) {
        case Enqueue(r, now) => AcceptStep(t, r.(addedAt := now, updatedAt := now), level);
        case Dequeue =>
          if Choose(t.waiting).Some? && Choose(t.waiting).value < |t.waiting| {
            ServeStep(t, level);
          }
      }
    }
  }

  lemma {:induction false} NothingYet(level: int)
    ensures Conserved(Trace([], [], []), level)
  {
  }

  lemma {:induction false} AcceptStep(t: Trace, q: Request, level: int)
    requires Conserved(t, level)
    ensures Conserved(t.(waiting := t.waiting + [q], accepted := t.accepted + [q]), level)
  {
    hide OfLevel;
    LevelSnoc(t.waiting, q, level);
    LevelSnoc(t.accepted, q, level);
    var extra := if Level(q) == level then [q] else [];
    assert OfLevel(t.served, level) + (OfLevel(t.waiting, level) + extra)
        == (OfLevel(t.served, level) + OfLevel(t.waiting, level)) + extra;
  }

  lemma {:induction false} ServeStep(t: Trace, level: int)
    requires Choose(t.waiting).Some? && Choose(t.waiting).value < |t.waiting|
    requires Conserved(t, level)
    ensures var k := Choose(t.waiting).value;
            && Conserved(t.(waiting := Without(t.waiting, k), served := t.served + [t.waiting[k]]), level)
            && |Without(t.waiting, k)| < |t.waiting|
  {
    hide OfLevel, Oldest;
    var k := Choose(t.waiting).value;
    var r := t.waiting[k];
    ChosenIsOldest(t.waiting);
    WithoutConserves(t.waiting, k);
    LevelSnoc(t.served, r, level);
    RemoveOldest(t.waiting, Level(r), level);
    HeadIsOldest(t.waiting, Level(r));
    var w := OfLevel(t.waiting, level);
    if level == Level(r) {
      assert w == [r] + w[1..];
      assert (OfLevel(t.served, level) + [r]) + w[1..] == OfLevel(t.served, level) + ([r] + w[1..]);
    } else {
      assert OfLevel(t.served, level) + [] == OfLevel(t.served, level);
    }
  }

  lemma {:induction false} ChosenIsOldest(waiting: seq<Request>)
    requires Choose(waiting).Some?
    ensures var k := Choose(waiting).value;
            k < |waiting| && Oldest(waiting, Level(waiting[k])) == Some(k)
  {
    ChooseUnrolled(waiting);
    OldestIs(waiting, VIP);
    OldestIs(waiting, HIGH);
    OldestIs(waiting, NORMAL);
    OldestIs(waiting, LOW);
  }
}
