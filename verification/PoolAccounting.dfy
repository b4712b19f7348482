/** A pool and its allocation units: creation under the size limit, the two halves of the cleanup
    finalizer, and the deletion of the pool by the last finalizer. */
module PoolAccounting {
  import opened Wrappers
  import opened StageChain
  import opened UnitLifecycle

  datatype Pool = Pool(size: int, maxSize: nat, locked: bool)

  /** A finalizer between its halves: the size it has read, and whether it is to delete the pool. */
  datatype Pending = Pending(id: nat, read: int, drops: bool)

  /** A queued finalizer whose unit has been deleted. */
  datatype Stray = Stray(id: nat, drops: bool)

  datatype System = System(pool: Option<Pool>, units: map<nat, Unit>, nextId: nat, pending: seq<Pending>,
                           strays: seq<Stray>)

  /** The finalizer of the present cleanup stages of a unit, or one left over from replaced stages. */
  datatype Finalizer = Present | Leftover(k: nat)

  datatype SysEvent =
    | Create(count: Option<int>)
    | UnitEvent(id: nat, e: Event)
    | Decrement(id: nat, job: Finalizer)
    | DecrementStray(k: nat)
    | Fail(id: nat, job: Finalizer)
    | FailStray(k: nat)
    | Complete(j: nat)
    | LockPool
    | UnlockPool
    | DeletePool

  function EmptyPool(maxSize: nat): System {
    System(Some(Pool(0, maxSize, false)), map[], 0, [], [])
  }

  /** No count given means filling the pool up. */
  function Count(p: Pool, count: Option<int>): int {
    match count case None => p.maxSize - p.size case Some(n) => n
  }

  predicate InQueue(u: Unit, job: Finalizer) {
    match job case Present => FinalizerDue(u) case Leftover(k) => k < |u.leftover|
  }

  predicate SysCan(s: System, e: SysEvent) {
    match e
    // the size column refuses negative numbers
    case Create(count) =>
      s.pool.Some? && 0 <= s.pool.value.size + Count(s.pool.value, count) <= s.pool.value.maxSize
    case UnitEvent(id, ev) => id in s.units && CanHappen(s.units[id], ev)
    case Decrement(id, job) =>
      s.pool.Some? && s.pool.value.size > 0 && id in s.units && InQueue(s.units[id], job)
    case DecrementStray(k) => s.pool.Some? && s.pool.value.size > 0 && k < |s.strays|
    // the size column refuses negative numbers, and then the job fails
    case Fail(id, job) => s.pool.Some? && s.pool.value.size == 0 && id in s.units && InQueue(s.units[id], job)
    case FailStray(k) => (s.pool.Some? ==> s.pool.value.size == 0) && k < |s.strays|
    case Complete(j) => j < |s.pending|
    case LockPool => s.pool.Some? && !s.pool.value.locked
    case UnlockPool => s.pool.Some? && s.pool.value.locked
    // deleting a pool that has units or a lock is refused by the database
    case DeletePool => s.pool.Some? && s.units == map[] && !s.pool.value.locked
  }

  /** Whether the finalizer is to delete the pool as well. */
  function Drops(u: Unit, job: Finalizer): bool
    requires InQueue(u, job)
  {
    match job case Present => u.cleanupDrops case Leftover(k) => u.leftover[k]
  }

  /** The unit when the finalizer is no longer queued. */
  function Taken(u: Unit, job: Finalizer): Unit
    requires InQueue(u, job)
  {
    match job
    case Present => u.(cleanup := Some(RunFinalizer(u.cleanup.value)))
    case Leftover(k) => u.(leftover := Without(u.leftover, k))
  }

  /** The unit when the finalizer has run its first half. */
  function Decremented(u: Unit, job: Finalizer): Unit
    requires InQueue(u, job)
  {
    Taken(u, job).(decremented := true)
  }

  function Left(id: nat, leftover: seq<bool>): seq<Stray> {
    seq(|leftover|, i requires 0 <= i < |leftover| => Stray(id, leftover[i]))
  }

  /** The finalizers that are queued when the unit is deleted. */
  function StraysOf(id: nat, u: Unit): seq<Stray> {
    Left(id, u.leftover) + (if FinalizerDue(u) then [Stray(id, u.cleanupDrops)] else [])
  }

  /** `create_allocations_requests`: one new unit per round, none for a count below one. */
  function WithNewUnits(units: map<nat, Unit>, first: nat, n: int): map<nat, Unit>
    decreases n
  {
    if n <= 0 then units else WithNewUnits(units, first, n - 1)[first + n - 1 := NEW_UNIT]
  }

  /** The second half finds the unit with a sandbox, so that the database refuses to delete it. */
  predicate Refused(units: map<nat, Unit>, p: Pending) {
    p.id in units && units[p.id].sandbox.Some?
  }

  /** The pool after the second half of a finalizer that leaves these units. */
  function PoolAfter(pool: Option<Pool>, p: Pending, units: map<nat, Unit>): Option<Pool> {
    if pool.Some? && !pool.value.locked && p.read == 0 && p.drops && units == map[] then None else pool
  }

  function Completed(s: System, j: nat): System
    requires j < |s.pending|
  {
    var p, rest := s.pending[j], Without(s.pending, j);
    if Refused(s.units, p) then s.(pending := rest) else
    System(PoolAfter(s.pool, p, s.units - {p.id}), s.units - {p.id}, s.nextId, rest,
           s.strays + (if p.id in s.units then StraysOf(p.id, s.units[p.id]) else []))
  }

  function SysNext(s: System, e: SysEvent): System
    requires SysCan(s, e)
  {
    match e
    case Create(count) =>
      var n := Count(s.pool.value, count);
      s.(pool := Some(s.pool.value.(size := s.pool.value.size + n)), units := WithNewUnits(s.units, s.nextId, n),
         nextId := s.nextId + (if n > 0 then n else 0))
    case UnitEvent(id, ev) => s.(units := s.units[id := Happen(s.units[id], ev)])
    case Decrement(id, job) =>
      var size := s.pool.value.size - 1;
      s.(pool := Some(s.pool.value.(size := size)), units := s.units[id := Decremented(s.units[id], job)],
         pending := s.pending + [Pending(id, size, Drops(s.units[id], job))])
    case DecrementStray(k) =>
      var size := s.pool.value.size - 1;
      s.(pool := Some(s.pool.value.(size := size)), strays := Without(s.strays, k),
         pending := s.pending + [Pending(s.strays[k].id, size, s.strays[k].drops)])
    case Fail(id, job) => s.(units := s.units[id := Taken(s.units[id], job)])
    case FailStray(k) => s.(strays := Without(s.strays, k))
    case Complete(j) => Completed(s, j)
    case LockPool => s.(pool := Some(s.pool.value.(locked := true)))
    case UnlockPool => s.(pool := Some(s.pool.value.(locked := false)))
    case DeletePool => s.(pool := None)
  }

  // ---------------------------------------------------------------- conservation

  /** Units that some finalizer has taken off the size but that are still there. */
  ghost function InBetween(units: map<nat, Unit>): set<nat> {
    set id | id in units && units[id].decremented
  }

  ghost predicate UnitsInv(units: map<nat, Unit>, nextId: nat) {
    forall id :: id in units ==> UnitInv(units[id]) && id < nextId
  }

  /** Finalizers between their halves have decremented for their unit; stray ones have none. */
  ghost predicate JobsInv(s: System) {
    && (forall p :: p in s.pending ==> p.id < s.nextId && (p.id in s.units ==> s.units[p.id].decremented))
    && (forall t :: t in s.strays ==> t.id < s.nextId && t.id !in s.units)
  }

  /** The account of the pool; `owed` is what was taken off the size without a unit to go with it. */
  ghost predicate Counted(s: System, owed: nat) {
    && (s.pool.Some? ==> |s.units| == s.pool.value.size + |InBetween(s.units)| + owed)
    && (s.pool.Some? ==> 0 <= s.pool.value.size <= s.pool.value.maxSize)
    && (s.units != map[] ==> s.pool.Some?)
  }

  ghost predicate Tidy(s: System) {
    UnitsInv(s.units, s.nextId) && JobsInv(s)
  }

  ghost predicate SysInv(s: System) {
    Tidy(s) && Counted(s, 0)
  }

  lemma DecrementedInv(u: Unit, job: Finalizer)
    requires UnitInv(u) && InQueue(u, job)
    ensures UnitInv(Taken(u, job)) && UnitInv(Decremented(u, job))
  {
    if job.Present? { CleanupFinalized(u.cleanup.value); }
  }

  lemma CleanupFinalized(c: Chain)
    requires Inv(c) && c.fin == Queued
    ensures Inv(RunFinalizer(c))
  {
    FinalizerQueued(c);
    assert forall k :: 0 <= k < STAGES ==> (DepsFinished(RunFinalizer(c), k) <==> DepsFinished(c, k));
  }

  lemma HappenKeepsDecremented(u: Unit, e: Event)
    requires CanHappen(u, e)
    ensures Happen(u, e).decremented == u.decremented
  {
  }

  lemma FreshUnit(units: map<nat, Unit>, id: nat)
    requires id !in units
    ensures |units[id := NEW_UNIT]| == |units| + 1 && InBetween(units[id := NEW_UNIT]) == InBetween(units)
  {
    assert units[id := NEW_UNIT].Keys == units.Keys + {id};
    assert |units[id := NEW_UNIT].Keys| == |units| + 1;
  }

  lemma {:induction false} CreatedUnits(units: map<nat, Unit>, first: nat, n: int)
    requires forall id :: id in units ==> id < first
    ensures var all := WithNewUnits(units, first, n);
            && (forall id :: id in all ==>
                 id < first + (if n > 0 then n else 0) && (id in units || all[id] == NEW_UNIT))
            && (forall id :: id in units ==> id in all && all[id] == units[id])
    decreases n
  {
    if n > 0 {
      CreatedUnits(units, first, n - 1);
    }
  }

  /** One more unit than before the last round. */
  lemma CreatedLast(units: map<nat, Unit>, first: nat, n: nat)
    requires n > 0 && forall id :: id in units ==> id < first
    ensures |WithNewUnits(units, first, n)| == |WithNewUnits(units, first, n - 1)| + 1
    ensures InBetween(WithNewUnits(units, first, n)) == InBetween(WithNewUnits(units, first, n - 1))
  {
    CreatedUnits(units, first, n - 1);
    FreshUnit(WithNewUnits(units, first, n - 1), first + n - 1);
  }

  lemma {:induction false} CreatedCount(units: map<nat, Unit>, first: nat, n: int)
    requires forall id :: id in units ==> id < first
    ensures var all := WithNewUnits(units, first, n);
            |all| == |units| + (if n > 0 then n else 0) && InBetween(all) == InBetween(units)
    decreases n
  {
    if n > 0 {
      CreatedCount(units, first, n - 1);
      CreatedLast(units, first, n);
    }
  }

  /** What an event takes off the size without a unit to go with it: a negative count, and a second decrement for the
      same unit, whether it still exists or not. */
  function Owed(s: System, e: SysEvent): nat
    requires SysCan(s, e)
  {
    match e
    case Create(count) => if Count(s.pool.value, count) < 0 then -Count(s.pool.value, count) else 0
    case Decrement(id, _) => if s.units[id].decremented then 1 else 0
    case DecrementStray(_) => 1
    case _ => 0
  }

  /** Creating sandboxes keeps the account exactly when the count is not negative: with a negative count no unit
      is created, but the size still changes. */
  lemma CreationConserves(s: System, count: Option<int>, owed: nat)
    requires Counted(s, owed) && SysCan(s, Create(count))
    requires forall id :: id in s.units ==> id < s.nextId
    ensures Counted(SysNext(s, Create(count)), owed + Owed(s, Create(count)))
    ensures Counted(SysNext(s, Create(count)), owed) <==> Count(s.pool.value, count) >= 0
  {
    CreatedCount(s.units, s.nextId, Count(s.pool.value, count));
  }

  lemma NewUnitsExactly(units: map<nat, Unit>, first: nat, n: int)
    requires forall id :: id in units ==> id < first
    ensures var all := WithNewUnits(units, first, n);
            && |all| == |units| + (if n > 0 then n else 0)
            && (forall id :: id in all <==> id in units || first <= id < first + n)
            && (forall id :: id in all ==> all[id] == if id in units then units[id] else NEW_UNIT)
  {
    CreatedUnits(units, first, n);
    CreatedCount(units, first, n);
    NewIds(units, first, n);
    CreatedIds(units, first, n);
  }

  /** Creation adds exactly the units with the next numbers, each new and without stages; without a count it fills the
      pool up to its limit. */
  lemma CreatedExactly(s: System, count: Option<int>)
    requires Tidy(s) && SysCan(s, Create(count))
    ensures var t, max := SysNext(s, Create(count)), s.pool.value.maxSize;
            var n := if count.Some? then count.value else max - s.pool.value.size;
            && t.pool == Some(s.pool.value.(size := s.pool.value.size + n)) && t.pool.value.size <= max
            && |t.units| == |s.units| + (if n > 0 then n else 0)
            && (forall id :: id in t.units <==> id in s.units || s.nextId <= id < s.nextId + n)
            && (forall id :: id in t.units ==> t.units[id] == if id in s.units then s.units[id] else NEW_UNIT)
            && (count.None? ==> t.pool.value.size == max)
  {
    NewUnitsExactly(s.units, s.nextId, Count(s.pool.value, count));
  }

  lemma {:induction false} CreatedIds(units: map<nat, Unit>, first: nat, n: int)
    ensures forall id :: first <= id < first + n ==> id in WithNewUnits(units, first, n)
    decreases n
  {
    if n > 0 { CreatedIds(units, first, n - 1); }
  }

  lemma UpdatedCount(units: map<nat, Unit>, id: nat, u: Unit)
    requires id in units
    ensures units[id := u].Keys == units.Keys && |units[id := u]| == |units|
    ensures InBetween(units[id := u]) == (if u.decremented then InBetween(units) + {id} else InBetween(units) - {id})
  {
    var units' := units[id := u];
    assert units'.Keys == units.Keys;
    assert |units'| == |units'.Keys|;
  }

  lemma DeletedCount(units: map<nat, Unit>, id: nat)
    requires id in units && units[id].decremented
    ensures |units - {id}| == |units| - 1 && |InBetween(units - {id})| == |InBetween(units)| - 1
  {
    assert (units - {id}).Keys == units.Keys - {id};
    assert InBetween(units - {id}) == InBetween(units) - {id};
  }

  lemma UnitEventCounts(s: System, id: nat, ev: Event, owed: nat)
    requires Counted(s, owed) && SysCan(s, UnitEvent(id, ev))
    ensures Counted(SysNext(s, UnitEvent(id, ev)), owed)
  {
    HappenKeepsDecremented(s.units[id], ev);
    UpdatedCount(s.units, id, Happen(s.units[id], ev));
    assert InBetween(s.units[id := Happen(s.units[id], ev)]) == InBetween(s.units);
  }

  lemma DecrementCounts(s: System, id: nat, job: Finalizer, owed: nat)
    requires Counted(s, owed) && SysCan(s, Decrement(id, job))
    ensures Counted(SysNext(s, Decrement(id, job)), owed + Owed(s, Decrement(id, job)))
  {
    var u := Decremented(s.units[id], job);
    UpdatedCount(s.units, id, u);
    if s.units[id].decremented { assert InBetween(s.units) + {id} == InBetween(s.units); }
  }

  lemma FailCounts(s: System, id: nat, job: Finalizer, owed: nat)
    requires Counted(s, owed) && SysCan(s, Fail(id, job))
    ensures Counted(SysNext(s, Fail(id, job)), owed)
  {
    UpdatedCount(s.units, id, Taken(s.units[id], job));
    assert InBetween(s.units[id := Taken(s.units[id], job)]) == InBetween(s.units);
  }

  lemma CompleteCounts(s: System, j: nat, owed: nat)
    requires Counted(s, owed) && JobsInv(s) && j < |s.pending|
    ensures Counted(Completed(s, j), owed)
  {
    var p := s.pending[j];
    if p.id in s.units {
      DeletedCount(s.units, p.id);
    } else {
      assert s.units - {p.id} == s.units;
    }
  }

  lemma CountedStep(s: System, e: SysEvent, owed: nat)
    requires Counted(s, owed) && Tidy(s) && SysCan(s, e)
    ensures Counted(SysNext(s, e), owed + Owed(s, e))
  {
    match e
    case Create(count) => CreationConserves(s, count, owed);
    case UnitEvent(id, ev) => UnitEventCounts(s, id, ev, owed);
    case Decrement(id, job) => DecrementCounts(s, id, job, owed);
    case Fail(id, job) => FailCounts(s, id, job, owed);
    case Complete(j) => CompleteCounts(s, j, owed);
    case _ =>
  }

  lemma UnitsStep(s: System, e: SysEvent)
    requires UnitsInv(s.units, s.nextId) && SysCan(s, e)
    ensures UnitsInv(SysNext(s, e).units, SysNext(s, e).nextId)
  {
    match e
    case Create(count) => CreatedUnits(s.units, s.nextId, Count(s.pool.value, count));
    case UnitEvent(id, ev) => EventInv(s.units[id], ev);
    case Decrement(id, job) => DecrementedInv(s.units[id], job);
    case Fail(id, job) => DecrementedInv(s.units[id], job);
    case _ =>
  }

  lemma CreateJobs(s: System, count: Option<int>)
    requires Tidy(s) && SysCan(s, Create(count))
    ensures JobsInv(SysNext(s, Create(count)))
  {
    CreatedUnits(s.units, s.nextId, Count(s.pool.value, count));
    NewIds(s.units, s.nextId, Count(s.pool.value, count));
  }

  lemma {:induction false} NewIds(units: map<nat, Unit>, first: nat, n: int)
    ensures forall id :: id in WithNewUnits(units, first, n) ==> id in units || first <= id
    decreases n
  {
    if n > 0 { NewIds(units, first, n - 1); }
  }

  lemma WithoutIn<T>(s: seq<T>, k: nat, x: T)
    requires k < |s| && x in Without(s, k)
    ensures x in s
  {
  }

  lemma CompleteJobs(s: System, j: nat)
    requires Tidy(s) && j < |s.pending|
    ensures JobsInv(Completed(s, j))
  {
    var p, t := s.pending[j], Completed(s, j);
    forall q | q in t.pending ensures q in s.pending { WithoutIn(s.pending, j, q); }
    assert forall x :: x in t.strays ==> x in s.strays || (x.id == p.id && p.id !in t.units);
  }

  lemma StrayJobs(s: System, k: nat)
    requires JobsInv(s) && k < |s.strays|
    ensures SysCan(s, DecrementStray(k)) ==> JobsInv(SysNext(s, DecrementStray(k)))
    ensures SysCan(s, FailStray(k)) ==> JobsInv(SysNext(s, FailStray(k)))
  {
    forall t | t in Without(s.strays, k) ensures t in s.strays { WithoutIn(s.strays, k, t); }
    assert s.strays[k] in s.strays;
  }

  lemma UnitEventJobs(s: System, id: nat, ev: Event)
    requires JobsInv(s) && SysCan(s, UnitEvent(id, ev))
    ensures JobsInv(SysNext(s, UnitEvent(id, ev)))
  {
    HappenKeepsDecremented(s.units[id], ev);
  }

  lemma DecrementJobs(s: System, id: nat, job: Finalizer)
    requires Tidy(s) && SysCan(s, Decrement(id, job))
    ensures JobsInv(SysNext(s, Decrement(id, job)))
  {
  }

  lemma TidyStep(s: System, e: SysEvent)
    requires Tidy(s) && SysCan(s, e)
    ensures Tidy(SysNext(s, e))
  {
    UnitsStep(s, e);
    match e
    case Create(count) => CreateJobs(s, count);
    case UnitEvent(id, ev) => UnitEventJobs(s, id, ev);
    case Decrement(id, job) => DecrementJobs(s, id, job);
    case DecrementStray(k) => StrayJobs(s, k);
    case FailStray(k) => StrayJobs(s, k);
    case Complete(j) => CompleteJobs(s, j);
    case _ =>
  }

  predicate SysPossible(s: System, es: seq<SysEvent>)
    decreases |es|
  {
    es == [] || (SysCan(s, es[0]) && SysPossible(SysNext(s, es[0]), es[1..]))
  }

  function SysAfter(s: System, es: seq<SysEvent>): System
    requires SysPossible(s, es)
    decreases |es|
  {
    if es == [] then s else SysAfter(SysNext(s, es[0]), es[1..])
  }

  /** What the run took off the size without a unit to go with it, in all. */
  function Owing(s: System, es: seq<SysEvent>): nat
    requires SysPossible(s, es)
    decreases |es|
  {
    if es == [] then 0 else Owed(s, es[0]) + Owing(SysNext(s, es[0]), es[1..])
  }

  lemma {:induction false} RunCounts(s: System, es: seq<SysEvent>, owed: nat)
    requires Tidy(s) && Counted(s, owed) && SysPossible(s, es)
    ensures Tidy(SysAfter(s, es)) && Counted(SysAfter(s, es), owed + Owing(s, es))
    decreases |es|
  {
    if es != [] {
      CountedStep(s, es[0], owed);
      TidyStep(s, es[0]);
      RunCounts(SysNext(s, es[0]), es[1..], owed + Owed(s, es[0]));
    }
  }

  /** No request of the run has a negative count, and no finalizer decrements for a unit a second time. */
  predicate Proper(s: System, es: seq<SysEvent>)
    requires SysPossible(s, es)
    decreases |es|
  {
    es == [] ||
    (&& !(es[0].Create? && Count(s.pool.value, es[0].count) < 0)
     && !(es[0].Decrement? && s.units[es[0].id].decremented) && !es[0].DecrementStray?
     && Proper(SysNext(s, es[0]), es[1..]))
  }

  lemma {:induction false} ProperOwesNothing(s: System, es: seq<SysEvent>)
    requires SysPossible(s, es)
    ensures Proper(s, es) <==> Owing(s, es) == 0
    decreases |es|
  {
    if es != [] { ProperOwesNothing(SysNext(s, es[0]), es[1..]); }
  }

  /** On every run from an empty pool: while the pool exists its units are as many as its size, plus those that a
      finalizer has decremented but not deleted, plus what was taken off without a unit to go with it; so the account
      balances exactly when no count was negative and no unit was decremented twice.  The size stays within the limit,
      and no pool is deleted under a unit. */
  lemma PoolConservation(maxSize: nat, es: seq<SysEvent>)
    requires SysPossible(EmptyPool(maxSize), es)
    ensures var s := SysAfter(EmptyPool(maxSize), es);
            && (s.pool.Some? ==> |s.units| == s.pool.value.size + |InBetween(s.units)| + Owing(EmptyPool(maxSize), es))
            && (s.pool.Some? ==>
                  (|s.units| == s.pool.value.size + |InBetween(s.units)| <==> Proper(EmptyPool(maxSize), es)))
            && (s.pool.Some? ==> 0 <= s.pool.value.size <= s.pool.value.maxSize)
            && (s.units != map[] ==> s.pool.Some?)
  {
    var s0 := EmptyPool(maxSize);
    assert InBetween(s0.units) == {};
    RunCounts(s0, es, 0);
    ProperOwesNothing(s0, es);
  }

  // ---------------------------------------------------------------- the last finalizer

  predicate Decrements(e: SysEvent) { e.Decrement? || e.DecrementStray? }

  /** The sizes that the finalizers of a run read, in order. */
  function Reads(s: System, es: seq<SysEvent>): seq<int>
    requires SysPossible(s, es)
    decreases |es|
  {
    if es == [] then [] else
    (if Decrements(es[0]) then [s.pool.value.size - 1] else []) + Reads(SysNext(s, es[0]), es[1..])
  }

  /** The sizes below the given one, counting down by one. */
  ghost predicate CountsDown(sizes: seq<int>, size: int) {
    forall k :: 0 <= k < |sizes| ==> sizes[k] == size - 1 - k
  }

  lemma CountsDownFrom(rest: seq<int>, size: int)
    requires CountsDown(rest, size - 1)
    ensures CountsDown([size - 1] + rest, size)
  {
  }

  /** Without new units the finalizers of a run read the sizes below the initial one, counting down by
      one: when all units have been through the first half, exactly one of them has read zero. */
  lemma {:induction false} FinalizersCountDown(s: System, es: seq<SysEvent>)
    requires s.pool.Some? && SysPossible(s, es)
    requires forall e :: e in es ==> !e.Create?
    ensures CountsDown(Reads(s, es), s.pool.value.size)
    ensures SysAfter(s, es).pool.Some? ==> SysAfter(s, es).pool.value.size == s.pool.value.size - |Reads(s, es)|
    decreases |es|
  {
    if es != [] {
      var s' := SysNext(s, es[0]);
      assert es[0] in es;
      SizeStep(s, es[0]);
      if s'.pool.Some? {
        FinalizersCountDown(s', es[1..]);
        if Decrements(es[0]) { CountsDownFrom(Reads(s', es[1..]), s.pool.value.size); }
      } else {
        NoReadsWithoutPool(s', es[1..]);
      }
    }
  }

  /** Only the first half of a finalizer changes the size, by one. */
  lemma SizeStep(s: System, e: SysEvent)
    requires s.pool.Some? && SysCan(s, e) && !e.Create?
    ensures Decrements(e) ==> SysNext(s, e).pool.Some?
    ensures SysNext(s, e).pool.Some? ==>
              SysNext(s, e).pool.value.size == s.pool.value.size - if Decrements(e) then 1 else 0
  {
  }

  lemma {:induction false} NoReadsWithoutPool(s: System, es: seq<SysEvent>)
    requires s.pool.None? && SysPossible(s, es)
    ensures Reads(s, es) == [] && SysAfter(s, es).pool.None?
    decreases |es|
  {
    if es != [] { NoReadsWithoutPool(SysNext(s, es[0]), es[1..]); }
  }

  lemma ExactlyOneReadsZero(s: System, es: seq<SysEvent>)
    requires s.pool.Some? && s.pool.value.size > 0 && SysPossible(s, es)
    requires forall e :: e in es ==> !e.Create?
    requires SysAfter(s, es).pool.Some? && SysAfter(s, es).pool.value.size == 0
    ensures exists k :: 0 <= k < |Reads(s, es)| && Reads(s, es)[k] == 0
                        && forall m :: 0 <= m < |Reads(s, es)| && Reads(s, es)[m] == 0 ==> m == k
  {
    FinalizersCountDown(s, es);
    assert Reads(s, es)[s.pool.value.size - 1] == 0;
  }

  // ---------------------------------------------------------------- the deletion of the pool

  /** The unit that the event deletes. */
  function Deletes(s: System, e: SysEvent): Option<nat>
    requires SysCan(s, e)
  {
    if e.Complete? && s.pending[e.j].id in s.units && !Refused(s.units, s.pending[e.j]) then Some(s.pending[e.j].id)
    else None
  }

  function Later(rest: Option<nat>, first: Option<nat>): Option<nat> {
    if rest.Some? then rest else first
  }

  /** The unit whose finalizer decremented the size last. */
  function LastDecremented(es: seq<SysEvent>): Option<nat> {
    if es == [] then None
    else Later(LastDecremented(es[1..]), if es[0].Decrement? then Some(es[0].id) else None)
  }

  /** The unit that was deleted last. */
  function LastDeleted(s: System, es: seq<SysEvent>): Option<nat>
    requires SysPossible(s, es)
    decreases |es|
  {
    if es == [] then None else Later(LastDeleted(SysNext(s, es[0]), es[1..]), Deletes(s, es[0]))
  }

  /** A lock was on the pool when the last unit was deleted. */
  predicate LockedAtLast(s: System, es: seq<SysEvent>)
    requires SysPossible(s, es)
    decreases |es|
  {
    es != [] &&
    if s.units != map[] && SysNext(s, es[0]).units == map[] then s.pool.Some? && s.pool.value.locked
    else LockedAtLast(SysNext(s, es[0]), es[1..])
  }

  /** Every unit that the run deletes is deleted by a finalizer that was asked to delete the pool as well. */
  predicate AllDropPool(s: System, es: seq<SysEvent>)
    requires SysPossible(s, es)
    decreases |es|
  {
    es == [] ||
    ((Deletes(s, es[0]).Some? ==> s.pending[es[0].j].drops) && AllDropPool(SysNext(s, es[0]), es[1..]))
  }

  /** Without second decrements every finalizer between its halves has a unit of its own, and only that of `last` has
      read the present size. */
  ghost predicate OwnUnits(s: System, last: Option<nat>) {
    && s.pool.Some?
    && (forall j :: 0 <= j < |s.pending| ==> s.pending[j].id in s.units && s.units[s.pending[j].id].decremented)
    && (forall i, j :: 0 <= i < j < |s.pending| ==> s.pending[i].id != s.pending[j].id)
    && forall j :: 0 <= j < |s.pending| ==>
         s.pool.value.size <= s.pending[j].read
         && (s.pending[j].read == s.pool.value.size <==> last == Some(s.pending[j].id))
  }

  function NextLast(last: Option<nat>, e: SysEvent): Option<nat> {
    if e.Decrement? then Some(e.id) else last
  }

  lemma UnitEventOwn(s: System, id: nat, ev: Event, last: Option<nat>)
    requires SysCan(s, UnitEvent(id, ev)) && OwnUnits(s, last)
    ensures OwnUnits(SysNext(s, UnitEvent(id, ev)), last)
  {
    HappenKeepsDecremented(s.units[id], ev);
  }

  lemma DecrementOwn(s: System, id: nat, job: Finalizer, last: Option<nat>)
    requires SysCan(s, Decrement(id, job)) && OwnUnits(s, last) && !s.units[id].decremented
    ensures OwnUnits(SysNext(s, Decrement(id, job)), Some(id))
  {
  }

  /** What is left of a sequence is in it, in the same order. */
  lemma WithoutAt<T>(s: seq<T>, k: nat, i: nat)
    requires k < |s| && i < |s| - 1
    ensures |Without(s, k)| == |s| - 1 && Without(s, k)[i] == s[if i < k then i else i + 1]
  {
  }

  lemma CompletePending(s: System, j: nat, last: Option<nat>, i: nat)
    requires OwnUnits(s, last) && j < |s.pending| && i < |s.pending| - 1
    ensures var p := Without(s.pending, j)[i];
            && p.id != s.pending[j].id && p.id in s.units && s.units[p.id].decremented
            && s.pool.value.size <= p.read && (p.read == s.pool.value.size <==> last == Some(p.id))
  {
    WithoutAt(s.pending, j, i);
  }

  lemma CompleteDistinct(s: System, j: nat, last: Option<nat>)
    requires OwnUnits(s, last) && j < |s.pending|
    ensures var rest := Without(s.pending, j);
            forall i, k :: 0 <= i < k < |rest| ==> rest[i].id != rest[k].id
  {
    var rest := Without(s.pending, j);
    forall i, k | 0 <= i < k < |rest| ensures rest[i].id != rest[k].id {
      WithoutAt(s.pending, j, i);
      WithoutAt(s.pending, j, k);
    }
  }

  lemma CompleteOwn(s: System, j: nat, last: Option<nat>)
    requires SysCan(s, Complete(j)) && OwnUnits(s, last) && Completed(s, j).pool.Some?
    ensures OwnUnits(Completed(s, j), last)
  {
    var rest := Without(s.pending, j);
    forall i | 0 <= i < |rest|
      ensures rest[i].id != s.pending[j].id && rest[i].id in s.units && s.units[rest[i].id].decremented
      ensures s.pool.value.size <= rest[i].read && (rest[i].read == s.pool.value.size <==> last == Some(rest[i].id))
    {
      CompletePending(s, j, last, i);
    }
    CompleteDistinct(s, j, last);
  }

  lemma OwnStep(s: System, e: SysEvent, last: Option<nat>)
    requires OwnUnits(s, last) && SysCan(s, e) && Proper(s, [e]) && !e.Create? && SysNext(s, e).pool.Some?
    ensures OwnUnits(SysNext(s, e), NextLast(last, e))
  {
    match e
    case UnitEvent(id, ev) => UnitEventOwn(s, id, ev, last);
    case Decrement(id, job) => DecrementOwn(s, id, job, last);
    case Complete(j) => CompleteOwn(s, j, last);
    case _ =>
  }

  lemma OnlyDeletionEmpties(s: System, e: SysEvent)
    requires SysCan(s, e) && !e.Create? && s.units != map[] && SysNext(s, e).units == map[]
    ensures Deletes(s, e).Some? && s.units.Keys == {Deletes(s, e).value}
  {
    if e.Complete? {
      var id := s.pending[e.j].id;
      assert (s.units - {id}).Keys == s.units.Keys - {id};
      assert s.units.Keys == (s.units.Keys - {id}) + {id};
    }
  }

  lemma OnlyUnit(s: System, id: nat)
    requires Counted(s, 0) && s.pool.Some? && s.units.Keys == {id} && s.units[id].decremented
    ensures s.pool.value.size == 0
  {
    assert InBetween(s.units) == {id};
    assert |s.units| == |s.units.Keys|;
  }

  /** The step that deletes the last unit deletes the pool exactly if that unit read the present size and no lock is on
      the pool, and leaves no finalizer between its halves. */
  lemma LastUnitGoes(s: System, j: nat, last: Option<nat>)
    requires Counted(s, 0) && OwnUnits(s, last) && SysCan(s, Complete(j)) && s.pending[j].drops
    requires Deletes(s, Complete(j)).Some? && s.units.Keys == {s.pending[j].id}
    ensures var t := SysNext(s, Complete(j));
            && t.units == map[] && t.pending == []
            && (t.pool.None? <==> last == Deletes(s, Complete(j)) && !s.pool.value.locked)
  {
    var id := s.pending[j].id;
    assert (s.units - {id}).Keys == {};
    OnlyUnit(s, id);
    if |s.pending| > 1 {
      CompletePending(s, j, last, 0);
      assert false;
    }
  }

  lemma {:induction false} NothingLeft(s: System, es: seq<SysEvent>)
    requires s.units == map[] && s.pending == [] && SysPossible(s, es) && Proper(s, es)
    requires forall e :: e in es ==> !e.Create? && !e.DeletePool?
    ensures LastDeleted(s, es) == None && LastDecremented(es) == None
    ensures SysAfter(s, es).pool.None? <==> s.pool.None?
    decreases |es|
  {
    if es != [] {
      assert es[0] in es;
      NothingLeft(SysNext(s, es[0]), es[1..]);
    }
  }

  lemma ProperFirst(s: System, es: seq<SysEvent>)
    requires es != [] && SysPossible(s, es) && Proper(s, es)
    ensures SysPossible(s, [es[0]]) && Proper(s, [es[0]]) && Owed(s, es[0]) == 0
  {
    assert [es[0]][1..] == [];
    assert SysPossible(SysNext(s, es[0]), []);
  }

  lemma SysStepInv(s: System, e: SysEvent)
    requires SysInv(s) && SysCan(s, e) && Owed(s, e) == 0
    ensures SysInv(SysNext(s, e))
  {
    TidyStep(s, e);
    CountedStep(s, e, 0);
  }

  lemma PoolGoesNow(s: System, es: seq<SysEvent>, last: Option<nat>)
    requires Counted(s, 0) && s.units != map[] && OwnUnits(s, last) && es != []
    requires SysPossible(s, es) && Proper(s, es) && AllDropPool(s, es) && SysNext(s, es[0]).units == map[]
    requires forall e :: e in es ==> !e.Create? && !e.DeletePool?
    ensures LastDeleted(s, es).Some?
    ensures SysAfter(s, es).pool.None? <==>
              (Later(LastDecremented(es), last) == LastDeleted(s, es) && !LockedAtLast(s, es))
  {
    assert es[0] in es;
    OnlyDeletionEmpties(s, es[0]);
    LastUnitGoes(s, es[0].j, last);
    NothingLeft(SysNext(s, es[0]), es[1..]);
  }

  lemma {:induction false} PoolGoes(s: System, es: seq<SysEvent>, last: Option<nat>)
    requires SysInv(s) && s.units != map[] && OwnUnits(s, last)
    requires SysPossible(s, es) && Proper(s, es) && AllDropPool(s, es) && SysAfter(s, es).units == map[]
    requires forall e :: e in es ==> !e.Create? && !e.DeletePool?
    ensures LastDeleted(s, es).Some?
    ensures SysAfter(s, es).pool.None? <==>
              (Later(LastDecremented(es), last) == LastDeleted(s, es) && !LockedAtLast(s, es))
    decreases |es|
  {
    var e, t := es[0], SysNext(s, es[0]);
    assert e in es;
    ProperFirst(s, es);
    if t.units == map[] {
      PoolGoesNow(s, es, last);
    } else {
      SysStepInv(s, e);
      OwnStep(s, e, last);
      PoolGoes(t, es[1..], NextLast(last, e));
    }
  }

  /** A run without new units that deletes every unit of a pool, each by one finalizer, and all of them asked to delete
      the pool as well, deletes the pool exactly if the unit that was decremented last is also the one deleted last, and
      no lock is on the pool then. */
  lemma PoolDroppedIff(s: System, es: seq<SysEvent>)
    requires SysInv(s) && s.units != map[] && InBetween(s.units) == {} && s.pending == []
    requires SysPossible(s, es) && Proper(s, es) && AllDropPool(s, es) && SysAfter(s, es).units == map[]
    requires forall e :: e in es ==> !e.Create? && !e.DeletePool?
    ensures SysAfter(s, es).pool.None? <==> LastDecremented(es) == LastDeleted(s, es) && !LockedAtLast(s, es)
  {
    PoolGoes(s, es, None);
  }

  // ---------------------------------------------------------------- putting runs together

  lemma RunCons(s: System, e: SysEvent, rest: seq<SysEvent>)
    requires SysCan(s, e) && SysPossible(SysNext(s, e), rest)
    ensures SysPossible(s, [e] + rest) && SysAfter(s, [e] + rest) == SysAfter(SysNext(s, e), rest)
    ensures (Deletes(s, e).Some? ==> s.pending[e.j].drops) && AllDropPool(SysNext(s, e), rest) ==>
              AllDropPool(s, [e] + rest)
    ensures Owing(s, [e] + rest) == Owed(s, e) + Owing(SysNext(s, e), rest)
  {
    assert ([e] + rest)[1..] == rest;
  }

  lemma {:induction false} RunJoin(s: System, a: seq<SysEvent>, b: seq<SysEvent>)
    requires SysPossible(s, a) && SysPossible(SysAfter(s, a), b)
    ensures SysPossible(s, a + b) && SysAfter(s, a + b) == SysAfter(SysAfter(s, a), b)
    ensures AllDropPool(s, a) && AllDropPool(SysAfter(s, a), b) ==> AllDropPool(s, a + b)
    decreases |a|
  {
    if a == [] {
      assert a + b == b;
    } else {
      assert (a + b)[1..] == a[1..] + b;
      RunJoin(SysNext(s, a[0]), a[1..], b);
    }
  }

  function UnitEvents(id: nat, es: seq<Event>): seq<SysEvent> {
    seq(|es|, i requires 0 <= i < |es| => UnitEvent(id, es[i]))
  }

  /** A run of one unit is a run of the system. */
  lemma {:induction false} UnitRun(s: System, id: nat, es: seq<Event>)
    requires id in s.units && Possible(s.units[id], es)
    ensures SysPossible(s, UnitEvents(id, es)) && AllDropPool(s, UnitEvents(id, es))
    ensures SysAfter(s, UnitEvents(id, es)) == s.(units := s.units[id := UnitLifecycle.After(s.units[id], es)])
    decreases |es|
  {
    if es == [] {
      assert s.units[id := s.units[id]] == s.units;
    } else {
      assert UnitEvents(id, es)[1..] == UnitEvents(id, es[1..]);
      var t := SysNext(s, UnitEvent(id, es[0]));
      UnitRun(t, id, es[1..]);
      assert t.units[id := UnitLifecycle.After(t.units[id], es[1..])]
          == s.units[id := UnitLifecycle.After(s.units[id], es)];
    }
  }

  // ---------------------------------------------------------------- cleanups that spare the pool

  /** No job of the unit was asked to delete the pool. */
  ghost predicate UnitSpares(u: Unit) {
    !u.cleanupDrops && true !in u.cleanupJobs && true !in u.leftover
  }

  ghost predicate Spares(s: System) {
    && (forall id :: id in s.units ==> UnitSpares(s.units[id]))
    && (forall p :: p in s.pending ==> !p.drops) && (forall t :: t in s.strays ==> !t.drops)
  }

  lemma UnitEventSpares(u: Unit, e: Event)
    requires UnitSpares(u) && CanHappen(u, e) && e != ForceCleanup(true)
    ensures UnitSpares(Happen(u, e))
  {
    if e.CreateCleanup? { assert u.cleanupJobs[e.job] in u.cleanupJobs; }
  }

  lemma TakenSpares(u: Unit, job: Finalizer)
    requires UnitSpares(u) && InQueue(u, job)
    ensures UnitSpares(Taken(u, job)) && UnitSpares(Decremented(u, job)) && !Drops(u, job)
  {
    if job.Leftover? { assert u.leftover[job.k] in u.leftover; }
  }

  lemma StraysSpare(s: System, k: nat)
    requires Spares(s) && k < |s.strays|
    ensures !s.strays[k].drops && forall t :: t in Without(s.strays, k) ==> !t.drops
  {
    assert s.strays[k] in s.strays;
    forall t | t in Without(s.strays, k) ensures !t.drops { WithoutIn(s.strays, k, t); }
  }

  lemma CompletedSpares(s: System, j: nat)
    requires Spares(s) && j < |s.pending|
    ensures Spares(Completed(s, j)) && (s.pool.Some? ==> Completed(s, j).pool.Some?)
  {
    var p := s.pending[j];
    assert p in s.pending;
    forall q | q in Without(s.pending, j) ensures !q.drops { WithoutIn(s.pending, j, q); }
    if p.id in s.units { StraysOfSpare(p.id, s.units[p.id]); }
  }

  lemma StraysOfSpare(id: nat, u: Unit)
    requires UnitSpares(u)
    ensures forall t :: t in StraysOf(id, u) ==> !t.drops
  {
    forall i | 0 <= i < |u.leftover| ensures !u.leftover[i] { assert u.leftover[i] in u.leftover; }
  }

  lemma SparesStep(s: System, e: SysEvent)
    requires Spares(s) && SysCan(s, e) && !e.DeletePool? && !(e.UnitEvent? && e.e == ForceCleanup(true))
    ensures Spares(SysNext(s, e)) && (s.pool.Some? ==> SysNext(s, e).pool.Some?)
  {
    match e
    case Create(count) => NewUnitsSpare(s.units, s.nextId, Count(s.pool.value, count));
    case UnitEvent(id, ev) => UnitEventSpares(s.units[id], ev);
    case Decrement(id, job) => TakenSpares(s.units[id], job);
    case Fail(id, job) => TakenSpares(s.units[id], job);
    case DecrementStray(k) => StraysSpare(s, k);
    case FailStray(k) => StraysSpare(s, k);
    case Complete(j) => CompletedSpares(s, j);
    case _ =>
  }

  lemma {:induction false} NewUnitsSpare(units: map<nat, Unit>, first: nat, n: int)
    requires forall id :: id in units ==> UnitSpares(units[id])
    ensures forall id :: id in WithNewUnits(units, first, n) ==> UnitSpares(WithNewUnits(units, first, n)[id])
    decreases n
  {
    if n > 0 { NewUnitsSpare(units, first, n - 1); }
  }

  lemma {:induction false} SparesRun(s: System, es: seq<SysEvent>)
    requires Spares(s) && s.pool.Some? && SysPossible(s, es)
    requires forall e :: e in es ==> !e.DeletePool? && !(e.UnitEvent? && e.e == ForceCleanup(true))
    ensures SysAfter(s, es).pool.Some?
    decreases |es|
  {
    if es != [] {
      assert es[0] in es;
      SparesStep(s, es[0]);
      SparesRun(SysNext(s, es[0]), es[1..]);
    }
  }

  /** A pool goes only where somebody asked for it: a run without a forced cleanup that is to take the pool along, and
      without the deletion of the pool itself, leaves the pool, however many of its units plain and forced cleanups
      delete. */
  lemma PoolSpared(maxSize: nat, es: seq<SysEvent>)
    requires SysPossible(EmptyPool(maxSize), es)
    requires forall e :: e in es ==> !e.DeletePool? && !(e.UnitEvent? && e.e == ForceCleanup(true))
    ensures SysAfter(EmptyPool(maxSize), es).pool.Some?
  {
    SparesRun(EmptyPool(maxSize), es);
  }

  // ---------------------------------------------------------------- a locked pool

  lemma LockedStep(s: System, e: SysEvent)
    requires s.pool.Some? && s.pool.value.locked && SysCan(s, e) && e != UnlockPool
    ensures SysNext(s, e).pool.Some? && SysNext(s, e).pool.value.locked
  {
  }

  /** A lock protects the pool: until it is removed no run deletes the pool, whatever its finalizers were asked. */
  lemma {:induction false} LockedPoolStays(s: System, es: seq<SysEvent>)
    requires s.pool.Some? && s.pool.value.locked && SysPossible(s, es) && UnlockPool !in es
    ensures SysAfter(s, es).pool.Some? && SysAfter(s, es).pool.value.locked
    decreases |es|
  {
    if es != [] {
      assert es[0] in es;
      LockedStep(s, es[0]);
      LockedPoolStays(SysNext(s, es[0]), es[1..]);
    }
  }

  // ---------------------------------------------------------------- no finalizer gets lost

  /** The finalizers in the queue for a unit that is there, by what they were asked about the pool. */
  function QueuedIn(u: Unit): multiset<bool> {
    multiset(u.leftover) + (if u.cleanup.Some? && u.cleanup.value.fin == Queued then multiset{u.cleanupDrops}
                            else multiset{})
  }

  /** The finalizers in the queue for unit `id` after its deletion. */
  function StraysFor(strays: seq<Stray>, id: nat): multiset<bool> {
    if strays == [] then multiset{}
    else StraysFor(strays[..|strays| - 1], id)
         + (if strays[|strays| - 1].id == id then multiset{strays[|strays| - 1].drops} else multiset{})
  }

  function QueuedFor(s: System, id: nat): multiset<bool> {
    (if id in s.units then QueuedIn(s.units[id]) else multiset{}) + StraysFor(s.strays, id)
  }

  /** The step runs, to its end or to its failure, a finalizer of the unit. */
  function Runs(s: System, e: SysEvent, id: nat): multiset<bool>
    requires SysCan(s, e)
  {
    match e
    case Decrement(i, job) => if i == id then multiset{Drops(s.units[i], job)} else multiset{}
    case Fail(i, job) => if i == id then multiset{Drops(s.units[i], job)} else multiset{}
    case DecrementStray(k) => if s.strays[k].id == id then multiset{s.strays[k].drops} else multiset{}
    case FailStray(k) => if s.strays[k].id == id then multiset{s.strays[k].drops} else multiset{}
    case _ => multiset{}
  }

  /** The step is the success of the last cleanup stage of the unit, not cancelled meanwhile. */
  function Queues(s: System, e: SysEvent, id: nat): multiset<bool>
    requires SysCan(s, e)
  {
    if e.UnitEvent? && e.id == id && e.e == CleanStep(FinishStage(2, Success))
       && s.units[id].cleanup.value.stages[2].job == Started then multiset{s.units[id].cleanupDrops}
    else multiset{}
  }

  lemma StepQueues(c: Chain, s: Step)
    requires Inv(c) && Enabled(c, s)
    ensures StageChain.After(c, s).fin == Queued <==>
              c.fin == Queued || (s == FinishStage(2, Success) && c.stages[2].job == Started)
    ensures s == FinishStage(2, Success) && c.stages[2].job == Started ==> c.fin != Queued
  {
    if s.HandleFailure? {
      HandleForm(c, s.i);
      if c.fin == Queued { FinalizerQueued(c); }
    }
  }

  lemma CancelQueues(c: Chain)
    requires Inv(c) && !AllFinished(c)
    ensures c.fin != Queued && Cancel(c).fin != Queued
  {
    CancelRecords(c);
    if c.fin == Queued { FinalizerQueued(c); SucceededFinished(c); }
  }

  lemma CleanStepQueues(u: Unit, s: Step)
    requires UnitInv(u) && CanHappen(u, CleanStep(s))
    ensures QueuedIn(Happen(u, CleanStep(s)))
            == QueuedIn(u) + (if s == FinishStage(2, Success) && u.cleanup.value.stages[2].job == Started
                              then multiset{u.cleanupDrops} else multiset{})
  {
    StepQueues(u.cleanup.value, s);
  }

  /** Replaced stages leave their queued finalizer behind. */
  lemma CreateCleanupQueues(u: Unit, k: nat)
    requires CanHappen(u, CreateCleanup(k))
    ensures QueuedIn(Happen(u, CreateCleanup(k))) == QueuedIn(u)
  {
    CreationEvents(u, false, false, k);
  }

  lemma UnitEventQueues(u: Unit, e: Event)
    requires UnitInv(u) && CanHappen(u, e)
    ensures QueuedIn(Happen(u, e))
            == QueuedIn(u) + (if e == CleanStep(FinishStage(2, Success)) && u.cleanup.value.stages[2].job == Started
                              then multiset{u.cleanupDrops} else multiset{})
  {
    if e.CleanStep? {
      CleanStepQueues(u, e.step);
    } else if e.CreateCleanup? {
      CreateCleanupQueues(u, e.job);
    } else if e.CancelCleanup? {
      CancelQueues(u.cleanup.value);
    } else {
      OtherEvents(u, e);
    }
  }

  lemma OtherEvents(u: Unit, e: Event)
    requires CanHappen(u, e) && !e.CleanStep? && !e.CreateCleanup? && !e.CancelCleanup?
    ensures SameCleanup(u, Happen(u, e))
  {
    if e.Restart? || e.ForceCleanup? { AllocationOnly(u, e); }
  }

  predicate SameCleanup(u: Unit, v: Unit) {
    v.cleanup == u.cleanup && v.leftover == u.leftover && v.cleanupDrops == u.cleanupDrops
  }

  lemma AllocationOnly(u: Unit, e: Event)
    requires CanHappen(u, e) && (e.Restart? || e.ForceCleanup?)
    ensures SameCleanup(u, Happen(u, e))
  {
  }

  lemma WithoutOne<T>(s: seq<T>, k: nat)
    requires k < |s|
    ensures multiset(s) == multiset(Without(s, k)) + multiset{s[k]}
  {
    assert s == s[..k] + [s[k]] + s[k + 1..];
  }

  lemma TakenQueues(u: Unit, job: Finalizer)
    requires InQueue(u, job)
    ensures QueuedIn(u) == QueuedIn(Taken(u, job)) + multiset{Drops(u, job)}
    ensures QueuedIn(Decremented(u, job)) == QueuedIn(Taken(u, job))
  {
    if job.Leftover? { WithoutOne(u.leftover, job.k); }
  }

  lemma {:induction false} StraysJoin(a: seq<Stray>, b: seq<Stray>, id: nat)
    ensures StraysFor(a + b, id) == StraysFor(a, id) + StraysFor(b, id)
  {
    if b == [] {
      assert a + b == a;
    } else {
      assert (a + b)[..|a + b| - 1] == a + b[..|b| - 1];
      StraysJoin(a, b[..|b| - 1], id);
    }
  }

  lemma StraysOne(t: Stray, id: nat)
    ensures StraysFor([t], id) == if t.id == id then multiset{t.drops} else multiset{}
  {
    assert [t][..0] == [];
  }

  lemma StraysWithout(strays: seq<Stray>, k: nat, id: nat)
    requires k < |strays|
    ensures StraysFor(strays, id) == StraysFor(Without(strays, k), id) + StraysFor([strays[k]], id)
  {
    var a, t, b := strays[..k], [strays[k]], strays[k + 1..];
    assert strays == (a + t) + b;
    StraysJoin(a + t, b, id);
    StraysJoin(a, t, id);
    StraysJoin(a, b, id);
  }

  lemma {:induction false} StraysOfLeftover(own: nat, leftover: seq<bool>, id: nat)
    ensures StraysFor(Left(own, leftover), id) == if own == id then multiset(leftover) else multiset{}
  {
    var strays := Left(own, leftover);
    if leftover != [] {
      var init := leftover[..|leftover| - 1];
      assert strays[..|strays| - 1] == Left(own, init);
      assert leftover == init + [leftover[|init|]];
      assert strays[|init|] == Stray(own, leftover[|init|]);
      StraysOfLeftover(own, init, id);
    }
  }

  lemma StraysOfUnit(own: nat, u: Unit, id: nat)
    ensures StraysFor(StraysOf(own, u), id) == if own == id then QueuedIn(u) else multiset{}
  {
    var due := if FinalizerDue(u) then [Stray(own, u.cleanupDrops)] else [];
    StraysJoin(Left(own, u.leftover), due, id);
    StraysOfLeftover(own, u.leftover, id);
    if FinalizerDue(u) { StraysOne(due[0], id); }
  }

  lemma CompletedQueues(s: System, j: nat, id: nat)
    requires Tidy(s) && j < |s.pending|
    ensures QueuedFor(Completed(s, j), id) == QueuedFor(s, id)
  {
    var own := s.pending[j].id;
    if !Refused(s.units, s.pending[j]) {
      var gone := if own in s.units then StraysOf(own, s.units[own]) else [];
      StraysJoin(s.strays, gone, id);
      if own in s.units { StraysOfUnit(own, s.units[own], id); }
    }
  }

  lemma CreatedQueues(s: System, count: Option<int>, id: nat)
    requires Tidy(s) && SysCan(s, Create(count))
    ensures QueuedFor(SysNext(s, Create(count)), id) == QueuedFor(s, id)
  {
    CreatedExactly(s, count);
  }

  lemma DecrementStrayQueues(s: System, k: nat, id: nat)
    requires SysCan(s, DecrementStray(k))
    ensures QueuedFor(SysNext(s, DecrementStray(k)), id) + Runs(s, DecrementStray(k), id) == QueuedFor(s, id)
  {
    StraysWithout(s.strays, k, id);
    StraysOne(s.strays[k], id);
  }

  lemma FailStrayQueues(s: System, k: nat, id: nat)
    requires SysCan(s, FailStray(k))
    ensures QueuedFor(SysNext(s, FailStray(k)), id) + Runs(s, FailStray(k), id) == QueuedFor(s, id)
  {
    StraysWithout(s.strays, k, id);
    StraysOne(s.strays[k], id);
  }

  lemma DecrementQueues(s: System, i: nat, job: Finalizer, id: nat)
    requires SysCan(s, Decrement(i, job))
    ensures QueuedFor(SysNext(s, Decrement(i, job)), id) + Runs(s, Decrement(i, job), id) == QueuedFor(s, id)
  {
    TakenQueues(s.units[i], job);
  }

  lemma FailQueues(s: System, i: nat, job: Finalizer, id: nat)
    requires SysCan(s, Fail(i, job))
    ensures QueuedFor(SysNext(s, Fail(i, job)), id) + Runs(s, Fail(i, job), id) == QueuedFor(s, id)
  {
    TakenQueues(s.units[i], job);
  }

  lemma ReplacedQueues(s: System, i: nat, v: Unit, came: multiset<bool>, id: nat)
    requires i in s.units && QueuedIn(v) == QueuedIn(s.units[i]) + came
    ensures QueuedFor(s.(units := s.units[i := v]), id) == QueuedFor(s, id) + if i == id then came else multiset{}
  {
    var c := came;
    assert QueuedIn(v) + StraysFor(s.strays, id) == QueuedIn(s.units[i]) + StraysFor(s.strays, id) + c;
  }

  lemma EventQueues(s: System, i: nat, ev: Event, id: nat)
    requires SysCan(s, UnitEvent(i, ev)) && UnitInv(s.units[i])
    ensures QueuedFor(SysNext(s, UnitEvent(i, ev)), id) == QueuedFor(s, id) + Queues(s, UnitEvent(i, ev), id)
  {
    UnitEventQueues(s.units[i], ev);
    ReplacedQueues(s, i, Happen(s.units[i], ev), Queues(s, UnitEvent(i, ev), i), id);
  }

  /** One step: what was queued for a unit or becomes queued has run, or is queued still. */
  lemma FinalizersStep(s: System, e: SysEvent, id: nat)
    requires Tidy(s) && SysCan(s, e)
    ensures QueuedFor(SysNext(s, e), id) + Runs(s, e, id) == QueuedFor(s, id) + Queues(s, e, id)
  {
    match e
    case Create(count) => CreatedQueues(s, count, id);
    case UnitEvent(i, ev) => EventQueues(s, i, ev, id);
    case Decrement(i, job) => DecrementQueues(s, i, job, id);
    case Fail(i, job) => FailQueues(s, i, job, id);
    case DecrementStray(k) => DecrementStrayQueues(s, k, id);
    case FailStray(k) => FailStrayQueues(s, k, id);
    case Complete(j) => CompletedQueues(s, j, id);
    case _ =>
  }

  function AllRuns(s: System, es: seq<SysEvent>, id: nat): multiset<bool>
    requires SysPossible(s, es)
    decreases |es|
  {
    if es == [] then multiset{} else Runs(s, es[0], id) + AllRuns(SysNext(s, es[0]), es[1..], id)
  }

  function AllQueues(s: System, es: seq<SysEvent>, id: nat): multiset<bool>
    requires SysPossible(s, es)
    decreases |es|
  {
    if es == [] then multiset{} else Queues(s, es[0], id) + AllQueues(SysNext(s, es[0]), es[1..], id)
  }

  lemma Account(now: multiset<bool>, ran: multiset<bool>, before: multiset<bool>, came: multiset<bool>,
                end: multiset<bool>, ran': multiset<bool>, came': multiset<bool>)
    requires now + ran == before + came && end + ran' == now + came'
    ensures end + (ran + ran') == before + (came + came')
  {
    forall x ensures (end + (ran + ran'))[x] == (before + (came + came'))[x] {
      assert (now + ran)[x] == (before + came)[x] && (end + ran')[x] == (now + came')[x];
    }
  }

  lemma {:induction false} FinalizersRun(s: System, es: seq<SysEvent>, id: nat)
    requires Tidy(s) && SysPossible(s, es)
    ensures QueuedFor(SysAfter(s, es), id) + AllRuns(s, es, id) == QueuedFor(s, id) + AllQueues(s, es, id)
    decreases |es|
  {
    if es != [] {
      FinalizersStep(s, es[0], id);
      TidyStep(s, es[0]);
      var t := SysNext(s, es[0]);
      FinalizersRun(t, es[1..], id);
      Account(QueuedFor(t, id), Runs(s, es[0], id), QueuedFor(s, id), Queues(s, es[0], id),
              QueuedFor(SysAfter(t, es[1..]), id), AllRuns(t, es[1..], id), AllQueues(t, es[1..], id));
    }
  }

  /** On every run from an empty pool the finalizers of a unit are conserved, with what they were asked about the pool:
      one is queued by each cleanup chain whose last stage succeeds, and it runs, or is queued still, even when another
      cleanup has replaced its stages, and even when the unit is gone. */
  lemma FinalizersConserved(maxSize: nat, es: seq<SysEvent>, id: nat)
    requires SysPossible(EmptyPool(maxSize), es)
    ensures QueuedFor(SysAfter(EmptyPool(maxSize), es), id) + AllRuns(EmptyPool(maxSize), es, id)
            == AllQueues(EmptyPool(maxSize), es, id)
  {
    FinalizersRun(EmptyPool(maxSize), es, id);
  }

  // ---------------------------------------------------------------- a pool that is left behind

  lemma ForcedRun(u: Unit) returns (es: seq<Event>)
    requires CanHappen(u, ForceCleanup(true)) && u.cleanupJobs == []
    ensures Possible(u, es)
    ensures var v := UnitLifecycle.After(u, es); FinalizerDue(v) && v.sandbox.None? && v.cleanupDrops
  {
    es := CleanupRun(Happen(u, ForceCleanup(true)), 0);
    UnitLifecycle.RunCons(u, ForceCleanup(true), es);
    es := [ForceCleanup(true)] + es;
  }

  /** A new unit can be allocated, cleaned up by force, and brought to the finalizer of its cleanup. */
  lemma CanBeForced() returns (es: seq<Event>)
    ensures Possible(NEW_UNIT, es)
    ensures var v := UnitLifecycle.After(NEW_UNIT, es); FinalizerDue(v) && v.sandbox.None? && v.cleanupDrops
  {
    NewChainInv();
    es := ForcedRun(Happen(NEW_UNIT, Allocate(false, false)));
    UnitLifecycle.RunCons(NEW_UNIT, Allocate(false, false), es);
    es := [Allocate(false, false)] + es;
  }

  /** Both halves of the finalizers of two units; the second to read the size deletes its unit first. */
  function Overtaking(a: nat, b: nat): seq<SysEvent> {
    [Decrement(a, Present)] + ([Decrement(b, Present)] + ([Complete(1)] + ([Complete(0)] + [])))
  }

  /** The size is two, and the cleanup of each unit, asked to delete the pool as well, is at its finalizer. */
  ghost predicate TwoDue(s: System, a: nat, b: nat) {
    && s.pool.Some? && s.pool.value.size == 2 && a != b && s.units.Keys == {a, b} && s.pending == []
    && forall id :: id in s.units ==>
         FinalizerDue(s.units[id]) && s.units[id].sandbox.None? && s.units[id].cleanupDrops
  }

  lemma BothDecremented(s: System, a: nat, b: nat) returns (t: System)
    requires TwoDue(s, a, b)
    ensures SysCan(s, Decrement(a, Present)) && SysCan(SysNext(s, Decrement(a, Present)), Decrement(b, Present))
    ensures t == SysNext(SysNext(s, Decrement(a, Present)), Decrement(b, Present))
    ensures t.pool.Some? && t.units.Keys == {a, b} && t.units[a].sandbox.None? && t.units[b].sandbox.None?
    ensures t.pending == [Pending(a, 1, true), Pending(b, 0, true)]
  {
    t := SysNext(SysNext(s, Decrement(a, Present)), Decrement(b, Present));
  }

  lemma BothDeleted(s: System, a: nat, b: nat)
    requires s.pool.Some? && a != b && s.units.Keys == {a, b}
    requires s.units[a].sandbox.None? && s.units[b].sandbox.None?
    requires s.pending == [Pending(a, 1, true), Pending(b, 0, true)]
    ensures var es := [Complete(1)] + ([Complete(0)] + []);
            && SysPossible(s, es) && AllDropPool(s, es)
            && SysAfter(s, es).units == map[] && SysAfter(s, es).pool.Some?
  {
    var t := SysNext(s, Complete(1));
    assert t.units.Keys == {a} && t.units[a] == s.units[a] && t.pool.Some?;
    assert t.pending == [Pending(a, 1, true)];
    RunCons(t, Complete(0), []);
    RunCons(s, Complete(1), [Complete(0)] + []);
    assert SysNext(t, Complete(0)).units.Keys == {};
  }

  /** Two finalizers of a forced pool deletion can interleave so that every unit is deleted and the pool
      stays: the one that read zero deletes its unit first. */
  lemma OvertakenPoolStays(s: System, a: nat, b: nat)
    requires TwoDue(s, a, b)
    ensures SysPossible(s, Overtaking(a, b)) && AllDropPool(s, Overtaking(a, b))
    ensures SysAfter(s, Overtaking(a, b)).units == map[] && SysAfter(s, Overtaking(a, b)).pool.Some?
  {
    var t := BothDecremented(s, a, b);
    BothDeleted(t, a, b);
    var rest := [Complete(1)] + ([Complete(0)] + []);
    RunCons(SysNext(s, Decrement(a, Present)), Decrement(b, Present), rest);
    RunCons(s, Decrement(a, Present), [Decrement(b, Present)] + rest);
  }

  /** Two new units, each cleaned up by force up to the finalizer. */
  lemma BothForced(s: System) returns (es: seq<SysEvent>)
    requires s.units == map[0 := NEW_UNIT, 1 := NEW_UNIT]
    ensures SysPossible(s, es) && AllDropPool(s, es)
    ensures var t := SysAfter(s, es);
            && t.pool == s.pool && t.pending == s.pending && t.units.Keys == {0, 1}
            && forall id :: id in t.units ==>
                 FinalizerDue(t.units[id]) && t.units[id].sandbox.None? && t.units[id].cleanupDrops
  {
    var one := CanBeForced();
    var u := UnitLifecycle.After(NEW_UNIT, one);
    UnitRun(s, 0, one);
    var t := s.(units := s.units[0 := u]);
    UnitRun(t, 1, one);
    RunJoin(s, UnitEvents(0, one), UnitEvents(1, one));
    es := UnitEvents(0, one) + UnitEvents(1, one);
  }

  lemma TwoUnits()
    ensures WithNewUnits(map[], 0, 2) == map[0 := NEW_UNIT, 1 := NEW_UNIT]
  {
    assert WithNewUnits(map[], 0, 1) == map[0 := NEW_UNIT];
  }

  /** From an empty pool: create two units, clean both up by force together with the pool, and let the
      finalizers overtake each other; every unit is gone and the pool is left behind. */
  lemma PoolLeftBehind() returns (es: seq<SysEvent>)
    ensures SysPossible(EmptyPool(2), es) && AllDropPool(EmptyPool(2), es)
    ensures SysAfter(EmptyPool(2), es).units == map[] && SysAfter(EmptyPool(2), es).pool.Some?
  {
    var s := EmptyPool(2);
    var t := SysNext(s, Create(Some(2)));
    TwoUnits();
    var forced := BothForced(t);
    OvertakenPoolStays(SysAfter(t, forced), 0, 1);
    RunJoin(t, forced, Overtaking(0, 1));
    RunCons(s, Create(Some(2)), forced + Overtaking(0, 1));
    es := [Create(Some(2))] + (forced + Overtaking(0, 1));
  }

  // ---------------------------------------------------------------- a unit that is counted twice

  /** A unit whose cleanup is at its finalizer while the finalizing job of its allocation is still queued. */
  ghost predicate BothQueued(u: Unit) {
    && Sized(u) && FinalizerDue(u) && AllFinished(u.cleanup.value) && u.cleanupJobs == []
    && u.alloc.Some? && u.alloc.value.fin == Queued && AllSucceeded(u.alloc.value) && u.sandbox.None?
  }

  /** All stages have succeeded, and the finalizing job has not run yet. */
  ghost predicate AllocationQueued(u: Unit) {
    && Sized(u) && u.alloc.Some? && u.alloc.value.fin == Queued && AllSucceeded(u.alloc.value)
    && u.sandbox.Some? && !u.sandbox.value.locked && !u.cleanupRow && u.cleanupJobs == [] && !u.decremented
  }

  lemma SucceededRun() returns (es: seq<Event>)
    ensures Possible(NEW_UNIT, es) && AllocationQueued(UnitLifecycle.After(NEW_UNIT, es))
  {
    NewChainInv();
    var u := Happen(NEW_UNIT, Allocate(false, false));
    var ss := CanSucceed(NewChain());
    AllocRun(u, ss);
    StepsInv(NewChain(), ss);
    FinalizerQueued(StepsAfter(NewChain(), ss));
    UnitLifecycle.RunCons(NEW_UNIT, Allocate(false, false), AllocSteps(ss));
    es := [Allocate(false, false)] + AllocSteps(ss);
  }

  /** A cleanup is admitted before the finalizing job runs. */
  lemma AdmittedRun(u: Unit) returns (es: seq<Event>)
    requires AllocationQueued(u)
    ensures Possible(u, es)
    ensures BothQueued(UnitLifecycle.After(u, es)) && !UnitLifecycle.After(u, es).decremented
  {
    SucceededFinished(u.alloc.value);
    es := CleanupRun(Happen(u, AdmitCleanup), 0);
    UnitLifecycle.RunCons(u, AdmitCleanup, es);
    es := [AdmitCleanup] + es;
  }

  lemma AdmittedEarly() returns (es: seq<Event>)
    ensures Possible(NEW_UNIT, es)
    ensures BothQueued(UnitLifecycle.After(NEW_UNIT, es)) && !UnitLifecycle.After(NEW_UNIT, es).decremented
  {
    var first := SucceededRun();
    var second := AdmittedRun(UnitLifecycle.After(NEW_UNIT, first));
    UnitLifecycle.RunJoin(NEW_UNIT, first, second);
    es := first + second;
  }

  /** Nothing of the first cleanup is in the way of a second, forced one. */
  ghost predicate Recleanable(u: Unit) {
    && Sized(u) && u.cleanup.Some? && AllFinished(u.cleanup.value) && u.cleanupJobs == []
    && u.alloc.Some? && AllSucceeded(u.alloc.value)
  }

  /** The finalizing job has brought the sandbox back; the unit is cleaned up again by force. */
  lemma AdmittedAgain(u: Unit) returns (es: seq<Event>)
    requires Recleanable(u)
    ensures Possible(u, es) && FinalizerDue(UnitLifecycle.After(u, es))
    ensures UnitLifecycle.After(u, es).decremented == u.decremented
  {
    SucceededFinished(u.alloc.value);
    var v := Happen(u, ForceCleanup(false));
    var rest := CleanupRun(v, 0);
    UnitLifecycle.RunCons(u, ForceCleanup(false), rest);
    es := [ForceCleanup(false)] + rest;
  }

  /** The finalizer decrements; the sandbox comes back; the deletion of the unit is refused. */
  function RefusedDeletion(id: nat): seq<SysEvent> {
    [Decrement(id, Present)] + ([UnitEvent(id, MarkReady)] + ([Complete(0)] + []))
  }

  lemma DeletionRefused(s: System, id: nat)
    requires s.pool.Some? && s.pool.value.size > 0 && s.pending == [] && id in s.units && BothQueued(s.units[id])
    ensures SysPossible(s, RefusedDeletion(id))
    ensures var t := SysAfter(s, RefusedDeletion(id));
            && t.pool == Some(s.pool.value.(size := s.pool.value.size - 1)) && t.pending == []
            && t.units.Keys == s.units.Keys
            && (var u := t.units[id];
                u.decremented && Recleanable(u))
  {
    var s1 := SysNext(s, Decrement(id, Present));
    var s2 := SysNext(s1, UnitEvent(id, MarkReady));
    RunCons(s2, Complete(0), []);
    RunCons(s1, UnitEvent(id, MarkReady), [Complete(0)] + []);
    RunCons(s, Decrement(id, Present), [UnitEvent(id, MarkReady)] + ([Complete(0)] + []));
  }

  lemma SecondDecrement(s: System, id: nat) returns (es: seq<SysEvent>)
    requires s.pool.Some? && s.pool.value.size > 0 && id in s.units
    requires s.units[id].decremented && Recleanable(s.units[id])
    ensures SysPossible(s, es) && forall e :: e in es ==> !e.Create?
    ensures var t := SysAfter(s, es);
            && t.units.Keys == s.units.Keys && t.pool == Some(s.pool.value.(size := s.pool.value.size - 1))
  {
    var again := AdmittedAgain(s.units[id]);
    UnitRun(s, id, again);
    var t := SysAfter(s, UnitEvents(id, again));
    RunCons(t, Decrement(id, Present), []);
    RunJoin(s, UnitEvents(id, again), [Decrement(id, Present)] + []);
    es := UnitEvents(id, again) + ([Decrement(id, Present)] + []);
  }

  /** Its deletion refused, the unit is cleaned up again, and taken off the size again. */
  lemma RefusedThenAgain(s: System, id: nat) returns (es: seq<SysEvent>)
    requires s.pool.Some? && s.pool.value.size > 1 && s.pending == [] && id in s.units && BothQueued(s.units[id])
    ensures SysPossible(s, es) && forall e :: e in es ==> !e.Create?
    ensures SysAfter(s, es).pool == Some(s.pool.value.(size := s.pool.value.size - 2))
    ensures SysAfter(s, es).units.Keys == s.units.Keys
  {
    DeletionRefused(s, id);
    var second := SecondDecrement(SysAfter(s, RefusedDeletion(id)), id);
    RunJoin(s, RefusedDeletion(id), second);
    es := RefusedDeletion(id) + second;
  }

  lemma TwiceFrom(s: System) returns (es: seq<SysEvent>)
    requires s.pool == Some(Pool(2, 2, false)) && s.pending == [] && 0 in s.units && s.units[0] == NEW_UNIT
    ensures SysPossible(s, es) && forall e :: e in es ==> !e.Create?
    ensures SysAfter(s, es).pool == Some(Pool(0, 2, false)) && SysAfter(s, es).units.Keys == s.units.Keys
  {
    var one := AdmittedEarly();
    UnitRun(s, 0, one);
    var rest := RefusedThenAgain(SysAfter(s, UnitEvents(0, one)), 0);
    RunJoin(s, UnitEvents(0, one), rest);
    es := UnitEvents(0, one) + rest;
  }

  /** From an empty pool, without a negative count: of two new units one is cleaned up while the finalizing job of its
      allocation is queued, its deletion is refused because that job brings the sandbox back, and a second cleanup
      takes it off the size again.  Both units are still there, and the size is zero. */
  lemma CountedTwice() returns (es: seq<SysEvent>)
    ensures SysPossible(EmptyPool(2), [Create(Some(2))] + es) && forall e :: e in es ==> !e.Create?
    ensures var t := SysAfter(EmptyPool(2), [Create(Some(2))] + es);
            t.pool == Some(Pool(0, 2, false)) && t.units.Keys == {0, 1}
  {
    TwoUnits();
    var s := SysNext(EmptyPool(2), Create(Some(2)));
    es := TwiceFrom(s);
    RunCons(EmptyPool(2), Create(Some(2)), es);
  }

  // ---------------------------------------------------------------- the operations on the database

  /** The pool row and its units, as the handlers and the finalizing jobs update them. */
  class PoolDatabase {
    var pool: Option<Pool>
    var units: map<nat, Unit>
    var nextId: nat
    var pending: seq<Pending>
    var strays: seq<Stray>

    ghost function State(): System
      reads this
    {
      System(pool, units, nextId, pending, strays)
    }

    /** `create_sandboxes_in_pool` with `create_allocations_requests`: one transaction. */
    method CreateSandboxes(count: Option<int>) returns (created: bool)
      requires pool.Some?
      modifies this
      ensures created <==> old(SysCan(State(), Create(count)))
      ensures State() == if created then old(SysNext(State(), Create(count))) else old(State())
      ensures created && count.None? ==> pool == Some(old(pool.value).(size := old(pool.value.maxSize)))
      ensures count.Some? ==> (created <==> 0 <= old(pool.value.size) + count.value <= old(pool.value.maxSize))
      ensures created && count.Some? ==> pool == Some(old(pool.value).(size := old(pool.value.size) + count.value))
    {
      var current := pool.value.size;
      var n := match count case None => pool.value.maxSize - current case Some(n) => n;
      if current + n > pool.value.maxSize || current + n < 0 {
        return false;
      }
      var first := nextId;
      var i := 0;
      while i < n
        invariant 0 <= i && (i <= n || i == 0) && nextId == first + i
        invariant pool == old(pool) && pending == old(pending) && strays == old(strays)
        invariant units == WithNewUnits(old(units), first, i)
      {
        units := units[nextId := NEW_UNIT];
        nextId := nextId + 1;
        i := i + 1;
      }
      pool := Some(pool.value.(size := current + n));
      created := true;
      assert WithNewUnits(old(units), first, i) == WithNewUnits(old(units), first, n);
    }

    /** First half of a finalizer: decrement under the row lock; the size column refuses a negative number. */
    method DecrementPool(id: nat, job: Finalizer) returns (saved: bool)
      requires pool.Some? && pool.value.size >= 0 && id in units && InQueue(units[id], job)
      modifies this
      ensures saved <==> old(SysCan(State(), Decrement(id, job)))
      ensures !saved ==> old(SysCan(State(), Fail(id, job)))
      ensures State() == old(SysNext(State(), if saved then Decrement(id, job) else Fail(id, job)))
    {
      var drops := Drops(units[id], job);
      units := units[id := Taken(units[id], job)];
      var row := pool.value;
      row := row.(size := row.size - 1);
      if row.size < 0 {
        return false;
      }
      pool, pending := Some(row), pending + [Pending(id, row.size, drops)];
      units := units[id := units[id].(decremented := true)];
      saved := true;
    }

    /** Second half: delete the unit, which its sandbox prevents, and then the pool, if this finalizer read zero. */
    method DeleteAllocationUnit(j: nat)
      requires j < |pending|
      modifies this
      ensures State() == old(SysNext(State(), Complete(j)))
    {
      var p := pending[j];
      pending := Without(pending, j);
      if p.id in units && units[p.id].sandbox.Some? {
        return;
      }
      if p.id in units {
        strays := strays + StraysOf(p.id, units[p.id]);
      }
      units := units - {p.id};
      if p.read == 0 && p.drops {
        TryDeletePool();
      }
    }

    /** `delete_pool`: the database protects a pool that still has units or a lock. */
    method TryDeletePool()
      modifies this`pool
      ensures pool == if old(pool.Some? && !pool.value.locked) && units == map[] then None else old(pool)
    {
      if pool.Some? && !pool.value.locked && units == map[] {
        pool := None;
      }
    }
  }
}
