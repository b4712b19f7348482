/** Progress accounting of a batch of allocations: the request group's counters and mails, over every
    interleaving of the batch's units. */
module RequestGroup {
  import opened Wrappers
  import opened StageChain
  import opened UnitLifecycle

  /** The row of a request group, and how often each mail was queued on commit. */
  datatype Group = Group(unitCount: nat, failed: nat, finished: nat, failMails: nat, summaries: nat)

  function NewGroup(unitCount: nat): Group { Group(unitCount, 0, 0, 0, 0) }

  function OnFail(g: Group): Group {
    Group(g.unitCount, g.failed + 1, g.finished + 1,
          g.failMails + (if g.failed == 0 then 1 else 0),
          g.summaries + (if g.finished + 1 == g.unitCount then 1 else 0))
  }

  function OnEnd(g: Group): Group {
    Group(g.unitCount, g.failed, g.finished + 1, g.failMails,
          g.summaries + (if g.finished + 1 == g.unitCount then 1 else 0))
  }

  class SandboxRequestGroup {
    const unitCount: nat
    var failedCount: nat
    var finishedCount: nat
    ghost var failMails: nat
    ghost var summaries: nat

    ghost function State(): Group
      reads this
    {
      Group(unitCount, failedCount, finishedCount, failMails, summaries)
    }

    constructor (units: nat)
      ensures State() == NewGroup(units)
    {
      unitCount, failedCount, finishedCount, failMails, summaries := units, 0, 0, 0, 0;
    }

    method OnAllocationFail()
      modifies this
      ensures State() == OnFail(old(State()))
    {
      if failedCount == 0 {
        failMails := failMails + 1;
      }
      failedCount := failedCount + 1;
      finishedCount := finishedCount + 1;
      if finishedCount == unitCount {
        summaries := summaries + 1;
      }
    }

    method OnAllocationEnd()
      modifies this
      ensures State() == OnEnd(old(State()))
    {
      finishedCount := finishedCount + 1;
      if finishedCount == unitCount {
        summaries := summaries + 1;
      }
    }
  }

  // ---------------------------------------------------------------- a batch

  datatype Batch = Batch(units: seq<Unit>, group: Group)

  function NewBatch(n: nat): Batch { Batch(seq(n, _ => NEW_UNIT), NewGroup(n)) }

  /** The calls that an event of a unit makes on the group. */
  function Reported(u: Unit, e: Event, g: Group): Group
    requires CanHappen(u, e)
  {
    if e.AllocStep? && e.step.FinishStage? && u.alloc.value.grouped then OnOutcome(g, e.step.i, e.step.o)
    else if e.DetachedEnds? then OnOutcome(g, u.detached.value, e.o)
    else g
  }

  /** The calls at the end of an execution of stage `i`. */
  function OnOutcome(g: Group, i: nat, o: Outcome): Group {
    match o
    case Failure => OnFail(g)
    case Success => if i == STAGES - 1 then OnEnd(g) else g
    case LateFailure => if i == STAGES - 1 then OnFail(OnEnd(g)) else OnFail(g)
  }

  predicate BatchCan(b: Batch, i: nat, e: Event) {
    i < |b.units| && CanHappen(b.units[i], e)
  }

  function BatchNext(b: Batch, i: nat, e: Event): Batch
    requires BatchCan(b, i, e)
  {
    Batch(b.units[i := Happen(b.units[i], e)], Reported(b.units[i], e, b.group))
  }

  predicate BatchPossible(b: Batch, es: seq<(nat, Event)>)
    decreases |es|
  {
    es == [] || (BatchCan(b, es[0].0, es[0].1) && BatchPossible(BatchNext(b, es[0].0, es[0].1), es[1..]))
  }

  function BatchAfter(b: Batch, es: seq<(nat, Event)>): Batch
    requires BatchPossible(b, es)
    decreases |es|
  {
    if es == [] then b else BatchAfter(BatchNext(b, es[0].0, es[0].1), es[1..])
  }

  function Reports(u: Unit): nat {
    if u.alloc.Some? then u.alloc.value.reports else 0
  }

  function Late(u: Unit): bool {
    u.alloc.Some? && u.alloc.value.late
  }

  function TotalReports(us: seq<Unit>): nat {
    if us == [] then 0 else Reports(us[0]) + TotalReports(us[1..])
  }

  ghost predicate GroupInv(g: Group) {
    && g.failed <= g.finished
    && g.failMails == (if g.failed > 0 then 1 else 0)
    && g.summaries == (if 0 < g.unitCount <= g.finished then 1 else 0)
  }

  ghost predicate BatchInv(b: Batch) {
    && (forall i :: 0 <= i < |b.units| ==> UnitInv(b.units[i]))
    && GroupInv(b.group) && b.group.unitCount == |b.units|
    && b.group.finished == TotalReports(b.units)
  }

  lemma {:induction false} TotalUpdate(us: seq<Unit>, i: nat, u: Unit)
    requires i < |us|
    ensures TotalReports(us[i := u]) + Reports(us[i]) == TotalReports(us) + Reports(u)
  {
    if i == 0 {
      assert us[0 := u][1..] == us[1..];
    } else {
      assert us[i := u][1..] == us[1..][i - 1 := u];
      TotalUpdate(us[1..], i - 1, u);
    }
  }

  lemma OutcomeCounts(c: Chain, g: Group, i: nat, o: Outcome)
    requires c.grouped
    ensures OnOutcome(g, i, o).finished == g.finished + ReportsOf(c, i, o)
    ensures GroupInv(g) ==> GroupInv(OnOutcome(g, i, o))
    ensures OnOutcome(g, i, o).unitCount == g.unitCount
  {
  }

  lemma ReportedInv(u: Unit, e: Event, g: Group)
    requires CanHappen(u, e)
    ensures GroupInv(g) ==> GroupInv(Reported(u, e, g))
    ensures Reported(u, e, g).unitCount == g.unitCount
  {
  }

  /** The chain's own report counter moves with the calls made on the group. */
  lemma ReportsMatch(u: Unit, e: Event, g: Group)
    requires UnitInv(u) && CanHappen(u, e)
    ensures Reported(u, e, g).finished + Reports(u) == g.finished + Reports(Happen(u, e))
  {
    match e
    case AllocStep(s) => StepReportsMatch(u, s, g);
    case CancelAllocation => CancelForm(u.alloc.value);
    case ForceCleanup(_) => CancelForm(u.alloc.value);
    case DetachedEnds(o) => OutcomeCounts(u.alloc.value.(grouped := true), g, u.detached.value, o);
    case _ =>
  }

  lemma StepReportsMatch(u: Unit, s: Step, g: Group)
    requires UnitInv(u) && CanHappen(u, AllocStep(s))
    ensures Reported(u, AllocStep(s), g).finished + Reports(u) == g.finished + Reports(Happen(u, AllocStep(s)))
  {
    StepReportCount(u.alloc.value, s);
    if s.FinishStage? && u.alloc.value.grouped { OutcomeCounts(u.alloc.value, g, s.i, s.o); }
  }

  lemma StepReportCount(c: Chain, s: Step)
    requires Inv(c) && Enabled(c, s)
    ensures StageChain.After(c, s).reports == c.reports + (if s.FinishStage? then ReportsOf(c, s.i, s.o) else 0)
  {
    if s.HandleFailure? { HandleForm(c, s.i); }
  }

  lemma BatchStep(b: Batch, i: nat, e: Event)
    requires BatchInv(b) && BatchCan(b, i, e)
    ensures BatchInv(BatchNext(b, i, e))
  {
    EventInv(b.units[i], e);
    ReportsMatch(b.units[i], e, b.group);
    ReportedInv(b.units[i], e, b.group);
    TotalUpdate(b.units, i, Happen(b.units[i], e));
  }

  lemma {:induction false} BatchRunInv(b: Batch, es: seq<(nat, Event)>)
    requires BatchInv(b) && BatchPossible(b, es)
    ensures BatchInv(BatchAfter(b, es)) && |BatchAfter(b, es).units| == |b.units|
    decreases |es|
  {
    if es != [] {
      BatchStep(b, es[0].0, es[0].1);
      BatchRunInv(BatchNext(b, es[0].0, es[0].1), es[1..]);
    }
  }

  lemma {:induction false} TotalBound(us: seq<Unit>)
    requires forall i :: 0 <= i < |us| ==> UnitInv(us[i]) && !Late(us[i])
    ensures TotalReports(us) <= |us|
  {
    if us != [] {
      assert UnitInv(us[0]) && !Late(us[0]);
      TotalBound(us[1..]);
    }
  }

  lemma {:induction false} NewBatchInv(n: nat)
    ensures BatchInv(NewBatch(n))
  {
    NothingReported(n);
  }

  lemma {:induction false} NothingReported(n: nat)
    ensures TotalReports(seq(n, _ => NEW_UNIT)) == 0
  {
    if n > 0 {
      assert seq(n, _ => NEW_UNIT)[1..] == seq(n - 1, _ => NEW_UNIT);
      NothingReported(n - 1);
    }
  }

  // ---------------------------------------------------------------- what the executions of a run were

  /** An execution that reports to the group ends: that of a stage created for a batch, or one that a restart detached.
      The third component is the stage. */
  function Ending(u: Unit, e: Event): Option<(nat, Outcome)>
    requires CanHappen(u, e)
  {
    match e
    case AllocStep(FinishStage(i, o)) => if u.alloc.value.grouped then Some((i, o)) else None
    case DetachedEnds(o) => Some((u.detached.value, o))
    case _ => None
  }

  predicate EndsFailed(u: Unit, e: Event)
    requires CanHappen(u, e)
  {
    Ending(u, e).Some? && Ending(u, e).value.1 != Success
  }

  /** The user playbook succeeded, whatever became of its container. */
  predicate EndsPlayed(u: Unit, e: Event)
    requires CanHappen(u, e)
  {
    Ending(u, e).Some? && Ending(u, e).value.0 == 2 && Ending(u, e).value.1 != Failure
  }

  /** The number of executions of a run that failed. */
  function FailedEndings(b: Batch, es: seq<(nat, Event)>): nat
    requires BatchPossible(b, es)
    decreases |es|
  {
    if es == [] then 0
    else (if EndsFailed(b.units[es[0].0], es[0].1) then 1 else 0)
         + FailedEndings(BatchNext(b, es[0].0, es[0].1), es[1..])
  }

  /** The number of user playbooks of a run that succeeded. */
  function PlayedEndings(b: Batch, es: seq<(nat, Event)>): nat
    requires BatchPossible(b, es)
    decreases |es|
  {
    if es == [] then 0
    else (if EndsPlayed(b.units[es[0].0], es[0].1) then 1 else 0)
         + PlayedEndings(BatchNext(b, es[0].0, es[0].1), es[1..])
  }

  lemma EndingCounted(u: Unit, e: Event, g: Group)
    requires CanHappen(u, e)
    ensures Reported(u, e, g).failed == g.failed + (if EndsFailed(u, e) then 1 else 0)
    ensures Reported(u, e, g).finished - Reported(u, e, g).failed
            == g.finished - g.failed + (if EndsPlayed(u, e) then 1 else 0)
  {
  }

  lemma {:induction false} EndingsCounted(b: Batch, es: seq<(nat, Event)>)
    requires BatchPossible(b, es)
    ensures var g := BatchAfter(b, es).group;
            && g.failed == b.group.failed + FailedEndings(b, es)
            && g.finished - g.failed == b.group.finished - b.group.failed + PlayedEndings(b, es)
    decreases |es|
  {
    if es != [] {
      EndingCounted(b.units[es[0].0], es[0].1, b.group);
      EndingsCounted(BatchNext(b, es[0].0, es[0].1), es[1..]);
    }
  }

  /** The events of one unit of a batch. */
  function EventsOf(es: seq<(nat, Event)>, i: nat): seq<Event> {
    if es == [] then [] else (if es[0].0 == i then [es[0].1] else []) + EventsOf(es[1..], i)
  }

  /** In an interleaving of a batch each unit takes a run of its own. */
  lemma {:induction false} UnitRun(b: Batch, es: seq<(nat, Event)>, i: nat)
    requires BatchPossible(b, es) && i < |b.units|
    ensures |BatchAfter(b, es).units| == |b.units| && Possible(b.units[i], EventsOf(es, i))
    ensures BatchAfter(b, es).units[i] == UnitLifecycle.After(b.units[i], EventsOf(es, i))
    decreases |es|
  {
    if es != [] {
      var next := BatchNext(b, es[0].0, es[0].1);
      UnitRun(next, es[1..], i);
      if es[0].0 == i {
        RunCons(b.units[i], es[0].1, EventsOf(es[1..], i));
      } else {
        assert [] + EventsOf(es[1..], i) == EventsOf(es[1..], i);
      }
    }
  }

  lemma GroupedNext(u: Unit, e: Event)
    requires UnitInv(u) && u.alloc.Some? && CanHappen(u, e)
    ensures !e.Allocate?
    ensures var v := Happen(u, e);
            v.alloc.Some? && (v.alloc.value.grouped <==> u.alloc.value.grouped && !Recreates(u, e))
  {
    if e.CancelAllocation? || e.ForceCleanup? { CancelForm(u.alloc.value); }
    if e.AllocStep? { GroupedStep(u.alloc.value, e.step); }
  }

  lemma GroupedStep(c: Chain, s: Step)
    requires Inv(c) && Enabled(c, s)
    ensures StageChain.After(c, s).grouped == c.grouped
  {
    if s.HandleFailure? { HandleForm(c, s.i); }
  }

  lemma {:induction false} GroupedRun(u: Unit, es: seq<Event>)
    requires UnitInv(u) && u.alloc.Some? && Possible(u, es)
    ensures forall e :: e in es ==> !e.Allocate?
    ensures var v := UnitLifecycle.After(u, es);
            v.alloc.Some? && (v.alloc.value.grouped <==> u.alloc.value.grouped && NoneRecreated(u, es))
    decreases |es|
  {
    if es != [] {
      GroupedNext(u, es[0]);
      EventInv(u, es[0]);
      GroupedRun(Happen(u, es[0]), es[1..]);
    }
  }

  /** The stages of a unit report to a group exactly if they were created for one and no restart has recreated any: a
      run starts with the creation of the stages, which happens once. */
  lemma GroupedIff(es: seq<Event>)
    requires Possible(NEW_UNIT, es) && es != []
    ensures es[0].Allocate? && forall i :: 0 < i < |es| ==> !es[i].Allocate?
    ensures var v := UnitLifecycle.After(NEW_UNIT, es);
            v.alloc.Some? && (v.alloc.value.grouped <==> es[0].grouped && NoneRecreated(NEW_UNIT, es))
  {
    EventInv(NEW_UNIT, es[0]);
    GroupedRun(Happen(NEW_UNIT, es[0]), es[1..]);
    assert forall i :: 0 < i < |es| ==> es[i] == es[1..][i - 1];
  }

  lemma GroupedInBatch(n: nat, es: seq<(nat, Event)>, i: nat)
    requires BatchPossible(NewBatch(n), es) && i < n && EventsOf(es, i) != []
    ensures var own, units := EventsOf(es, i), BatchAfter(NewBatch(n), es).units;
            && Possible(NEW_UNIT, own) && own[0].Allocate? && |units| == n && units[i].alloc.Some?
            && (units[i].alloc.value.grouped <==> own[0].grouped && NoneRecreated(NEW_UNIT, own))
  {
    UnitRun(NewBatch(n), es, i);
    GroupedIff(EventsOf(es, i));
  }

  /** Over every interleaving of a batch's units: the group has counted as failed exactly the executions that failed,
      and as finished those and the user playbooks that succeeded; the failure mail is queued once iff some execution
      failed, the summary once iff as many reports came in as there are units, and, unless a container deletion raised
      after a success, the counters stay within the size of the batch; a unit reports at most once exactly when no such
      failure followed its success. */
  lemma GroupAccounting(n: nat, es: seq<(nat, Event)>)
    requires n > 0 && BatchPossible(NewBatch(n), es)
    ensures var b := BatchAfter(NewBatch(n), es);
            && b.group.failed == FailedEndings(NewBatch(n), es)
            && b.group.finished == FailedEndings(NewBatch(n), es) + PlayedEndings(NewBatch(n), es)
            && b.group.finished == TotalReports(b.units)
            && b.group.failMails == (if FailedEndings(NewBatch(n), es) > 0 then 1 else 0)
            && b.group.summaries == (if b.group.finished >= n then 1 else 0)
            && (forall i :: 0 <= i < |b.units| ==> (Reports(b.units[i]) <= 1 <==> !Late(b.units[i])))
            && ((forall i :: 0 <= i < |b.units| ==> !Late(b.units[i])) ==> b.group.finished <= n)
  {
    NewBatchInv(n);
    BatchRunInv(NewBatch(n), es);
    EndingsCounted(NewBatch(n), es);
    BatchBound(BatchAfter(NewBatch(n), es));
  }

  lemma BatchBound(b: Batch)
    requires BatchInv(b)
    ensures forall i :: 0 <= i < |b.units| ==> (Reports(b.units[i]) <= 1 <==> !Late(b.units[i]))
    ensures (forall i :: 0 <= i < |b.units| ==> !Late(b.units[i])) ==> b.group.finished <= |b.units|
  {
    forall i | 0 <= i < |b.units| ensures Reports(b.units[i]) <= 1 <==> !Late(b.units[i]) {
      assert UnitInv(b.units[i]);
    }
    if forall i :: 0 <= i < |b.units| ==> !Late(b.units[i]) { TotalBound(b.units); }
  }
}
