/** The life of one sandbox allocation unit: allocation, cancellation, restart, plain and forced cleanup,
    interleaved with the workers that execute the stages. */
module UnitLifecycle {
  import opened Wrappers
  import opened StageChain

  /** A lock protects the row of its sandbox: the database refuses to delete it. */
  datatype Sandbox = Sandbox(id: nat, ready: bool, locked: bool)

  /** `owner` is the sandbox that the finalizing job of the current allocation chain carries;
      `cleanupJobs` are the enqueued jobs that will create the cleanup request and its stages, each with its choice
      whether to delete the pool as well, and `cleanupDrops` is that of the job that created the present stages;
      `leftover` are the finalizers queued for stages that a later job has replaced;
      `decremented` says that some finalizer has taken the unit off the pool's size;
      `detached` is the stage of the batch whose row a restart deleted while a worker was executing it. */
  datatype Unit = Unit(alloc: Option<Chain>, detached: Option<nat>, sandbox: Option<Sandbox>, owner: nat,
                       nextSandbox: nat, admitted: bool, cleanupJobs: seq<bool>, cleanupRow: bool,
                       cleanup: Option<Chain>, cleanupDrops: bool, leftover: seq<bool>, decremented: bool)

  /** A unit as `create_allocations_requests` leaves it: its stages are created by a later job. */
  const NEW_UNIT := Unit(None, None, None, 0, 0, false, [], false, None, false, [], false)

  datatype Event =
    | Allocate(netbird: bool, grouped: bool)
    | AllocStep(step: Step)
    | DetachedEnds(o: Outcome)
    | MarkReady
    | CancelAllocation
    | Lock
    | Unlock
    | Restart(withNetbird: bool)
    | AdmitCleanup
    | ForceCleanup(withPool: bool)
    | CreateCleanup(job: nat)
    | CleanStep(step: Step)
    | CancelCleanup
    | DropCleanupRequest

  predicate StackRunning(c: Chain)
    requires |c.stages| == STAGES
  {
    var r := c.stages[0].row;
    !(r.finished || r.failed) && r.started
  }

  predicate Sized(u: Unit) {
    && (u.alloc.Some? ==> |u.alloc.value.stages| == STAGES)
    && (u.cleanup.Some? ==> |u.cleanup.value.stages| == STAGES)
  }

  /** The restart passes the two guards of `_restart_stage_handlers`. */
  predicate RestartAccepted(c: Chain)
    requires |c.stages| == STAGES
  {
    AllFinished(c) && c.stages[STAGES - 1].row.failed
  }

  /** The guards of the handlers. */
  predicate CanHappen(u: Unit, e: Event) {
    Sized(u) &&
    match e
    case Allocate(_, _) => u.alloc.None?
    case AllocStep(s) => u.alloc.Some? && Enabled(u.alloc.value, s)
    case MarkReady => u.alloc.Some? && u.alloc.value.fin == Queued
    case CancelAllocation => u.alloc.Some? && !AllFinished(u.alloc.value)
    case DetachedEnds(_) => u.alloc.Some? && u.detached.Some?
    case Lock => u.sandbox.Some? && !u.sandbox.value.locked
    case Unlock => u.sandbox.Some? && u.sandbox.value.locked
    case Restart(_) => u.alloc.Some? && u.sandbox.Some?
    case AdmitCleanup =>
      && u.alloc.Some? && !StackRunning(u.alloc.value) && AllFinished(u.alloc.value) && !u.cleanupRow
      && (u.sandbox.Some? ==> !u.sandbox.value.locked)
    case ForceCleanup(_) =>
      && u.alloc.Some? && !StackRunning(u.alloc.value)
      && (u.cleanupRow && u.cleanup.Some? ==> AllFinished(u.cleanup.value))
    case CreateCleanup(k) => k < |u.cleanupJobs|
    case CleanStep(s) => u.cleanup.Some? && Enabled(u.cleanup.value, s)
    case CancelCleanup => u.cleanupRow && u.cleanup.Some? && !AllFinished(u.cleanup.value)
    case DropCleanupRequest => u.cleanupRow && (u.cleanup.Some? ==> AllFinished(u.cleanup.value))
  }

  /** Stages of a cleanup chain whose finalizer is queued. */
  predicate FinalizerDue(u: Unit) {
    u.cleanup.Some? && u.cleanup.value.fin == Queued
  }

  /** A new sandbox takes the place of the old one. */
  function Resandboxed(u: Unit): Unit {
    u.(sandbox := Some(Sandbox(u.nextSandbox, false, false)), nextSandbox := u.nextSandbox + 1)
  }

  /** The sandbox goes, its lock has gone before, and a job that creates the cleanup is enqueued. */
  function CleanupEnqueued(u: Unit, withPool: bool): Unit {
    u.(sandbox := None, admitted := true, cleanupJobs := u.cleanupJobs + [withPool])
  }

  function Without<T>(s: seq<T>, k: nat): seq<T>
    requires k < |s|
  {
    s[..k] + s[k + 1..]
  }

  function Happen(u: Unit, e: Event): Unit
    requires CanHappen(u, e)
  {
    match e
    case Allocate(netbird, grouped) =>
      Resandboxed(u).(alloc := Some(Enqueued([], netbird, grouped, 0, false)), owner := u.nextSandbox)
    case AllocStep(s) => u.(alloc := Some(StageChain.After(u.alloc.value, s)))
    case DetachedEnds(o) => u.(alloc := Some(ReportedLate(u.alloc.value, u.detached.value, o)), detached := None)
    case MarkReady =>
      // saving an updated row inserts it when it is gone; a unit has at most one sandbox row
      u.(alloc := Some(RunFinalizer(u.alloc.value)),
         sandbox := if u.sandbox.None? then Some(Sandbox(u.owner, true, false))
                    else if u.sandbox.value.id == u.owner then Some(u.sandbox.value.(ready := true)) else u.sandbox)
    case CancelAllocation => u.(alloc := Some(Cancel(u.alloc.value)))
    case Lock => u.(sandbox := Some(u.sandbox.value.(locked := true)))
    case Unlock => u.(sandbox := Some(u.sandbox.value.(locked := false)))
    case Restart(netbird) =>
      // the old sandbox is deleted, which a lock prevents, and replaced before the guards run
      if u.sandbox.value.locked then u
      else if !RestartAccepted(u.alloc.value) then Resandboxed(u)
      else Resandboxed(u).(alloc := Some(Restarted(u.alloc.value, netbird)), owner := u.nextSandbox,
             detached := if Reporter(u.alloc.value).Some? then Reporter(u.alloc.value) else u.detached)
    case AdmitCleanup => CleanupEnqueued(u, false)
    case ForceCleanup(withPool) =>
      var c := if AllFinished(u.alloc.value) then u.alloc.value else Cancel(u.alloc.value);
      CleanupEnqueued(u.(alloc := Some(c)), withPool)
    case CreateCleanup(k) =>
      // replaced stage rows are gone, so their workers cannot save them; a finalizer in the queue stays there
      u.(cleanupJobs := Without(u.cleanupJobs, k), cleanupRow := true, cleanupDrops := u.cleanupJobs[k],
         cleanup := Some(Enqueued([], false, false, 0, false)),
         leftover := if FinalizerDue(u) then u.leftover + [u.cleanupDrops] else u.leftover)
    case CleanStep(s) => u.(cleanup := Some(StageChain.After(u.cleanup.value, s)))
    case CancelCleanup => u.(cleanup := Some(Cancel(u.cleanup.value)))
    case DropCleanupRequest => u.(cleanupRow := false)
  }

  // ---------------------------------------------------------------- the invariant

  ghost predicate AllSucceeded(c: Chain)
    requires |c.stages| == STAGES
  {
    forall i :: 0 <= i < STAGES ==> Succeeded(c.stages[i])
  }

  ghost predicate UnitInv(u: Unit) {
    && (u.alloc.None? ==> u == NEW_UNIT)
    && (u.alloc.Some? ==> Inv(u.alloc.value) && ReportInv(u.alloc.value) && u.owner < u.nextSandbox)
    && (u.detached.Some? ==> u.alloc.Some? && !u.alloc.value.grouped && u.alloc.value.reports == 0)
    && (u.sandbox.Some? ==> u.sandbox.value.id < u.nextSandbox)
    && (u.sandbox.Some? && u.sandbox.value.ready ==> AllSucceeded(u.alloc.value))
    && (u.admitted ==> AllFinished(u.alloc.value) && (u.sandbox.Some? ==> AllSucceeded(u.alloc.value)))
    && (u.cleanup.Some? ==> Inv(u.cleanup.value))
    && (u.cleanupJobs != [] || u.cleanupRow || u.cleanup.Some? || u.leftover != [] || u.decremented ==> u.admitted)
  }

  lemma SucceededFinished(c: Chain)
    requires |c.stages| == STAGES
    ensures AllSucceeded(c) ==> AllFinished(c)
  {
  }

  lemma AllocStepInv(u: Unit, s: Step)
    requires UnitInv(u) && CanHappen(u, AllocStep(s))
    ensures UnitInv(Happen(u, AllocStep(s)))
  {
    StepReports(u.alloc.value, s);
    if AllFinished(u.alloc.value) { StepKeepsFinished(u.alloc.value, s); }
    SucceededFinished(u.alloc.value);
  }

  /** A stage of a batch that is still executing has reported nothing. */
  lemma NothingReportedYet(c: Chain)
    requires Inv(c) && ReportInv(c) && Reporter(c).Some?
    ensures c.reports == 0
  {
    assert MayReport(c, Reporter(c).value);
  }

  lemma DetachedInv(u: Unit, o: Outcome)
    requires UnitInv(u) && CanHappen(u, DetachedEnds(o))
    ensures UnitInv(Happen(u, DetachedEnds(o)))
  {
    var c, d := u.alloc.value, ReportedLate(u.alloc.value, u.detached.value, o);
    assert d.stages == c.stages && d.first == c.first && d.extra == c.extra && d.fin == c.fin;
    SameStages(c, d);
  }

  /** The invariant does not depend on the reports. */
  lemma SameStages(c: Chain, d: Chain)
    requires Inv(c) && d.stages == c.stages && d.first == c.first && d.extra == c.extra && d.fin == c.fin
    ensures Inv(d)
  {
    assert forall i :: 0 <= i < STAGES ==> (DepsFinished(d, i) <==> DepsFinished(c, i));
  }

  lemma RestartEventInv(u: Unit, netbird: bool)
    requires UnitInv(u) && CanHappen(u, Restart(netbird))
    ensures UnitInv(Happen(u, Restart(netbird)))
  {
    var c := u.alloc.value;
    if !u.sandbox.value.locked && RestartAccepted(c) {
      if Reporter(c).Some? { NothingReportedYet(c); }
      RestartInv(c, netbird);
      EnqueuedReports(c.stages[..FirstRestarted(c)], netbird, false, c.reports, c.late);
      assert !AllSucceeded(c);
    }
  }

  lemma CancelEventInv(u: Unit)
    requires UnitInv(u) && CanHappen(u, CancelAllocation)
    ensures UnitInv(Happen(u, CancelAllocation))
  {
    CancelInv(u.alloc.value);
    CancelReports(u.alloc.value);
    SucceededFinished(u.alloc.value);
  }

  lemma AdmissionInv(u: Unit, e: Event)
    requires UnitInv(u) && (e.AdmitCleanup? || e.ForceCleanup?) && CanHappen(u, e)
    ensures UnitInv(Happen(u, e)) && Happen(u, e).admitted
  {
    CancelInv(u.alloc.value);
    CancelReports(u.alloc.value);
  }

  lemma CleanStepInv(u: Unit, s: Step)
    requires UnitInv(u) && CanHappen(u, CleanStep(s))
    ensures UnitInv(Happen(u, CleanStep(s)))
  {
    StepInv(u.cleanup.value, s);
  }

  lemma EventInv(u: Unit, e: Event)
    requires UnitInv(u) && CanHappen(u, e)
    ensures UnitInv(Happen(u, e))
  {
    match e
    case Allocate(netbird, grouped) =>
      EnqueuedInv([], netbird, grouped, 0, false);
      EnqueuedReports([], netbird, grouped, 0, false);
    case AllocStep(s) => AllocStepInv(u, s);
    case DetachedEnds(o) => DetachedInv(u, o);
    case MarkReady => MarkReadyInv(u);
    case CancelAllocation => CancelEventInv(u);
    case Restart(netbird) => RestartEventInv(u, netbird);
    case AdmitCleanup => AdmissionInv(u, e);
    case ForceCleanup(_) => AdmissionInv(u, e);
    case CreateCleanup(_) => EnqueuedInv([], false, false, 0, false);
    case CleanStep(s) => CleanStepInv(u, s);
    case CancelCleanup => CancelInv(u.cleanup.value);
    case _ =>
  }

  /** A queued finalizing job means that every stage has succeeded. */
  lemma FinalizerQueued(c: Chain)
    requires Inv(c) && c.fin == Queued
    ensures AllSucceeded(c)
  {
    assert c.stages[STAGES - 1].job == Finished;
    forall i | 0 <= i < STAGES - 1 ensures Succeeded(c.stages[i]) {
      assert Precedes(c.stages[i], c.stages[STAGES - 1], c.first <= i);
    }
  }

  lemma FinalizedInv(c: Chain)
    requires Inv(c) && ReportInv(c) && c.fin == Queued
    ensures Inv(RunFinalizer(c)) && ReportInv(RunFinalizer(c)) && AllSucceeded(c)
  {
    FinalizerQueued(c);
    assert forall k :: 0 <= k < STAGES ==> (DepsFinished(RunFinalizer(c), k) <==> DepsFinished(c, k));
    assert forall k :: 0 <= k < STAGES && MayReport(RunFinalizer(c), k) ==> MayReport(c, k);
  }

  lemma MarkReadyInv(u: Unit)
    requires UnitInv(u) && CanHappen(u, MarkReady)
    ensures UnitInv(Happen(u, MarkReady))
  {
    FinalizedInv(u.alloc.value);
  }

  // ---------------------------------------------------------------- runs

  /** The events of a run can happen one after the other. */
  predicate Possible(u: Unit, es: seq<Event>)
    decreases |es|
  {
    es == [] || (CanHappen(u, es[0]) && Possible(Happen(u, es[0]), es[1..]))
  }

  function After(u: Unit, es: seq<Event>): Unit
    requires Possible(u, es)
    decreases |es|
  {
    if es == [] then u else After(Happen(u, es[0]), es[1..])
  }

  lemma {:induction false} RunInv(u: Unit, es: seq<Event>)
    requires UnitInv(u) && Possible(u, es)
    ensures UnitInv(After(u, es))
    decreases |es|
  {
    if es != [] {
      EventInv(u, es[0]);
      RunInv(Happen(u, es[0]), es[1..]);
    }
  }

  ghost predicate Reachable(u: Unit) {
    exists es :: Possible(NEW_UNIT, es) && After(NEW_UNIT, es) == u
  }

  lemma ReachableInv(u: Unit)
    requires Reachable(u)
    ensures UnitInv(u)
  {
    var es :| Possible(NEW_UNIT, es) && After(NEW_UNIT, es) == u;
    RunInv(NEW_UNIT, es);
  }

  /** No allocation stage of the unit is deferred, queued, or able to start. */
  ghost predicate Quiet(u: Unit) {
    && u.alloc.Some? && Sized(u)
    && forall i :: 0 <= i < STAGES ==>
         && u.alloc.value.stages[i].job != Deferred && u.alloc.value.stages[i].job != Queued
         && !CanHappen(u, AllocStep(StartStage(i)))
  }

  lemma {:induction false} AdmittedSticks(u: Unit, es: seq<Event>)
    requires Possible(u, es) && u.admitted
    ensures After(u, es).admitted
    decreases |es|
  {
    if es != [] { AdmittedSticks(Happen(u, es[0]), es[1..]); }
  }

  /** From the step that admits a unit's cleanup, plain or forced, no allocation stage of the unit is
      waiting or can start, whatever happens before and after. */
  lemma NoStageAfterAdmission(u: Unit, admit: Event, later: seq<Event>)
    requires Reachable(u) && CanHappen(u, admit) && (admit.AdmitCleanup? || admit.ForceCleanup?)
    requires Possible(Happen(u, admit), later)
    ensures Quiet(After(Happen(u, admit), later))
  {
    ReachableInv(u);
    AdmissionInv(u, admit);
    RunInv(Happen(u, admit), later);
    AdmittedSticks(Happen(u, admit), later);
    AdmittedQuiet(After(Happen(u, admit), later));
  }

  lemma AdmittedQuiet(u: Unit)
    requires UnitInv(u) && u.admitted
    ensures Quiet(u)
  {
    assert forall i :: 0 <= i < STAGES ==> u.alloc.value.stages[i] in u.alloc.value.stages;
  }

  /** In every reachable state a ready sandbox has three finished stages, none of which failed. */
  lemma ReadyMeansSucceeded(u: Unit)
    requires Reachable(u) && u.sandbox.Some? && u.sandbox.value.ready
    ensures u.alloc.Some? && |u.alloc.value.stages| == STAGES
    ensures forall s :: s in u.alloc.value.stages ==> s.row.finished && !s.row.failed
  {
    ReachableInv(u);
  }

  /** In every run a stage starts only after the stage before it has succeeded, and the user stage only
      after the NetBird job of its chain has finished. */
  lemma StagesStartInOrder(u: Unit, i: nat)
    requires Reachable(u) && CanHappen(u, AllocStep(StartStage(i)))
    ensures var c := u.alloc.value;
            && (forall k :: 0 <= k < i ==> c.stages[k].row.finished && !c.stages[k].row.failed)
            && (i == STAGES - 1 && c.extra.Some? ==> c.extra.value == Finished)
  {
    ReachableInv(u);
    StartOrder(u.alloc.value, i);
  }

  /** The restart gets past the lock and the guards. */
  predicate Restarts(u: Unit)
    requires CanHappen(u, Restart(false))
  {
    !u.sandbox.value.locked && RestartAccepted(u.alloc.value)
  }

  /** Whenever a restart is accepted, it recreates exactly the failed stages, which form a suffix of the
      chain, in chain order, and keeps the others; it enqueues the NetBird job again whichever stage failed first, the
      stages carry no group any more, and the finalizing job carries a new sandbox. */
  lemma AcceptedRestart(u: Unit, netbird: bool)
    requires Reachable(u) && CanHappen(u, Restart(netbird)) && Restarts(u)
    ensures var c, v := u.alloc.value, Happen(u, Restart(netbird));
            && v.alloc.Some? && |v.alloc.value.stages| == STAGES
            && (forall i :: 0 <= i < STAGES ==> (c.stages[i].row.failed <==> v.alloc.value.first <= i))
            && (forall i :: 0 <= i < v.alloc.value.first ==> v.alloc.value.stages[i] == c.stages[i])
            && (forall i :: v.alloc.value.first <= i < STAGES ==> v.alloc.value.stages[i].row == NEW_ROW)
    ensures RestartedAnew(u, Happen(u, Restart(netbird)), netbird) && Detaches(u, Happen(u, Restart(netbird)))
  {
    ReachableInv(u);
    RestartedStages(u.alloc.value, netbird);
    RestartedJobs(u.alloc.value, netbird);
    ReporterIs(u.alloc.value);
  }

  /** At most one stage of a finished chain is still being executed. */
  lemma ReporterIs(c: Chain)
    requires Inv(c)
    ensures forall i :: 0 <= i < STAGES && c.grouped && c.stages[i].worker.Some? ==> Reporter(c) == Some(i)
    ensures Reporter(c).Some? ==> c.grouped && Reporter(c).value < STAGES && c.stages[Reporter(c).value].worker.Some?
  {
    assert Precedes(c.stages[0], c.stages[1], c.first <= 0) && Precedes(c.stages[0], c.stages[2], c.first <= 0);
    assert Precedes(c.stages[1], c.stages[2], c.first <= 1);
  }

  /** The stage whose worker the restart detaches from its row, if one reports to the group. */
  ghost predicate Detaches(u: Unit, v: Unit)
    requires u.alloc.Some? && |u.alloc.value.stages| == STAGES
  {
    && (forall i :: 0 <= i < STAGES && u.alloc.value.grouped && u.alloc.value.stages[i].worker.Some? ==>
          v.detached == Some(i))
    && ((!u.alloc.value.grouped || forall i :: 0 <= i < STAGES ==> u.alloc.value.stages[i].worker.None?) ==>
          v.detached == u.detached)
  }

  /** What an accepted restart enqueues. */
  ghost predicate RestartedAnew(u: Unit, v: Unit, netbird: bool) {
    && v.alloc.Some? && |v.alloc.value.stages| == STAGES
    && v.alloc.value.extra == (if netbird then Some(Queued) else None) && v.alloc.value.fin == Deferred
    && !v.alloc.value.grouped
    && (forall i :: v.alloc.value.first <= i < STAGES ==>
          v.alloc.value.stages[i].job == if i == v.alloc.value.first && !(i == 2 && netbird) then Queued else Deferred)
    && v.sandbox == Some(Sandbox(v.owner, false, false)) && u.sandbox.Some? && v.owner > u.sandbox.value.id
    && v.nextSandbox > v.owner
  }

  // ---------------------------------------------------------------- refused cleanups

  /** A plain cleanup is accepted exactly when every stage row is finished, no cleanup request exists and no lock
      protects the sandbox. */
  lemma AdmittedIff(u: Unit)
    requires Reachable(u) && u.alloc.Some?
    ensures |u.alloc.value.stages| == STAGES
    ensures CanHappen(u, AdmitCleanup) <==>
              (forall i :: 0 <= i < STAGES ==> u.alloc.value.stages[i].row.finished) && !u.cleanupRow
              && !(u.sandbox.Some? && u.sandbox.value.locked)
  {
    ReachableInv(u);
  }

  /** A forced cleanup is refused exactly while the stack stage has been started and has neither finished nor failed,
      that is, while a worker executes it, or while a stage of another cleanup is unfinished. */
  lemma ForceRefusedIff(u: Unit, withPool: bool)
    requires Reachable(u) && u.alloc.Some?
    ensures |u.alloc.value.stages| == STAGES
    ensures var stack := u.alloc.value.stages[0];
            !CanHappen(u, ForceCleanup(withPool)) <==>
              (stack.row.started && !stack.row.finished && !stack.row.failed)
              || (u.cleanupRow && u.cleanup.Some? && exists s :: s in u.cleanup.value.stages && !s.row.finished)
  {
    StackWellFormed(u);
  }

  lemma StackStartedIff(u: Unit)
    requires Reachable(u) && u.alloc.Some?
    ensures |u.alloc.value.stages| == STAGES
    ensures var stack := u.alloc.value.stages[0];
            stack.row.started && !stack.row.finished && !stack.row.failed <==> stack.job == Started
  {
    StackWellFormed(u);
    RunningRow(u.alloc.value.stages[0]);
  }

  /** A restart is accepted exactly when there is a sandbox without a lock, all stages are finished and the user stage
      has failed. */
  lemma RestartAcceptedIff(u: Unit, netbird: bool)
    requires Reachable(u) && u.alloc.Some?
    ensures |u.alloc.value.stages| == STAGES
    ensures CanHappen(u, Restart(netbird)) && Recreates(u, Restart(netbird)) <==>
              (u.sandbox.Some? && !u.sandbox.value.locked
               && (forall i :: 0 <= i < STAGES ==> u.alloc.value.stages[i].row.finished)
               && u.alloc.value.stages[2].row.failed)
  {
    StackWellFormed(u);
  }

  /** A cancellation is refused exactly when nothing is unfinished. */
  lemma CancelRefusedIff(u: Unit)
    requires Reachable(u) && u.alloc.Some?
    ensures CanHappen(u, CancelAllocation) <==> exists s :: s in u.alloc.value.stages && !s.row.finished
  {
    StackWellFormed(u);
  }

  /** So is that of a cleanup; its request can be deleted exactly when it cannot be cancelled. */
  lemma DropRefusedIff(u: Unit)
    requires Reachable(u)
    ensures CanHappen(u, CancelCleanup) <==>
              u.cleanupRow && u.cleanup.Some? && exists s :: s in u.cleanup.value.stages && !s.row.finished
    ensures CanHappen(u, DropCleanupRequest) <==> u.cleanupRow && !CanHappen(u, CancelCleanup)
  {
    StackWellFormed(u);
  }

  /** A cancellation records the unfinished stages as failed, and changes nothing but its request. */
  lemma CancelAllocationRecords(u: Unit)
    requires Reachable(u) && CanHappen(u, CancelAllocation)
    ensures var v := Happen(u, CancelAllocation);
            v.alloc.Some? && CancelledFrom(u.alloc.value, v.alloc.value) && v == u.(alloc := v.alloc)
  {
    ReachableInv(u);
    CancelRecords(u.alloc.value);
  }

  lemma CancelCleanupRecords(u: Unit)
    requires Reachable(u) && CanHappen(u, CancelCleanup)
    ensures var v := Happen(u, CancelCleanup);
            v.cleanup.Some? && CancelledFrom(u.cleanup.value, v.cleanup.value) && v == u.(cleanup := v.cleanup)
  {
    ReachableInv(u);
    CancelRecords(u.cleanup.value);
  }

  /** A chain whose stages wait one for the other, the last also for the NetBird job, if there is one. */
  ghost predicate Anew(c: Chain, netbird: bool, grouped: bool) {
    && |c.stages| == STAGES && c.first == 0 && c.extra == (if netbird then Some(Queued) else None) && c.fin == Deferred
    && (forall i :: 0 <= i < STAGES ==>
          c.stages[i] == Stage(NEW_ROW, if i == 0 then Queued else Deferred, None, false))
    && c.grouped == grouped && c.reports == 0 && !c.late
  }

  /** What the creation of the stages of an allocation and of a cleanup leaves: a chain that nobody has worked on, for
      the allocation with a new sandbox that its finalizing job carries, for the cleanup without a NetBird job; the
      creating job is gone and has passed on its choice about the pool. */
  lemma CreationEvents(u: Unit, netbird: bool, grouped: bool, k: nat)
    requires Sized(u)
    ensures CanHappen(u, Allocate(netbird, grouped)) ==>
              var v := Happen(u, Allocate(netbird, grouped));
              && v.alloc.Some? && Anew(v.alloc.value, netbird, grouped)
              && v.sandbox == Some(Sandbox(v.owner, false, false)) && v.owner >= u.nextSandbox
              && v.nextSandbox > v.owner
    ensures CanHappen(u, CreateCleanup(k)) ==>
              var v := Happen(u, CreateCleanup(k));
              && v.cleanup.Some? && Anew(v.cleanup.value, false, false) && v.cleanupRow
              && v.cleanupDrops == u.cleanupJobs[k] && v.cleanupJobs == u.cleanupJobs[..k] + u.cleanupJobs[k + 1..]
              && v.alloc == u.alloc && v.sandbox == u.sandbox
  {
  }

  lemma StackWellFormed(u: Unit)
    requires Reachable(u)
    ensures Sized(u) && (u.alloc.Some? ==> WellFormed(u.alloc.value.stages[0]))
  {
    ReachableInv(u);
  }

  lemma RunningRow(s: Stage)
    requires WellFormed(s)
    ensures s.row.started && !s.row.finished && !s.row.failed <==> s.job == Started
    ensures s.job == Started <==> Running(s)
  {
  }

  /** The event ends the execution of the stack stage, or cancels it. */
  predicate EndsStack(e: Event) {
    e.CancelAllocation? || (e.AllocStep? && e.step.FinishStage? && e.step.i == 0)
  }

  lemma StackStepRuns(c: Chain, s: Step)
    requires Inv(c) && Running(c.stages[0]) && Enabled(c, s) && !(s.FinishStage? && s.i == 0)
    ensures var d := StageChain.After(c, s); |d.stages| == STAGES && Running(d.stages[0])
  {
    assert forall j :: 0 < j < STAGES ==> Precedes(c.stages[0], c.stages[j], c.first <= 0);
  }

  lemma StackRuns(u: Unit, e: Event)
    requires UnitInv(u) && u.alloc.Some? && Running(u.alloc.value.stages[0]) && CanHappen(u, e) && !EndsStack(e)
    ensures !e.ForceCleanup? && !e.AdmitCleanup?
    ensures var v := Happen(u, e);
            v.alloc.Some? && |v.alloc.value.stages| == STAGES && Running(v.alloc.value.stages[0])
  {
    assert u.alloc.value.stages[0] in u.alloc.value.stages;
    if e.AllocStep? { StackStepRuns(u.alloc.value, e.step); }
  }

  lemma {:induction false} StackRunsOn(u: Unit, es: seq<Event>)
    requires UnitInv(u) && u.alloc.Some? && Running(u.alloc.value.stages[0]) && Possible(u, es)
    requires forall e :: e in es ==> !EndsStack(e)
    ensures forall e :: e in es ==> !e.ForceCleanup? && !e.AdmitCleanup?
    ensures var v := After(u, es); UnitInv(v) && v.alloc.Some? && Running(v.alloc.value.stages[0])
    decreases |es|
  {
    if es != [] {
      StackRuns(u, es[0]);
      EventInv(u, es[0]);
      StackRunsOn(Happen(u, es[0]), es[1..]);
    }
  }

  /** From the start of the stack stage until a worker ends it or the allocation is cancelled, no cleanup, plain or
      forced, is accepted, whatever else happens. */
  lemma NoCleanupUnderStack(u: Unit, es: seq<Event>, withPool: bool)
    requires Reachable(u) && CanHappen(u, AllocStep(StartStage(0)))
    requires Possible(Happen(u, AllocStep(StartStage(0))), es) && forall e :: e in es ==> !EndsStack(e)
    ensures forall e :: e in es ==> !e.ForceCleanup? && !e.AdmitCleanup?
    ensures var v := After(Happen(u, AllocStep(StartStage(0))), es);
            !CanHappen(v, ForceCleanup(withPool)) && !CanHappen(v, AdmitCleanup)
  {
    ReachableInv(u);
    var v := Happen(u, AllocStep(StartStage(0)));
    EventInv(u, AllocStep(StartStage(0)));
    StackRunsOn(v, es);
    StackRefuses(After(v, es), withPool);
  }

  lemma StackRefuses(u: Unit, withPool: bool)
    requires UnitInv(u) && u.alloc.Some? && Running(u.alloc.value.stages[0])
    ensures !CanHappen(u, ForceCleanup(withPool)) && !CanHappen(u, AdmitCleanup)
  {
    assert u.alloc.value.stages[0] in u.alloc.value.stages;
  }

  lemma StackStarted(netbird: bool, grouped: bool) returns (u: Unit)
    ensures CanHappen(NEW_UNIT, Allocate(netbird, grouped))
    ensures CanHappen(Happen(NEW_UNIT, Allocate(netbird, grouped)), AllocStep(StartStage(0)))
    ensures u == Happen(Happen(NEW_UNIT, Allocate(netbird, grouped)), AllocStep(StartStage(0)))
    ensures UnitInv(u) && u.alloc.Some? && Running(u.alloc.value.stages[0]) && u.cleanup.None?
  {
    u := Happen(NEW_UNIT, Allocate(netbird, grouped));
    EventInv(NEW_UNIT, Allocate(netbird, grouped));
    EventInv(u, AllocStep(StartStage(0)));
    u := Happen(u, AllocStep(StartStage(0)));
  }

  lemma StackEnded(u: Unit, o: Outcome, withPool: bool)
    requires UnitInv(u) && u.alloc.Some? && Running(u.alloc.value.stages[0]) && u.cleanup.None?
    ensures CanHappen(u, AllocStep(FinishStage(0, o)))
    ensures CanHappen(Happen(u, AllocStep(FinishStage(0, o))), ForceCleanup(withPool))
  {
    var v := Happen(u, AllocStep(FinishStage(0, o)));
    assert v.alloc.value.stages[0].row.finished;
  }

  /** The shortest such run: a new unit, its stages, the start of the first; a worker that ends the stage lifts the
      refusal. */
  lemma ForceRefusedRun(netbird: bool, grouped: bool, withPool: bool, o: Outcome)
    ensures var es := [Allocate(netbird, grouped), AllocStep(StartStage(0))];
            Possible(NEW_UNIT, es) && !CanHappen(After(NEW_UNIT, es), ForceCleanup(withPool))
            && CanHappen(After(NEW_UNIT, es), AllocStep(FinishStage(0, o)))
            && CanHappen(Happen(After(NEW_UNIT, es), AllocStep(FinishStage(0, o))), ForceCleanup(withPool))
  {
    var u := StackStarted(netbird, grouped);
    RunCons(Happen(NEW_UNIT, Allocate(netbird, grouped)), AllocStep(StartStage(0)), []);
    RunCons(NEW_UNIT, Allocate(netbird, grouped), [AllocStep(StartStage(0))] + []);
    assert [Allocate(netbird, grouped)] + ([AllocStep(StartStage(0))] + [])
        == [Allocate(netbird, grouped), AllocStep(StartStage(0))];
    StackRefuses(u, withPool);
    StackEnded(u, o, withPool);
  }

  // ---------------------------------------------------------------- termination

  /** Worker steps of the allocation and cancel requests: everything but a restart and a cleanup. */
  predicate AllocationEvent(e: Event) {
    e.AllocStep? || e.MarkReady? || e.CancelAllocation?
  }

  function AllocationEvents(es: seq<Event>): nat {
    if es == [] then 0 else (if AllocationEvent(es[0]) then 1 else 0) + AllocationEvents(es[1..])
  }

  /** The restart recreates stages. */
  predicate Recreates(u: Unit, e: Event)
    requires CanHappen(u, e)
  {
    e.Restart? && Restarts(u)
  }

  /** No restart of the run is accepted. */
  predicate NoneRecreated(u: Unit, es: seq<Event>)
    requires Possible(u, es)
    decreases |es|
  {
    es == [] || (!Recreates(u, es[0]) && NoneRecreated(Happen(u, es[0]), es[1..]))
  }

  lemma EventRank(u: Unit, e: Event)
    requires UnitInv(u) && u.alloc.Some? && CanHappen(u, e) && !Recreates(u, e)
    ensures var v := Happen(u, e);
            && v.alloc.Some? && |v.alloc.value.stages| == STAGES
            && Rank(v.alloc.value) <= Rank(u.alloc.value)
            && (AllocationEvent(e) ==> Rank(v.alloc.value) < Rank(u.alloc.value))
  {
    if e.AllocStep? { StepInv(u.alloc.value, e.step); }
    if e.CancelAllocation? || e.ForceCleanup? { CancelInv(u.alloc.value); CancelRank(u.alloc.value); }
  }

  /** Without an accepted restart every allocation run is finite: whatever cleanups and refused restarts come in
      between, the rank bounds the number of its worker steps and cancellations. */
  lemma {:induction false} AllocationTerminates(u: Unit, es: seq<Event>)
    requires UnitInv(u) && u.alloc.Some? && Possible(u, es) && NoneRecreated(u, es)
    ensures AllocationEvents(es) <= Rank(u.alloc.value)
    decreases |es|
  {
    if es != [] {
      EventRank(u, es[0]);
      EventInv(u, es[0]);
      AllocationTerminates(Happen(u, es[0]), es[1..]);
    }
  }

  /** From the creation of its stages, an allocation takes at most eighteen worker steps and cancellations. */
  lemma AllocationBound(netbird: bool, grouped: bool, es: seq<Event>)
    requires Possible(Happen(NEW_UNIT, Allocate(netbird, grouped)), es)
    requires NoneRecreated(Happen(NEW_UNIT, Allocate(netbird, grouped)), es)
    ensures AllocationEvents(es) <= 18
  {
    EventInv(NEW_UNIT, Allocate(netbird, grouped));
    AllocationTerminates(Happen(NEW_UNIT, Allocate(netbird, grouped)), es);
  }

  /** No wedge: while some stage of a reachable unit is unfinished, a worker can take a step. */
  lemma UnfinishedMeansWorkerStep(u: Unit, i: nat) returns (e: Event)
    requires Reachable(u) && u.alloc.Some? && i < |u.alloc.value.stages| && !u.alloc.value.stages[i].row.finished
    ensures CanHappen(u, e) && (e.AllocStep? || e.MarkReady?)
  {
    ReachableInv(u);
    NoWedge(u.alloc.value, i);
    if u.alloc.value.fin == Queued {
      e := MarkReady;
    } else {
      var s := SomeStep(u.alloc.value);
      e := AllocStep(s);
    }
  }

  lemma SomeStep(c: Chain) returns (s: Step)
    requires |c.stages| == STAGES && WorkerEnabled(c) && c.fin != Queued
    requires c.extra.Some? ==> c.extra.value in {Queued, Started, Finished}
    ensures Enabled(c, s)
  {
    if k :| 0 <= k < STAGES && (c.stages[k].job == Queued || c.stages[k].worker.Some? || c.stages[k].handling) {
      s := if c.stages[k].job == Queued then StartStage(k)
           else if c.stages[k].worker.Some? then FinishStage(k, Success) else HandleFailure(k);
    } else {
      s := if c.extra.value == Queued then StartNetbird else FinishNetbird;
    }
  }

  // ---------------------------------------------------------------- putting runs together

  lemma RunCons(u: Unit, e: Event, es: seq<Event>)
    requires CanHappen(u, e) && Possible(Happen(u, e), es)
    ensures Possible(u, [e] + es) && After(u, [e] + es) == After(Happen(u, e), es)
    ensures !Recreates(u, e) && NoneRecreated(Happen(u, e), es) ==> NoneRecreated(u, [e] + es)
  {
    assert ([e] + es)[1..] == es;
  }

  lemma RunFront(u: Unit, a: seq<Event>, b: seq<Event>)
    requires a != [] && CanHappen(u, a[0]) && Possible(Happen(u, a[0]), a[1..] + b)
    ensures Possible(u, a + b) && After(u, a + b) == After(Happen(u, a[0]), a[1..] + b)
  {
    assert (a + b)[1..] == a[1..] + b;
  }

  lemma {:induction false} RunJoin(u: Unit, a: seq<Event>, b: seq<Event>)
    requires Possible(u, a) && Possible(After(u, a), b)
    ensures Possible(u, a + b) && After(u, a + b) == After(After(u, a), b)
    decreases |a|
  {
    if a == [] {
      assert a + b == b;
    } else {
      RunJoin(Happen(u, a[0]), a[1..], b);
      RunFront(u, a, b);
    }
  }

  function AllocSteps(ss: seq<Step>): seq<Event> {
    seq(|ss|, i requires 0 <= i < |ss| => AllocStep(ss[i]))
  }

  /** Steps of the allocation chain are events of the unit. */
  lemma {:induction false} AllocRun(u: Unit, ss: seq<Step>)
    requires Sized(u) && u.alloc.Some? && Inv(u.alloc.value) && StepsPossible(u.alloc.value, ss)
    ensures Possible(u, AllocSteps(ss)) && After(u, AllocSteps(ss)) == u.(alloc := Some(StepsAfter(u.alloc.value, ss)))
    decreases |ss|
  {
    if ss != [] {
      StepInv(u.alloc.value, ss[0]);
      assert AllocSteps(ss)[1..] == AllocSteps(ss[1..]);
      AllocRun(Happen(u, AllocStep(ss[0])), ss[1..]);
    }
  }

  function CleanSteps(ss: seq<Step>): seq<Event> {
    seq(|ss|, i requires 0 <= i < |ss| => CleanStep(ss[i]))
  }

  /** Steps of the cleanup chain are events of the unit. */
  lemma {:induction false} CleanRun(u: Unit, ss: seq<Step>)
    requires Sized(u) && u.cleanup.Some? && Inv(u.cleanup.value) && StepsPossible(u.cleanup.value, ss)
    ensures Possible(u, CleanSteps(ss))
    ensures After(u, CleanSteps(ss)) == u.(cleanup := Some(StepsAfter(u.cleanup.value, ss)))
    decreases |ss|
  {
    if ss != [] {
      StepInv(u.cleanup.value, ss[0]);
      assert CleanSteps(ss)[1..] == CleanSteps(ss[1..]);
      CleanRun(Happen(u, CleanStep(ss[0])), ss[1..]);
    }
  }

  function NewChain(): Chain { Enqueued([], false, false, 0, false) }

  lemma NewChainInv()
    ensures Inv(NewChain()) && !AllFinished(NewChain()) && NoneFailed(NewChain()) && !StackRunning(NewChain())
  {
    EnqueuedInv([], false, false, 0, false);
  }

  /** A cleanup job can run, and the workers can bring its stages to the finalizer. */
  lemma CleanupRun(u: Unit, k: nat) returns (es: seq<Event>)
    requires Sized(u) && k < |u.cleanupJobs|
    ensures Possible(u, es)
    ensures var v := After(u, es);
            && FinalizerDue(v) && AllFinished(v.cleanup.value) && |v.cleanup.value.stages| == STAGES
            && v.alloc == u.alloc && v.sandbox == u.sandbox && v.decremented == u.decremented
            && v.cleanupJobs == Without(u.cleanupJobs, k) && v.cleanupDrops == u.cleanupJobs[k]
  {
    NewChainInv();
    var ss := CanSucceed(NewChain());
    var v := Happen(u, CreateCleanup(k));
    CleanRun(v, ss);
    StepsInv(NewChain(), ss);
    FinalizerQueued(StepsAfter(NewChain(), ss));
    SucceededFinished(StepsAfter(NewChain(), ss));
    RunCons(u, CreateCleanup(k), CleanSteps(ss));
    es := [CreateCleanup(k)] + CleanSteps(ss);
  }

  // ---------------------------------------------------------------- refused restarts

  ghost predicate ReadyUnadmitted(u: Unit) {
    !u.admitted && u.sandbox.Some? && u.sandbox.value.ready
  }

  /** The workers can still bring the chain to its finalizing job, or have. */
  ghost predicate Promising(c: Chain)
    requires |c.stages| == STAGES
  {
    c.fin == Queued || (!AllFinished(c) && NoneFailed(c))
  }

  /** The sandbox is ready, or its own chain can still make it so. */
  ghost predicate MayBecomeReady(u: Unit) {
    && Sized(u) && u.alloc.Some? && !u.admitted && u.sandbox.Some?
    && (u.sandbox.value.ready || (u.sandbox.value.id == u.owner && Promising(u.alloc.value)))
  }

  /** A chain that no worker brings to its finalizing job any more. */
  ghost predicate Barren(c: Chain) {
    c.fin == Deleted || c.fin == Finished || exists i :: 0 <= i < |c.stages| && Broken(c.stages[i])
  }

  ghost predicate Hopeless(u: Unit) {
    && u.alloc.Some?
    && (u.admitted
        || (u.sandbox.Some? && !u.sandbox.value.ready
            && (u.sandbox.value.id != u.owner || Barren(u.alloc.value))))
  }

  lemma BarrenNotQueued(c: Chain)
    requires Inv(c) && Barren(c)
    ensures c.fin != Queued
  {
    if c.fin == Queued { FinalizerQueued(c); }
  }

  lemma UnpromisingIsBarren(c: Chain)
    requires Inv(c) && !Promising(c)
    ensures Barren(c)
  {
    if AllFinished(c) {
      if c.stages[STAGES - 1].row.failed { FailedIsBarren(c, STAGES - 1); } else { FinishedUnfailed(c); }
    } else {
      var i :| 0 <= i < STAGES && c.stages[i].row.failed;
      FailedIsBarren(c, i);
    }
  }

  lemma FailedIsBarren(c: Chain, i: nat)
    requires Inv(c) && i < STAGES && c.stages[i].row.failed
    ensures Barren(c)
  {
    if !Broken(c.stages[i]) && i < STAGES - 1 {
      assert Precedes(c.stages[i], c.stages[STAGES - 1], c.first <= i);
    }
  }

  lemma StaysBroken(c: Chain, s: Step, i: nat)
    requires Inv(c) && Enabled(c, s) && i < STAGES && Broken(c.stages[i])
    ensures var d := StageChain.After(c, s); |d.stages| == STAGES && Broken(d.stages[i])
  {
    if s.HandleFailure? { HandlingKeepsBroken(c, s.i, i); }
  }

  lemma HandlingKeepsBroken(c: Chain, k: nat, i: nat)
    requires Inv(c) && k < STAGES && i < STAGES && Broken(c.stages[i])
    ensures var d := Handle(c, k); |d.stages| == STAGES && Broken(d.stages[i])
  {
    HandleForm(c, k);
    BrokenIsKept(c, k, i);
  }

  lemma BrokenIsKept(c: Chain, k: nat, i: nat)
    requires |c.stages| == STAGES && k < STAGES && i < STAGES && Broken(c.stages[i])
    ensures Broken(Handled(c, k).stages[i]) && Broken(Handled(AllAbandoned(c), k).stages[i])
  {
    assert Broken(Abandoned(c.stages[i]));
  }

  lemma StaysBarren(c: Chain, s: Step)
    requires Inv(c) && Enabled(c, s) && Barren(c)
    ensures Barren(StageChain.After(c, s))
  {
    if i :| 0 <= i < STAGES && Broken(c.stages[i]) {
      StaysBroken(c, s, i);
    } else if s.HandleFailure? && !AllFinished(c) {
      HandledCancel(c, s.i, STAGES);
      CancelForm(c);
    }
  }

  lemma CancelBarren(c: Chain)
    requires Inv(c) && !AllFinished(c)
    ensures Cancel(c).fin == Deleted
  {
    CancelledLast(c);
  }

  lemma HopelessStep(u: Unit, e: Event)
    requires UnitInv(u) && Hopeless(u) && CanHappen(u, e) && !Recreates(u, e)
    ensures Hopeless(Happen(u, e))
  {
    if u.admitted {
    } else if e.AllocStep? {
      if Barren(u.alloc.value) { StaysBarren(u.alloc.value, e.step); }
    } else if e.MarkReady? && Barren(u.alloc.value) {
      BarrenNotQueued(u.alloc.value);
    } else if e.CancelAllocation? {
      CancelBarren(u.alloc.value);
    }
  }

  lemma {:induction false} HopelessRun(u: Unit, es: seq<Event>)
    requires UnitInv(u) && Hopeless(u) && Possible(u, es) && NoneRecreated(u, es)
    ensures !ReadyUnadmitted(After(u, es))
    decreases |es|
  {
    if es != [] {
      EventInv(u, es[0]);
      HopelessStep(u, es[0]);
      HopelessRun(Happen(u, es[0]), es[1..]);
    }
  }

  /** The run takes no accepted restart and makes the sandbox ready. */
  ghost predicate GetsReady(u: Unit, es: seq<Event>) {
    Possible(u, es) && NoneRecreated(u, es) && ReadyUnadmitted(After(u, es))
  }

  lemma {:induction false} AllocRunKeeps(u: Unit, ss: seq<Step>)
    requires Sized(u) && u.alloc.Some? && Inv(u.alloc.value) && StepsPossible(u.alloc.value, ss)
    ensures Possible(u, AllocSteps(ss)) && NoneRecreated(u, AllocSteps(ss))
    decreases |ss|
  {
    AllocRun(u, ss);
    if ss != [] {
      StepInv(u.alloc.value, ss[0]);
      assert AllocSteps(ss)[1..] == AllocSteps(ss[1..]);
      AllocRunKeeps(Happen(u, AllocStep(ss[0])), ss[1..]);
    }
  }

  lemma {:induction false} KeepsJoin(u: Unit, a: seq<Event>, b: seq<Event>)
    requires Possible(u, a) && NoneRecreated(u, a) && Possible(After(u, a), b) && NoneRecreated(After(u, a), b)
    ensures Possible(u, a + b) && NoneRecreated(u, a + b) && After(u, a + b) == After(After(u, a), b)
    decreases |a|
  {
    RunJoin(u, a, b);
    if a == [] {
      assert a + b == b;
    } else {
      assert (a + b)[1..] == a[1..] + b;
      KeepsJoin(Happen(u, a[0]), a[1..], b);
    }
  }

  /** The finalizing job of the own chain makes the sandbox ready. */
  lemma QueuedGetsReady(u: Unit)
    requires Sized(u) && u.alloc.Some? && u.alloc.value.fin == Queued && !u.admitted
    requires u.sandbox.Some? && u.sandbox.value.id == u.owner
    ensures GetsReady(u, [MarkReady])
  {
    assert [MarkReady][1..] == [];
    assert Possible(Happen(u, MarkReady), []);
  }

  lemma PromisingGetsReady(u: Unit) returns (es: seq<Event>)
    requires UnitInv(u) && MayBecomeReady(u)
    ensures GetsReady(u, es)
  {
    if u.sandbox.value.ready {
      es := [];
    } else if u.alloc.value.fin == Queued {
      QueuedGetsReady(u);
      es := [MarkReady];
    } else {
      var ss := CanSucceed(u.alloc.value);
      AllocRun(u, ss);
      AllocRunKeeps(u, ss);
      var v := After(u, AllocSteps(ss));
      QueuedGetsReady(v);
      KeepsJoin(u, AllocSteps(ss), [MarkReady]);
      es := AllocSteps(ss) + [MarkReady];
    }
  }

  lemma ReadyOrHopeless(u: Unit)
    requires UnitInv(u) && u.alloc.Some? && u.sandbox.Some?
    ensures MayBecomeReady(u) || Hopeless(u)
  {
    if !Promising(u.alloc.value) { UnpromisingIsBarren(u.alloc.value); }
  }

  /** Without an accepted restart the sandbox of a unit gets ready on some run exactly if it is ready or is that of the
      present chain, whose finalizing job is queued or whose stages are unfinished and unfailed. */
  lemma GetsReadyIff(u: Unit)
    requires UnitInv(u) && u.alloc.Some? && u.sandbox.Some?
    ensures (exists es :: GetsReady(u, es)) <==> MayBecomeReady(u)
  {
    if MayBecomeReady(u) {
      var es := PromisingGetsReady(u);
    } else {
      ReadyOrHopeless(u);
      forall es | Possible(u, es) && NoneRecreated(u, es) ensures !ReadyUnadmitted(After(u, es)) { HopelessRun(u, es); }
    }
  }

  /** A restart that the guards refuse has already replaced the sandbox, unless a lock kept it from doing so: a sandbox
      that was ready, or could still get ready, loses that exactly if it was not locked. */
  lemma RefusedRestartLosesReadiness(u: Unit, netbird: bool)
    requires Reachable(u) && CanHappen(u, Restart(netbird)) && !Restarts(u)
    ensures u.sandbox.value.locked ==> Happen(u, Restart(netbird)) == u
    ensures (exists later :: GetsReady(Happen(u, Restart(netbird)), later))
            <==> u.sandbox.value.locked && MayBecomeReady(u)
  {
    ReachableInv(u);
    var v := Happen(u, Restart(netbird));
    EventInv(u, Restart(netbird));
    GetsReadyIff(v);
    if !u.sandbox.value.locked { assert v.sandbox.value.id != v.owner; }
  }

  lemma SucceededStays(u: Unit, e: Event)
    requires UnitInv(u) && u.alloc.Some? && AllSucceeded(u.alloc.value) && CanHappen(u, e)
    ensures var v := Happen(u, e);
            v.alloc.Some? && v.alloc.value.stages == u.alloc.value.stages
            && (v.alloc.value.fin == u.alloc.value.fin || (e.MarkReady? && v.alloc.value.fin == Finished))
  {
    SucceededFinished(u.alloc.value);
    if e.AllocStep? { StepKeepsFinished(u.alloc.value, e.step); }
  }

  /** Once all stages succeeded no restart is accepted any more. */
  lemma {:induction false} SucceededForGood(u: Unit, es: seq<Event>)
    requires UnitInv(u) && u.alloc.Some? && AllSucceeded(u.alloc.value) && Possible(u, es)
    ensures NoneRecreated(u, es)
    decreases |es|
  {
    if es != [] {
      EventInv(u, es[0]);
      SucceededStays(u, es[0]);
      SucceededForGood(Happen(u, es[0]), es[1..]);
    }
  }

  /** Finished without a failed last stage means succeeded. */
  lemma FinishedUnfailed(c: Chain)
    requires Inv(c) && AllFinished(c) && !c.stages[STAGES - 1].row.failed
    ensures AllSucceeded(c)
  {
    forall i | 0 <= i < STAGES ensures c.stages[i].row.finished { assert c.stages[i] in c.stages; }
    forall i | 0 <= i < STAGES - 1 ensures Succeeded(c.stages[i]) {
      assert Precedes(c.stages[i], c.stages[STAGES - 1], c.first <= i);
    }
  }

  /** From a unit whose stages are finished and whose user stage failed, an accepted restart can lead to
      readiness, once the sandbox is unlocked. */
  lemma FailedRecovers(u: Unit) returns (es: seq<Event>)
    requires UnitInv(u) && u.alloc.Some? && RestartAccepted(u.alloc.value) && !u.admitted
    requires u.sandbox.Some? && !u.sandbox.value.locked
    ensures LeadsToReady(u, es)
  {
    RestartInv(u.alloc.value, false);
    RestartedStages(u.alloc.value, false);
    EventInv(u, Restart(false));
    var rest := PromisingGetsReady(Happen(u, Restart(false)));
    RunCons(u, Restart(false), rest);
    es := [Restart(false)] + rest;
  }

  /** From an unfinished allocation: cancel it, restart. */
  lemma UnfinishedRecovers(u: Unit) returns (es: seq<Event>)
    requires UnitInv(u) && u.alloc.Some? && !AllFinished(u.alloc.value)
    requires u.sandbox.Some? && !u.sandbox.value.locked
    ensures LeadsToReady(u, es)
  {
    CancelledLast(u.alloc.value);
    EventInv(u, CancelAllocation);
    var rest := FailedRecovers(Happen(u, CancelAllocation));
    RunCons(u, CancelAllocation, rest);
    es := [CancelAllocation] + rest;
  }

  lemma UnsucceededRecovers(u: Unit) returns (es: seq<Event>)
    requires UnitInv(u) && u.alloc.Some? && !AllSucceeded(u.alloc.value)
    requires u.sandbox.Some? && !u.sandbox.value.locked
    ensures LeadsToReady(u, es)
  {
    if !AllFinished(u.alloc.value) {
      es := UnfinishedRecovers(u);
    } else {
      if !u.alloc.value.stages[STAGES - 1].row.failed { FinishedUnfailed(u.alloc.value); }
      es := FailedRecovers(u);
    }
  }

  lemma LockedRecovers(u: Unit) returns (es: seq<Event>)
    requires UnitInv(u) && u.alloc.Some? && !AllSucceeded(u.alloc.value) && u.sandbox.Some?
    ensures LeadsToReady(u, es)
  {
    if u.sandbox.value.locked {
      EventInv(u, Unlock);
      var rest := UnsucceededRecovers(Happen(u, Unlock));
      RunCons(u, Unlock, rest);
      es := [Unlock] + rest;
    } else {
      es := UnsucceededRecovers(u);
    }
  }

  ghost predicate LeadsToReady(u: Unit, es: seq<Event>) {
    Possible(u, es) && ReadyUnadmitted(After(u, es))
  }

  lemma SucceededReadyIff(u: Unit)
    requires UnitInv(u) && u.alloc.Some? && AllSucceeded(u.alloc.value) && u.sandbox.Some?
    ensures (exists es :: LeadsToReady(u, es)) <==> MayBecomeReady(u)
  {
    GetsReadyIff(u);
    forall es | LeadsToReady(u, es) ensures GetsReady(u, es) { SucceededForGood(u, es); }
    if es :| GetsReady(u, es) { assert LeadsToReady(u, es); }
  }

  /** After a refused restart some run still makes the sandbox ready exactly when the stages had not all succeeded, so
      that a restart can be accepted later, or a lock kept a sandbox that was ready or could still get ready. */
  lemma RefusedRestartRecovers(u: Unit, netbird: bool)
    requires Reachable(u) && CanHappen(u, Restart(netbird)) && !Restarts(u)
    ensures (exists es :: LeadsToReady(Happen(u, Restart(netbird)), es))
            <==> !AllSucceeded(u.alloc.value) || (u.sandbox.value.locked && MayBecomeReady(u))
  {
    ReachableInv(u);
    var v := Happen(u, Restart(netbird));
    EventInv(u, Restart(netbird));
    if AllSucceeded(u.alloc.value) {
      SucceededReadyIff(v);
      if !u.sandbox.value.locked { assert v.sandbox.value.id != v.owner; }
    } else {
      var es := LockedRecovers(v);
    }
  }

  /** A sandbox that is ready, locked for a training, and whose stages all succeeded: a run leads there, a restart is
      refused, and it leaves the sandbox as it is. */
  lemma LockedSandboxKept() returns (es: seq<Event>)
    ensures Possible(NEW_UNIT, es)
    ensures var u := After(NEW_UNIT, es);
            && ReadyUnadmitted(u) && u.sandbox.value.locked && u.alloc.Some? && |u.alloc.value.stages| == STAGES
            && AllSucceeded(u.alloc.value) && CanHappen(u, Restart(false)) && !Restarts(u)
            && Happen(u, Restart(false)) == u
  {
    NewChainInv();
    EventInv(NEW_UNIT, Allocate(false, false));
    var v := Happen(NEW_UNIT, Allocate(false, false));
    var rest := PromisingGetsReady(v);
    RunInv(v, rest);
    var w := After(v, rest);
    if !w.sandbox.value.locked {
      RunCons(w, Lock, []);
      RunJoin(v, rest, [Lock] + []);
      rest := rest + ([Lock] + []);
    }
    RunCons(NEW_UNIT, Allocate(false, false), rest);
    es := [Allocate(false, false)] + rest;
  }

  // ---------------------------------------------------------------- sandboxes that come back

  /** The sandbox of an admitted cleanup stays deleted while the finalizing job of the allocation is not queued. */
  lemma {:induction false} DeletedSandboxStaysDeleted(u: Unit, later: seq<Event>)
    requires UnitInv(u) && u.admitted && u.sandbox.None? && u.alloc.value.fin != Queued
    requires Possible(u, later)
    ensures After(u, later).sandbox.None? && After(u, later).admitted
    decreases |later|
  {
    if later != [] {
      var v := Happen(u, later[0]);
      EventInv(u, later[0]);
      FinalizerStaysUnqueued(u, later[0]);
      DeletedSandboxStaysDeleted(v, later[1..]);
    }
  }

  lemma FinalizerStaysUnqueued(u: Unit, e: Event)
    requires UnitInv(u) && u.admitted && u.sandbox.None? && u.alloc.value.fin != Queued && CanHappen(u, e)
    ensures var v := Happen(u, e);
            v.admitted && v.sandbox.None? && v.alloc.Some? && v.alloc.value.fin != Queued
  {
    if e.AllocStep? { FinishedFinalizer(u.alloc.value, e.step); }
    if e.ForceCleanup? { CancelForm(u.alloc.value); }
  }

  lemma FinishedFinalizer(c: Chain, s: Step)
    requires Inv(c) && AllFinished(c) && c.fin != Queued && Enabled(c, s)
    ensures StageChain.After(c, s).fin != Queued
  {
    assert forall i :: 0 <= i < STAGES ==> c.stages[i] in c.stages;
  }

  lemma DeletedSandboxComesBack(u: Unit, e: Event)
    requires Reachable(u) && CanHappen(u, e) && (e.AdmitCleanup? || e.ForceCleanup?)
    requires u.alloc.value.fin == Queued
    ensures var v := Happen(u, e);
            CanHappen(v, MarkReady) && Happen(v, MarkReady).sandbox == Some(Sandbox(u.owner, true, false))
  {
    ReachableInv(u);
    FinalizerQueued(u.alloc.value);
    SucceededFinished(u.alloc.value);
  }

  ghost predicate BringsBack(u: Unit, es: seq<Event>) {
    Possible(u, es) && After(u, es).sandbox.Some?
  }

  /** The sandbox that an admitted cleanup deletes comes back on some later run exactly when the finalizing job of
      the allocation was queued at the admission. */
  lemma DeletedSandboxIff(u: Unit, e: Event)
    requires Reachable(u) && CanHappen(u, e) && (e.AdmitCleanup? || e.ForceCleanup?)
    ensures (exists later :: BringsBack(Happen(u, e), later)) <==> u.alloc.value.fin == Queued
  {
    ReachableInv(u);
    var v := Happen(u, e);
    AdmissionInv(u, e);
    if u.alloc.value.fin == Queued {
      DeletedSandboxComesBack(u, e);
      RunCons(v, MarkReady, []);
      assert BringsBack(v, [MarkReady] + []);
    } else {
      CancelForm(u.alloc.value);
      forall later | Possible(v, later) ensures After(v, later).sandbox.None? {
        DeletedSandboxStaysDeleted(v, later);
      }
    }
  }

  // ---------------------------------------------------------------- cancellations that are lost

  /** The allocation ended failed, so a restart of it is accepted. */
  ghost predicate Restartable(u: Unit) {
    u.alloc.Some? && |u.alloc.value.stages| == STAGES && RestartAccepted(u.alloc.value)
  }

  /** Cancelled for good: no worker can take the failure of the user stage back. */
  ghost predicate CancelHolds(u: Unit) {
    u.alloc.Some? && |u.alloc.value.stages| == STAGES && AllFinished(u.alloc.value)
    && u.alloc.value.stages[2].row.failed && u.alloc.value.stages[2].worker.None?
  }

  lemma StepKeepsCancel(c: Chain, s: Step)
    requires Inv(c) && AllFinished(c) && c.stages[2].row.failed && c.stages[2].worker.None? && Enabled(c, s)
    ensures var d := StageChain.After(c, s);
            |d.stages| == STAGES && d.stages[2].row.failed && d.stages[2].worker.None?
  {
    OnlyOrphansWork(c, 2);
  }

  lemma CancelHoldsOn(u: Unit, e: Event)
    requires UnitInv(u) && CancelHolds(u) && CanHappen(u, e) && !Recreates(u, e)
    ensures CancelHolds(Happen(u, e))
  {
    if e.AllocStep? {
      StepKeepsFinished(u.alloc.value, e.step);
      StepKeepsCancel(u.alloc.value, e.step);
    }
  }

  lemma {:induction false} CancelStays(u: Unit, es: seq<Event>)
    requires UnitInv(u) && CancelHolds(u) && Possible(u, es) && NoneRecreated(u, es)
    ensures CancelHolds(After(u, es))
    decreases |es|
  {
    if es != [] {
      EventInv(u, es[0]);
      CancelHoldsOn(u, es[0]);
      CancelStays(Happen(u, es[0]), es[1..]);
    }
  }

  lemma CancelledLast(c: Chain)
    requires Inv(c) && !AllFinished(c)
    ensures var d := Cancel(c);
            && |d.stages| == STAGES && AllFinished(d) && d.fin == Deleted && d.stages[2].row.failed
            && (d.stages[2].worker.Some? <==> Running(c.stages[2]))
            && (Running(c.stages[2]) ==>
                  Orphaned(d.stages[2]) && Succeeded(d.stages[0]) && Succeeded(d.stages[1]))
  {
    CancelInv(c);
    CancelForm(c);
    LastUnfinished(c);
    if Running(c.stages[2]) {
      ActiveIsFront(c, 2);
      assert Abandoned(c.stages[0]) == c.stages[0] && Abandoned(c.stages[1]) == c.stages[1];
    }
  }

  /** The worker that outlives the cancel succeeds. */
  lemma OrphanWins(c: Chain)
    requires Inv(c) && !AllFinished(c) && Running(c.stages[2])
    ensures var d := Cancel(c);
            && |d.stages| == STAGES && d.stages[2].worker.Some? && Inv(d)
            && (var e := Finish(d, 2, Success);
                Inv(e) && AllSucceeded(e) && !RestartAccepted(e) && e.fin == Deleted)
  {
    CancelledLast(c);
    CancelInv(c);
    FinishInv(Cancel(c), 2, Success);
  }

  /** A cancel that meets a running user stage can lose to the worker's write-back: when the playbook still
      succeeds, every stage counts as succeeded, so a restart is refused, but the finalizing job is gone
      and the sandbox is not ready; nothing but a cleanup leads out of that state. */
  lemma CancelledButSucceeded(u: Unit)
    requires Reachable(u) && CanHappen(u, CancelAllocation) && Running(u.alloc.value.stages[2])
    ensures var v := Happen(u, CancelAllocation);
            CanHappen(v, AllocStep(FinishStage(2, Success)))
            && (var w := Happen(v, AllocStep(FinishStage(2, Success)));
                && w.alloc.Some? && |w.alloc.value.stages| == STAGES
                && AllSucceeded(w.alloc.value) && !RestartAccepted(w.alloc.value)
                && w.alloc.value.fin == Deleted && w.sandbox == u.sandbox
                && (u.sandbox.Some? ==> !u.sandbox.value.ready))
  {
    ReachableInv(u);
    OrphanWins(u.alloc.value);
    SucceededFinished(u.alloc.value);
  }

  /** The run takes no restart, and ends in a state in which one would be refused. */
  ghost predicate LosesCancel(u: Unit, es: seq<Event>) {
    Possible(u, es) && NoneRecreated(u, es) && !Restartable(After(u, es))
  }

  /** A cancellation is lost on some later run, that is, the allocation does not stay failed and restartable,
      exactly when the user stage is running at that moment. */
  lemma CancelLostIff(u: Unit)
    requires Reachable(u) && CanHappen(u, CancelAllocation)
    ensures (exists es :: LosesCancel(Happen(u, CancelAllocation), es)) <==> Running(u.alloc.value.stages[2])
  {
    ReachableInv(u);
    var v := Happen(u, CancelAllocation);
    EventInv(u, CancelAllocation);
    CancelledLast(u.alloc.value);
    if Running(u.alloc.value.stages[2]) {
      CancelledButSucceeded(u);
      RunCons(v, AllocStep(FinishStage(2, Success)), []);
      assert LosesCancel(v, [AllocStep(FinishStage(2, Success))] + []);
    } else {
      forall es | Possible(v, es) && NoneRecreated(v, es) ensures Restartable(After(v, es)) {
        CancelStays(v, es);
      }
    }
  }
}
