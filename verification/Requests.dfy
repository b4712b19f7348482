/** The request functions of one allocation unit, on its rows and jobs: what they refuse, and that what they do is what
    the events of `UnitLifecycle` say. */
module Requests {
  import opened Wrappers
  import opened StageChain
  import opened UnitLifecycle
  import opened RequestHandlers

  /** How a request function ends.  `Missing` stands for the exception about rows that do not exist, `Protected` for
      that of the database about a row that others refer to, `Skipped` for the silent return, `CancelRaised` for an
      exception out of the cancellation. */
  datatype Result = Accepted | Skipped | Missing | Protected | LockedSandbox | FirstStageRunning | Unfinished | Idle
                  | NoFailure | Exists | CancelRaised

  /** The rows and jobs of a request, if its stages exist, show the chain. */
  ghost predicate ShowsChain(request: Option<Database>, c: Option<Chain>) {
    && (request.Some? <==> c.Some?)
    && (request.Some? ==> Shows(request.value, c.value) && Numbered(request.value))
  }

  predicate FirstRunning(rows: seq<Row>)
    requires |rows| == STAGES
  {
    !(rows[0].finished || rows[0].failed) && rows[0].started
  }

  /** The first row has been started and has neither finished nor failed. */
  ghost predicate StackUnderway(rows: seq<Row>) {
    |rows| > 0 && rows[0].started && !rows[0].finished && !rows[0].failed
  }

  /** A new request: three new rows without jobs. */
  const NEW_REQUEST := Database([NEW_ROW, NEW_ROW, NEW_ROW], [], map[], 0, 0, None, 0)

  /** What the database and RQ hold of one unit: the rows and jobs of its two requests, its sandbox with its lock, the
      jobs that will create its cleanup stages, and the finalizers left over from replaced stages. */
  datatype Files = Files(alloc: Option<Database>, sandbox: Option<Sandbox>, owner: nat, nextSandbox: nat,
                         cleanupJobs: seq<bool>, cleanupRow: bool, cleanup: Option<Database>, cleanupDrops: bool,
                         leftover: seq<bool>)

  /** These are the rows and jobs of a unit of the lifecycle. */
  ghost predicate Represents(f: Files, u: Unit) {
    && ShowsChain(f.alloc, u.alloc) && ShowsChain(f.cleanup, u.cleanup)
    && f.sandbox == u.sandbox && f.owner == u.owner && f.nextSandbox == u.nextSandbox
    && f.cleanupJobs == u.cleanupJobs && f.cleanupRow == u.cleanupRow && f.cleanupDrops == u.cleanupDrops
    && f.leftover == u.leftover
  }

  /** What `UnitLifecycle.UnitInv`, which every reachable unit has, says of the chains. */
  ghost predicate ChainsInv(u: Unit) {
    (u.alloc.Some? ==> Inv(u.alloc.value)) && (u.cleanup.Some? ==> Inv(u.cleanup.value))
  }

  /** What an event leaves of a unit, if it can happen. */
  function Attempt(u: Unit, e: Event): Unit {
    if CanHappen(u, e) then Happen(u, e) else u
  }

  /** The guards that read rows decide as the guards that read the chain. */
  lemma RowGuards(db: Database, c: Chain)
    requires Shows(db, c)
    ensures |db.rows| == STAGES == |c.stages|
    ensures FirstRunning(db.rows) <==> StackRunning(c)
    ensures AllRowsFinished(db.rows) <==> AllFinished(c)
  {
    if AllFinished(c) {
      forall i | 0 <= i < STAGES ensures db.rows[i].finished { assert c.stages[i] in c.stages; }
    }
  }

  /** `hasattr` and `is_finished` of the cleanup request. */
  predicate CleanupPending(f: Files) {
    f.cleanupRow && f.cleanup.Some? && !AllRowsFinished(f.cleanup.value.rows)
  }

  predicate Locked(f: Files) {
    f.sandbox.Some? && f.sandbox.value.locked
  }

  lemma AllocationGuards(f: Files, u: Unit)
    requires Represents(f, u)
    ensures f.alloc.Some? ==> |f.alloc.value.rows| == STAGES && |u.alloc.value.stages| == STAGES
    ensures CanHappen(u, CancelAllocation) <==> f.alloc.Some? && !AllRowsFinished(f.alloc.value.rows)
    ensures CanHappen(u, AdmitCleanup) <==>
              (f.alloc.Some? && !FirstRunning(f.alloc.value.rows) && AllRowsFinished(f.alloc.value.rows)
               && !f.cleanupRow && !Locked(f))
  {
    if f.alloc.Some? { RowGuards(f.alloc.value, u.alloc.value); }
    if f.cleanup.Some? { RowGuards(f.cleanup.value, u.cleanup.value); }
  }

  lemma CleanupGuards(f: Files, u: Unit)
    requires Represents(f, u)
    ensures f.cleanup.Some? ==> |f.cleanup.value.rows| == STAGES
    ensures CanHappen(u, CancelCleanup) <==> CleanupPending(f)
    ensures CanHappen(u, DropCleanupRequest) <==> f.cleanupRow && !CleanupPending(f)
  {
    if f.alloc.Some? { RowGuards(f.alloc.value, u.alloc.value); }
    if f.cleanup.Some? { RowGuards(f.cleanup.value, u.cleanup.value); }
  }

  lemma ForceGuards(f: Files, u: Unit, withPool: bool)
    requires Represents(f, u)
    ensures f.alloc.Some? ==> |f.alloc.value.rows| == STAGES
    ensures CanHappen(u, ForceCleanup(withPool)) <==>
              f.alloc.Some? && !FirstRunning(f.alloc.value.rows) && !CleanupPending(f)
  {
    if f.alloc.Some? { RowGuards(f.alloc.value, u.alloc.value); }
    if f.cleanup.Some? { RowGuards(f.cleanup.value, u.cleanup.value); }
  }

  lemma CancelRefines(db: Database, c: Chain, deep: bool)
    requires Inv(c) && Shows(db, c) && Numbered(db)
    ensures Shows(CancelRows(db, STAGES, deep), Cancel(c)) && Numbered(CancelRows(db, STAGES, deep))
  {
    CancelActsOnChain(db, c, deep);
    StillNumbered(db, STAGES, deep);
  }

  lemma {:induction false} StillNumbered(db: Database, n: nat, deep: bool)
    requires Ordered(db.jobs) && n <= |db.rows| == |db.jobIds| && Numbered(db)
    ensures Numbered(CancelRows(db, n, deep))
    decreases n
  {
    if n > 0 { StillNumbered(CancelRow(db, n - 1, deep), n - 1, deep); }
  }

  // ---------------------------------------------------------------- the events on rows and jobs

  lemma AllocReplaced(f: Files, u: Unit, request: Option<Database>, chain: Option<Chain>)
    requires Represents(f, u) && ShowsChain(request, chain)
    ensures Represents(f.(alloc := request), u.(alloc := chain))
  {
  }

  lemma CleanupReplaced(f: Files, u: Unit, request: Option<Database>, chain: Option<Chain>)
    requires Represents(f, u) && ShowsChain(request, chain)
    ensures Represents(f.(cleanup := request), u.(cleanup := chain))
  {
  }

  lemma EnqueueShows(withNetbird: bool, grouped: bool)
    ensures Prepared(WithNetbird(NEW_REQUEST, withNetbird))
    ensures ShowsChain(Some(Chained(WithNetbird(NEW_REQUEST, withNetbird))),
                       Some(Enqueued([], withNetbird, grouped, 0, false)))
  {
    EnqueueRefines(WithNetbird(NEW_REQUEST, withNetbird), [], grouped, 0, false);
  }

  lemma AllocateRefines(f: Files, u: Unit, withNetbird: bool, grouped: bool)
    requires Represents(f, u) && f.alloc.None?
    ensures CanHappen(u, Allocate(withNetbird, grouped)) && Prepared(WithNetbird(NEW_REQUEST, withNetbird))
    ensures Represents(f.(alloc := Some(Chained(WithNetbird(NEW_REQUEST, withNetbird))),
                          sandbox := Some(Sandbox(f.nextSandbox, false, false)), owner := f.nextSandbox,
                          nextSandbox := f.nextSandbox + 1),
                       Happen(u, Allocate(withNetbird, grouped)))
  {
    EnqueueShows(withNetbird, grouped);
    AllocReplaced(f, u, Some(Chained(WithNetbird(NEW_REQUEST, withNetbird))),
                  Some(Enqueued([], withNetbird, grouped, 0, false)));
    AllocateEvent(u, withNetbird, grouped);
  }

  lemma AllocateEvent(u: Unit, withNetbird: bool, grouped: bool)
    requires Sized(u) && u.alloc.None?
    ensures CanHappen(u, Allocate(withNetbird, grouped))
    ensures Happen(u, Allocate(withNetbird, grouped))
              == u.(alloc := Some(Enqueued([], withNetbird, grouped, 0, false)),
                    sandbox := Some(Sandbox(u.nextSandbox, false, false)), owner := u.nextSandbox,
                    nextSandbox := u.nextSandbox + 1)
  {
  }

  /** The finalizer of the present cleanup stages is in RQ's queue. */
  predicate Finalizing(f: Files) {
    f.cleanup.Some? && Status(f.cleanup.value, f.cleanup.value.finalJob) == Queued
  }

  /** The files after job `k` has created the cleanup stages. */
  function CleanupFiles(f: Files, k: nat): Files
    requires k < |f.cleanupJobs| && Prepared(NEW_REQUEST)
  {
    f.(cleanupJobs := Without(f.cleanupJobs, k), cleanupRow := true, cleanup := Some(Chained(NEW_REQUEST)),
       cleanupDrops := f.cleanupJobs[k],
       leftover := if Finalizing(f) then f.leftover + [f.cleanupDrops] else f.leftover)
  }

  lemma CleanupRefines(f: Files, u: Unit, k: nat)
    requires Represents(f, u) && k < |f.cleanupJobs|
    ensures CanHappen(u, CreateCleanup(k)) && Prepared(NEW_REQUEST)
    ensures Represents(CleanupFiles(f, k), Happen(u, CreateCleanup(k)))
  {
    EnqueueShows(false, false);
    CleanupReplaced(f, u, Some(Chained(NEW_REQUEST)), Some(Enqueued([], false, false, 0, false)));
    assert Finalizing(f) <==> FinalizerDue(u);
    CleanupEvent(u, k);
  }

  lemma CleanupEvent(u: Unit, k: nat)
    requires Sized(u) && k < |u.cleanupJobs|
    ensures CanHappen(u, CreateCleanup(k))
    ensures Happen(u, CreateCleanup(k))
              == u.(cleanupJobs := Without(u.cleanupJobs, k), cleanupRow := true, cleanupDrops := u.cleanupJobs[k],
                    cleanup := Some(Enqueued([], false, false, 0, false)),
                    leftover := if FinalizerDue(u) then u.leftover + [u.cleanupDrops] else u.leftover)
  {
  }

  /** `cancel_request` raises, without effect, when every stage is finished. */
  function CancelledRequest(request: Option<Database>, deep: bool): Option<Database>
    requires request.Some? ==> Linked(request.value)
  {
    if request.None? || AllRowsFinished(request.value.rows) then request
    else Some(CancelRows(request.value, STAGES, deep))
  }

  function CancelledChain(chain: Option<Chain>): Option<Chain>
    requires chain.Some? ==> |chain.value.stages| == STAGES
  {
    if chain.None? || AllFinished(chain.value) then chain else Some(Cancel(chain.value))
  }

  lemma CancelledShows(request: Option<Database>, chain: Option<Chain>, deep: bool)
    requires ShowsChain(request, chain) && (chain.Some? ==> Inv(chain.value))
    ensures ShowsChain(CancelledRequest(request, deep), CancelledChain(chain))
  {
    if request.Some? {
      RowGuards(request.value, chain.value);
      CancelRefines(request.value, chain.value, deep);
    }
  }

  lemma CancelAllocationRefines(f: Files, u: Unit, deep: bool)
    requires Represents(f, u) && ChainsInv(u)
    ensures Represents(f.(alloc := CancelledRequest(f.alloc, deep)), Attempt(u, CancelAllocation))
  {
    CancelledShows(f.alloc, u.alloc, deep);
    AllocReplaced(f, u, CancelledRequest(f.alloc, deep), CancelledChain(u.alloc));
    CancelAllocationEvent(u);
  }

  lemma CancelAllocationEvent(u: Unit)
    requires Sized(u)
    ensures Attempt(u, CancelAllocation) == u.(alloc := CancelledChain(u.alloc))
  {
  }

  lemma CancelCleanupRefines(f: Files, u: Unit, deep: bool)
    requires Represents(f, u) && ChainsInv(u) && f.cleanupRow
    ensures Represents(f.(cleanup := CancelledRequest(f.cleanup, deep)), Attempt(u, CancelCleanup))
  {
    CancelledShows(f.cleanup, u.cleanup, deep);
    CleanupReplaced(f, u, CancelledRequest(f.cleanup, deep), CancelledChain(u.cleanup));
    CancelCleanupEvent(u);
  }

  lemma CancelCleanupEvent(u: Unit)
    requires Sized(u) && u.cleanupRow
    ensures Attempt(u, CancelCleanup) == u.(cleanup := CancelledChain(u.cleanup))
  {
  }

  /** The unit without the lock, if its sandbox has one. */
  function Unlocked(u: Unit): Unit {
    if u.sandbox.Some? && u.sandbox.value.locked then u.(sandbox := Some(u.sandbox.value.(locked := false))) else u
  }

  lemma UnlockEvent(u: Unit)
    requires Sized(u)
    ensures Attempt(u, Unlock) == Unlocked(u)
  {
  }

  /** Past its guards a forced cleanup is the cancellation of what is unfinished, and then the admission. */
  lemma AdmissionEvents(u: Unit, withPool: bool)
    ensures CanHappen(u, CancelAllocation) <==> CanHappen(Unlocked(u), CancelAllocation)
    ensures CanHappen(u, ForceCleanup(withPool)) ==>
              var v := Attempt(Unlocked(u), CancelAllocation);
              Happen(u, ForceCleanup(withPool)) == CleanupEnqueued(v, withPool)
  {
  }

  /** The rows and jobs after an accepted restart. */
  function RestartedRequest(db: Database, withNetbird: bool): Database
    requires |db.rows| == |db.jobIds| == STAGES && Prepared(WithNetbird(Replaced(db), withNetbird))
  {
    Chained(WithNetbird(Replaced(db), withNetbird))
  }

  lemma RestartShows(db: Database, c: Chain, withNetbird: bool)
    requires Inv(c) && Shows(db, c) && Numbered(db) && RestartAccepted(c)
    ensures Prepared(WithNetbird(Replaced(db), withNetbird))
    ensures ShowsChain(Some(RestartedRequest(db, withNetbird)), Some(Restarted(c, withNetbird)))
  {
    RestartRefines(db, c, withNetbird);
  }

  lemma RestartDone(f: Files, u: Unit, withNetbird: bool, owner: nat)
    requires Represents(f, u) && f.alloc.Some? && Inv(u.alloc.value) && RestartAccepted(u.alloc.value)
    ensures Prepared(WithNetbird(Replaced(f.alloc.value), withNetbird))
    ensures Represents(f.(alloc := Some(RestartedRequest(f.alloc.value, withNetbird)), owner := owner),
                       u.(alloc := Some(Restarted(u.alloc.value, withNetbird)), owner := owner))
  {
    RestartShows(f.alloc.value, u.alloc.value, withNetbird);
    var request := RestartedRequest(f.alloc.value, withNetbird);
    AllocReplaced(f, u, Some(request), Some(Restarted(u.alloc.value, withNetbird)));
  }

  lemma RestartEvent(u: Unit, withNetbird: bool)
    requires CanHappen(u, Restart(withNetbird))
    ensures var v := Happen(u, Restart(withNetbird));
            v == if u.sandbox.value.locked then u
                 else if !RestartAccepted(u.alloc.value) then Resandboxed(u)
                 else Resandboxed(u).(alloc := Some(Restarted(u.alloc.value, withNetbird)), owner := u.nextSandbox,
                                      detached := v.detached)
  {
  }

  /** The sandbox row after the finalizing job has saved its copy, which says ready: a row that is gone is inserted
      again, a row of another sandbox stays. */
  function Saved(f: Files): Option<Sandbox> {
    if f.sandbox.None? then Some(Sandbox(f.owner, true, false))
    else if f.sandbox.value.id == f.owner then Some(f.sandbox.value.(ready := true))
    else f.sandbox
  }

  lemma ReadyRefines(f: Files, u: Unit)
    requires Represents(f, u) && f.alloc.Some? && Status(f.alloc.value, f.alloc.value.finalJob) == Queued
    ensures CanHappen(u, MarkReady)
    ensures Represents(f.(alloc := Some(FinalRun(f.alloc.value)), sandbox := Saved(f)), Happen(u, MarkReady))
  {
    FinalRefines(f.alloc.value, u.alloc.value);
    AllocReplaced(f, u, Some(FinalRun(f.alloc.value)), Some(RunFinalizer(u.alloc.value)));
    if f.cleanup.Some? { RowGuards(f.cleanup.value, u.cleanup.value); }
  }

  // ---------------------------------------------------------------- what holds of the rows and jobs

  /** Whenever the sandbox row says ready, every row of the allocation is finished and none has failed. */
  lemma ReadyRows(f: Files, u: Unit)
    requires Represents(f, u) && Reachable(u) && f.sandbox.Some? && f.sandbox.value.ready
    ensures f.alloc.Some? && |f.alloc.value.rows| == STAGES
    ensures forall i :: 0 <= i < STAGES ==> f.alloc.value.rows[i].finished && !f.alloc.value.rows[i].failed
  {
    ReadyMeansSucceeded(u);
    forall i | 0 <= i < STAGES ensures f.alloc.value.rows[i].finished && !f.alloc.value.rows[i].failed {
      assert u.alloc.value.stages[i] in u.alloc.value.stages;
    }
  }

  /** Once a cleanup was admitted, RQ holds no waiting job of an allocation stage: none can start any more. */
  lemma NoJobAfterAdmission(f: Files, u: Unit, admit: Event, later: seq<Event>)
    requires Reachable(u) && CanHappen(u, admit) && (admit.AdmitCleanup? || admit.ForceCleanup?)
    requires Possible(Happen(u, admit), later) && Represents(f, UnitLifecycle.After(Happen(u, admit), later))
    ensures f.alloc.Some? && |f.alloc.value.jobIds| == STAGES
    ensures forall i :: f.alloc.value.first <= i < STAGES ==>
              var status := Status(f.alloc.value, f.alloc.value.jobIds[i]); status != Queued && status != Deferred
  {
    NoStageAfterAdmission(u, admit, later);
  }

  // ---------------------------------------------------------------- the request functions

  /** `RequestHandler.cancel_request`, whose loop `RequestHandlers.RequestHandler.CancelRequest` proves to be
      `CancelRows`. */
  method CancelRequest(request: Option<Database>, deep: bool) returns (r: Result, cancelled: Option<Database>)
    requires request.Some? && Linked(request.value)
    ensures r == if AllRowsFinished(request.value.rows) then Idle else Accepted
    ensures cancelled == CancelledRequest(request, deep)
  {
    if AllRowsFinished(request.value.rows) {
      return Idle, request;
    }
    return Accepted, Some(CancelRows(request.value, STAGES, deep));
  }

  class AllocationUnit {
    var alloc: Option<Database>
    var sandbox: Option<Sandbox>
    var owner: nat
    var nextSandbox: nat
    var cleanupJobs: seq<bool>
    var cleanupRow: bool
    var cleanup: Option<Database>
    var cleanupDrops: bool
    var leftover: seq<bool>

    ghost function Held(): Files
      reads this
    {
      Files(alloc, sandbox, owner, nextSandbox, cleanupJobs, cleanupRow, cleanup, cleanupDrops, leftover)
    }

    /** `create_allocations_requests` left the unit without stages; `_create_allocation_jobs` creates its sandbox and
        its stages. */
    method CreateAllocationJobs(withNetbird: bool, grouped: bool, ghost u: Unit)
      requires Represents(Held(), u) && alloc.None?
      modifies this
      ensures CanHappen(u, Allocate(withNetbird, grouped))
      ensures Represents(Held(), Happen(u, Allocate(withNetbird, grouped)))
      ensures sandbox == Some(Sandbox(old(nextSandbox), false, false)) && owner == old(nextSandbox) < nextSandbox
    {
      AllocateRefines(Held(), u, withNetbird, grouped);
      sandbox, owner, nextSandbox := Some(Sandbox(nextSandbox, false, false)), nextSandbox, nextSandbox + 1;
      alloc := Some(Chained(WithNetbird(NEW_REQUEST, withNetbird)));
    }

    /** `cancel_allocation_request`: refused exactly when the event cannot happen.  `deep` says whether RQ deletes
        dependents transitively. */
    method CancelAllocationRequest(deep: bool, ghost u: Unit) returns (r: Result)
      requires Represents(Held(), u) && ChainsInv(u) && alloc.Some?
      modifies this`alloc
      ensures r == Accepted || r == Idle
      ensures r == Accepted <==> CanHappen(u, CancelAllocation)
      ensures Represents(Held(), Attempt(u, CancelAllocation))
    {
      AllocationGuards(Held(), u);
      CancelAllocationRefines(Held(), u, deep);
      r, alloc := CancelRequest(alloc, deep);
    }

    /** `cancel_cleanup_request`. */
    method CancelCleanupRequest(deep: bool, ghost u: Unit) returns (r: Result)
      requires Represents(Held(), u) && ChainsInv(u) && cleanup.Some? && cleanupRow
      modifies this`cleanup
      ensures r == Accepted || r == Idle
      ensures r == Accepted <==> CanHappen(u, CancelCleanup)
      ensures Represents(Held(), Attempt(u, CancelCleanup))
    {
      CleanupGuards(Held(), u);
      CancelCleanupRefines(Held(), u, deep);
      r, cleanup := CancelRequest(cleanup, deep);
    }

    /** `lock_sandbox`: refused exactly when the event cannot happen. */
    method LockSandbox(ghost u: Unit) returns (r: Result)
      requires Represents(Held(), u)
      modifies this`sandbox
      ensures r == Accepted <==> CanHappen(u, Lock)
      ensures Represents(Held(), Attempt(u, Lock))
      ensures r == Missing <==> old(sandbox).None?
      ensures r == LockedSandbox <==> old(sandbox).Some? && old(sandbox).value.locked
      ensures r == Accepted ==> sandbox == Some(Sandbox(old(sandbox).value.id, old(sandbox).value.ready, true))
      ensures r == Accepted || r == Missing || r == LockedSandbox
    {
      if sandbox.None? {
        return Missing;
      }
      if sandbox.value.locked {
        return LockedSandbox;
      }
      sandbox := Some(sandbox.value.(locked := true));
      r := Accepted;
    }

    /** The deletion of the lock. */
    method DeleteLock(ghost u: Unit)
      requires Represents(Held(), u)
      modifies this`sandbox
      ensures alloc == old(alloc) && Represents(Held(), Unlocked(u)) && !Locked(Held())
      ensures Unlocked(u) == Attempt(u, Unlock)
    {
      UnlockEvent(u);
      if sandbox.Some? && sandbox.value.locked {
        sandbox := Some(sandbox.value.(locked := false));
      }
    }

    /** Both request functions end with the deletion of the sandbox, which no lock protects any more, and enqueue the
        cleanup. */
    method Admit(deletePool: bool, ghost u: Unit)
      requires Represents(Held(), u) && !Locked(Held())
      modifies this
      ensures Represents(Held(), CleanupEnqueued(u, deletePool))
      ensures sandbox.None? && cleanupJobs == old(cleanupJobs) + [deletePool] && alloc == old(alloc)
    {
      sandbox, cleanupJobs := None, cleanupJobs + [deletePool];
    }

    /** The guards of `create_cleanup_request`. */
    method PassGuards(ghost u: Unit) returns (r: Result)
      requires Represents(Held(), u)
      ensures r == Accepted <==> CanHappen(u, AdmitCleanup)
      ensures r == Accepted ==> !Locked(Held())
      ensures alloc.Some? ==> |alloc.value.rows| == STAGES
      ensures r == LockedSandbox <==> sandbox.Some? && sandbox.value.locked
      ensures r != LockedSandbox ==> (r == Missing <==> alloc.None?)
      ensures r == FirstStageRunning <==> r != LockedSandbox && alloc.Some? && StackUnderway(alloc.value.rows)
      ensures r == Accepted ==>
                !cleanupRow && alloc.Some? && forall i :: 0 <= i < STAGES ==> alloc.value.rows[i].finished
      ensures r == Unfinished ==> exists i :: 0 <= i < STAGES && !alloc.value.rows[i].finished
      ensures r == Exists ==> cleanupRow
    {
      AllocationGuards(Held(), u);
      if sandbox.Some? && sandbox.value.locked {
        return LockedSandbox;
      }
      if alloc.None? {
        return Missing;
      }
      if FirstRunning(alloc.value.rows) {
        return FirstStageRunning;
      }
      if !AllRowsFinished(alloc.value.rows) {
        return Unfinished;
      }
      r := if cleanupRow then Exists else Accepted;
    }

    /** `create_cleanup_request`: accepted exactly when the event can happen, and then the unit is as the event leaves
        it, with a cleanup enqueued that spares the pool; refused, it is as before. */
    method CreateCleanupRequest(ghost u: Unit) returns (r: Result)
      requires Represents(Held(), u)
      modifies this
      ensures r == Accepted <==> CanHappen(u, AdmitCleanup)
      ensures Represents(Held(), Attempt(u, AdmitCleanup))
      ensures r == Accepted ==> sandbox.None? && cleanupJobs == old(cleanupJobs) + [false]
      ensures r != Accepted ==> Held() == old(Held())
      ensures r == FirstStageRunning ==> old(Held()).alloc.Some? && StackUnderway(old(Held()).alloc.value.rows)
      ensures r == Accepted ==>
                old(Held()).alloc.Some? && forall row :: row in old(Held()).alloc.value.rows ==> row.finished
    {
      r := PassGuards(u);
      if r == Accepted {
        Admit(false, u);
      }
    }

    /** The guards of `create_cleanup_request_force`.  The lock is deleted even when the request is then refused. */
    method PassForceGuards(ghost u: Unit, ghost deletePool: bool) returns (r: Result)
      requires Represents(Held(), u)
      modifies this`sandbox
      ensures r == Accepted <==> CanHappen(u, ForceCleanup(deletePool))
      ensures r == Accepted || r == Skipped || r == Missing || r == FirstStageRunning
      ensures r == Skipped <==>
                cleanupRow && cleanup.Some? && exists row :: row in cleanup.value.rows && !row.finished
      ensures r != Skipped ==> (r == Missing <==> alloc.None?)
      ensures alloc.Some? ==> |alloc.value.rows| == STAGES
      ensures r != Skipped && alloc.Some? ==> (r == FirstStageRunning <==> StackUnderway(alloc.value.rows))
      ensures alloc == old(alloc) && Represents(Held(), if r == Skipped then u else Unlocked(u))
      ensures r != Skipped ==> !Locked(Held())
    {
      ForceGuards(Held(), u, deletePool);
      CleanupGuards(Held(), u);
      if cleanupRow && cleanup.Some? && !AllRowsFinished(cleanup.value.rows) {
        return Skipped;
      }
      DeleteLock(u);
      if alloc.None? {
        return Missing;
      }
      r := if FirstRunning(alloc.value.rows) then FirstStageRunning else Accepted;
    }

    /** `create_cleanup_request_force` cancels what is unfinished. */
    method CancelUnfinished(deep: bool, ghost u: Unit) returns (cancelled: bool)
      requires Represents(Held(), u) && ChainsInv(u) && alloc.Some?
      modifies this`alloc
      ensures cancelled <==> CanHappen(u, CancelAllocation)
      ensures Represents(Held(), Attempt(u, CancelAllocation))
    {
      cancelled := false;
      AllocationGuards(Held(), u);
      if !AllRowsFinished(alloc.value.rows) {
        var _ := CancelAllocationRequest(deep, u);
        cancelled := true;
      }
    }

    /** `create_cleanup_request_force` past its guards. */
    method ForceUnlocked(deletePool: bool, stuck: bool, deep: bool, ghost u: Unit) returns (r: Result)
      requires Represents(Held(), u) && ChainsInv(u) && alloc.Some? && !Locked(Held())
      modifies this
      ensures r == if stuck && CanHappen(u, CancelAllocation) then CancelRaised else Accepted
      ensures r == CancelRaised ==> Represents(Held(), Attempt(u, CancelAllocation))
      ensures r == Accepted ==> Represents(Held(), CleanupEnqueued(Attempt(u, CancelAllocation), deletePool))
      ensures r == Accepted ==> sandbox.None? && cleanupJobs == old(cleanupJobs) + [deletePool]
    {
      var cancelled := CancelUnfinished(deep, u);
      if cancelled && stuck {
        return CancelRaised;
      }
      Admit(deletePool, Attempt(u, CancelAllocation));
      r := Accepted;
    }

    /** `create_cleanup_request_force`.  `stuck` says that stopping a process or container of a running stage raises,
        when the cancellation is complete already.  Past the guards the unit is as the event leaves it, or, if that
        raised, as a cancellation leaves it; refused, it has at most lost its lock. */
    method CreateCleanupRequestForce(deletePool: bool, stuck: bool, deep: bool, ghost u: Unit) returns (r: Result)
      requires Represents(Held(), u) && ChainsInv(u)
      modifies this
      ensures r == Accepted || r == CancelRaised <==> CanHappen(u, ForceCleanup(deletePool))
      ensures r == CancelRaised <==> stuck && CanHappen(u, ForceCleanup(deletePool)) && CanHappen(u, CancelAllocation)
      ensures r == Accepted ==> Represents(Held(), Happen(u, ForceCleanup(deletePool)))
      ensures r == CancelRaised ==> Represents(Held(), Attempt(Unlocked(u), CancelAllocation))
      ensures r == Skipped ==> Represents(Held(), u)
      ensures r == Missing || r == FirstStageRunning ==> Represents(Held(), Unlocked(u))
      ensures r == Accepted ==> sandbox.None? && cleanupJobs == old(cleanupJobs) + [deletePool]
      ensures r != Skipped && old(Held()).alloc.Some? ==>
                (r == FirstStageRunning <==> StackUnderway(old(Held()).alloc.value.rows))
    {
      r := PassForceGuards(u, deletePool);
      if r != Accepted {
        return;
      }
      AdmissionEvents(u, deletePool);
      r := ForceUnlocked(deletePool, stuck, deep, Unlocked(u));
    }

    /** The creation of the cleanup rows by job `k`: the request row is reused when there is one, its stages never
        are. */
    method CreateCleanupRows(k: nat)
      requires k < |cleanupJobs| && Prepared(NEW_REQUEST)
      modifies this
      ensures Held() == old(CleanupFiles(Held(), k))
    {
      if !cleanupRow {
        cleanupRow := true;
      }
      // the finalizer of the replaced stages stays in the queue
      if cleanup.Some? && Status(cleanup.value, cleanup.value.finalJob) == Queued {
        leftover := leftover + [cleanupDrops];
      }
      cleanupDrops, cleanupJobs := cleanupJobs[k], Without(cleanupJobs, k);
      cleanup := Some(Chained(NEW_REQUEST));
    }

    /** `_create_cleanup_jobs`. */
    method CreateCleanupJobs(k: nat, ghost u: Unit)
      requires Represents(Held(), u) && k < |cleanupJobs|
      modifies this
      ensures CanHappen(u, CreateCleanup(k)) && Represents(Held(), Happen(u, CreateCleanup(k)))
    {
      CleanupRefines(Held(), u, k);
      CreateCleanupRows(k);
    }

    /** `delete_cleanup_request`: refused exactly while a cleanup stage is unfinished. */
    method DeleteCleanupRequest(ghost u: Unit) returns (r: Result)
      requires Represents(Held(), u) && cleanupRow
      modifies this
      ensures r == Accepted <==> CanHappen(u, DropCleanupRequest)
      ensures Represents(Held(), Attempt(u, DropCleanupRequest))
    {
      CleanupGuards(Held(), u);
      if cleanup.Some? && !AllRowsFinished(cleanup.value.rows) {
        return Unfinished;
      }
      cleanupRow := false;
      r := Accepted;
    }

    /** The guards of `_restart_stage_handlers`. */
    method PassRestartGuards(ghost u: Unit) returns (r: Result)
      requires Represents(Held(), u) && alloc.Some?
      ensures r != Missing && r != Protected && |u.alloc.value.stages| == STAGES
      ensures r == Accepted <==> RestartAccepted(u.alloc.value)
      ensures |alloc.value.rows| == STAGES
      ensures r == Unfinished <==> exists row :: row in alloc.value.rows && !row.finished
      ensures r == NoFailure <==>
                (forall row :: row in alloc.value.rows ==> row.finished) && !alloc.value.rows[2].failed
    {
      RowGuards(alloc.value, u.alloc.value);
      if !AllRowsFinished(alloc.value.rows) {
        return Unfinished;
      }
      r := if alloc.value.rows[STAGES - 1].failed then Accepted else NoFailure;
    }

    /** The rest of `_restart_stage_handlers`, and the enqueuing of what it returns, for the new sandbox. */
    method RestartStages(withNetbird: bool, replacement: nat, ghost u: Unit)
      requires Represents(Held(), u) && alloc.Some? && Inv(u.alloc.value) && RestartAccepted(u.alloc.value)
      modifies this`alloc, this`owner
      ensures Represents(Held(), u.(alloc := Some(Restarted(u.alloc.value, withNetbird)), owner := replacement))
    {
      RestartDone(Held(), u, withNetbird, replacement);
      alloc, owner := Some(RestartedRequest(alloc.value, withNetbird)), replacement;
    }

    /** The old sandbox is deleted, which a lock prevents, and a new one takes its place. */
    method ReplaceSandbox(ghost u: Unit) returns (r: Result, replacement: nat)
      requires Represents(Held(), u)
      modifies this
      ensures alloc == old(alloc) && replacement == u.nextSandbox
      ensures r == if u.sandbox.None? then Missing else if u.sandbox.value.locked then Protected else Accepted
      ensures Represents(Held(), if r == Accepted then Resandboxed(u) else u)
    {
      replacement := nextSandbox;
      if sandbox.None? {
        return Missing, replacement;
      }
      if sandbox.value.locked {
        return Protected, replacement;
      }
      sandbox, nextSandbox := Some(Sandbox(replacement, false, false)), nextSandbox + 1;
      r := Accepted;
    }

    /** `_create_restart_jobs`: the sandbox is replaced, which a lock prevents, before the guards run. */
    method CreateRestartJobs(withNetbird: bool, ghost u: Unit) returns (r: Result)
      requires Represents(Held(), u) && ChainsInv(u) && (sandbox.Some? ==> alloc.Some?)
      modifies this
      ensures r == Missing <==> u.sandbox.None?
      ensures r == Protected <==> u.sandbox.Some? && u.sandbox.value.locked
      ensures r == Accepted <==> u.sandbox.Some? && Restarts(u)
      ensures r == Missing || r == Protected ==> Represents(Held(), u)
      ensures r != Missing ==> Represents(Held(), Happen(u, Restart(withNetbird)))
    {
      var replacement;
      r, replacement := ReplaceSandbox(u);
      if r == Missing {
        return;
      }
      RestartEvent(u, withNetbird);
      if r == Protected {
        return;
      }
      r := PassRestartGuards(Resandboxed(u));
      if r == Accepted {
        RestartStages(withNetbird, replacement, Resandboxed(u));
      }
    }

    /** `_mark_sandbox_as_ready`, on the sandbox that the finalizing job carries: saving it inserts a row that
        is gone, and fails when the unit has another sandbox by now. */
    method MarkSandboxAsReady(ghost u: Unit) returns (saved: bool)
      requires Represents(Held(), u) && alloc.Some? && Status(alloc.value, alloc.value.finalJob) == Queued
      modifies this
      ensures CanHappen(u, MarkReady) && Represents(Held(), Happen(u, MarkReady))
      ensures saved <==> old(sandbox.None? || sandbox.value.id == owner)
      ensures saved ==> sandbox.Some? && sandbox.value.id == old(owner) && sandbox.value.ready
      ensures !saved ==> sandbox == old(sandbox)
    {
      ReadyRefines(Held(), u);
      alloc := Some(FinalRun(alloc.value));
      saved := sandbox.None? || sandbox.value.id == owner;
      if sandbox.None? {
        sandbox := Some(Sandbox(owner, true, false));
      } else if saved {
        sandbox := Some(sandbox.value.(ready := true));
      }
    }
  }
}
