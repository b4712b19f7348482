/** The request handlers as they act on the database rows and on RQ's job graph.  The chain operations of
    `StageChain` are shown to be what these do to the rows and jobs of one request. */
module RequestHandlers {
  import opened Wrappers
  import opened StageChain

  /** An RQ job: the jobs it depends on and its status.  A deleted job is no longer in the map. */
  datatype Entry = Entry(deps: set<nat>, status: Job)

  type Jobs = map<nat, Entry>

  /** The rows of a request's stages in chain order, the job id recorded for each of them, and RQ's jobs.
      `finalJob` is the finalizing job, whose id the code does not record. */
  datatype Database = Database(rows: seq<Row>, jobIds: seq<nat>, jobs: Jobs, nextJob: nat,
                               first: nat, netbird: Option<nat>, finalJob: nat)

  /** Jobs only depend on jobs enqueued before them, and no deleted job is still known. */
  ghost predicate Ordered(jobs: Jobs) {
    && (forall j, d :: j in jobs && d in jobs[j].deps ==> d < j)
    && (forall j :: j in jobs ==> jobs[j].status != Deleted)
  }

  /** Job `j` depends on job `i`, directly or through other jobs still known to RQ. */
  predicate DependsOn(jobs: Jobs, j: nat, i: nat)
    requires Ordered(jobs)
    decreases j
  {
    j == i || (j in jobs && exists d :: d in jobs[j].deps && DependsOn(jobs, d, i))
  }

  function Status(db: Database, id: nat): Job {
    if id in db.jobs then db.jobs[id].status else Deleted
  }

  // ---------------------------------------------------------------- enqueuing

  predicate Runnable(jobs: Jobs, deps: set<nat>) {
    forall d :: d in deps ==> d in jobs && jobs[d].status == Finished
  }

  /** `Queue.enqueue(..., depends_on=deps)`. */
  function WithJob(db: Database, deps: set<nat>): Database {
    db.(jobs := db.jobs[db.nextJob := Entry(deps, if Runnable(db.jobs, deps) then Queued else Deferred)],
        nextJob := db.nextJob + 1)
  }

  /** What stage `i` of the request waits for. */
  function DepsOf(db: Database, i: nat): set<nat>
    requires i <= |db.jobIds|
  {
    (if db.first < i then {db.jobIds[i - 1]} else {})
    + (if i == STAGES - 1 && db.netbird.Some? then {db.netbird.value} else {})
  }

  function WithStageJob(db: Database): Database {
    WithJob(db, DepsOf(db, |db.jobIds|)).(jobIds := db.jobIds + [db.nextJob])
  }

  function WithStageJobs(db: Database, n: nat): Database
    decreases n
  {
    if n == 0 then db else WithStageJob(WithStageJobs(db, n - 1))
  }

  function WithFinalJob(db: Database): Database
    requires |db.jobIds| == STAGES
  {
    WithJob(db, {db.jobIds[STAGES - 1]}).(finalJob := db.nextJob)
  }

  /** The current chain in the job graph: every job waits for the one before it, the user stage also for
      the NetBird job, the finalizing job for the last stage; a deleted job has no dependents left. */
  ghost predicate Linked(db: Database) {
    && |db.rows| == |db.jobIds| == STAGES && db.first < STAGES
    && Ordered(db.jobs)
    && (forall i, j :: db.first <= i < j < STAGES ==> db.jobIds[i] < db.jobIds[j])
    && db.jobIds[STAGES - 1] < db.finalJob
    && (db.netbird.Some? ==> db.netbird.value < db.jobIds[db.first])
    && (forall i :: db.first <= i < STAGES && db.jobIds[i] in db.jobs ==> db.jobs[db.jobIds[i]].deps == DepsOf(db, i))
    && (db.finalJob in db.jobs ==> db.jobs[db.finalJob].deps == {db.jobIds[STAGES - 1]})
  }

  /** Before a chain is enqueued: rows `first`.. are new and have no job yet. */
  ghost predicate Prepared(db: Database) {
    && |db.rows| == STAGES && |db.jobIds| == db.first < STAGES
    && Ordered(db.jobs) && (forall j :: j in db.jobs ==> j < db.nextJob)
    && (forall i :: 0 <= i < db.first ==> db.jobIds[i] < db.nextJob)
    && (forall i :: db.first <= i < STAGES ==> db.rows[i] == NEW_ROW)
    && (db.netbird.Some? ==> db.netbird.value in db.jobs && db.jobs[db.netbird.value].status == Queued)
  }

  /** The part of the chain built after `n` stage jobs. */
  ghost predicate Built(db: Database, n: nat, d: Database)
    requires |db.jobIds| == db.first
  {
    && d == db.(jobIds := d.jobIds, jobs := d.jobs, nextJob := db.nextJob + n)
    && |d.jobIds| == db.first + n && d.jobIds[..db.first] == db.jobIds
    && (forall i :: db.first <= i < |d.jobIds| ==> d.jobIds[i] == db.nextJob + i - db.first)
    && (forall j :: j in db.jobs ==> j in d.jobs && d.jobs[j] == db.jobs[j])
    && (forall j :: j in d.jobs ==> j in db.jobs || db.nextJob <= j < d.nextJob)
    && (forall i :: db.first <= i < |d.jobIds| ==>
          d.jobIds[i] in d.jobs && d.jobs[d.jobIds[i]] == Entry(DepsOf(d, i), InitialStatus(db, i)))
  }

  function InitialStatus(db: Database, i: nat): Job {
    if i == db.first && !(i == STAGES - 1 && db.netbird.Some?) then Queued else Deferred
  }

  lemma NextRunnable(db: Database, n: nat, d: Database)
    requires Prepared(db) && db.first + n < STAGES && Built(db, n, d)
    ensures Runnable(d.jobs, DepsOf(d, |d.jobIds|)) <==> InitialStatus(db, |d.jobIds|) == Queued
  {
    var i := |d.jobIds|;
    var deps := DepsOf(d, i);
    if db.first < i { assert d.jobIds[i - 1] in deps; }
    if i == STAGES - 1 && db.netbird.Some? { assert db.netbird.value in deps; }
  }

  lemma NextEntry(db: Database, n: nat, d: Database)
    requires Prepared(db) && db.first + n < STAGES && Built(db, n, d)
    ensures var i, d' := |d.jobIds|, WithStageJob(d);
            && d'.jobIds == d.jobIds + [d.nextJob] && DepsOf(d', i) == DepsOf(d, i)
            && d'.jobs == d.jobs[d.nextJob := Entry(DepsOf(d', i), InitialStatus(db, i))]
            && d'.nextJob == d.nextJob + 1 && d' == db.(jobIds := d'.jobIds, jobs := d'.jobs, nextJob := d'.nextJob)
            && (forall k :: db.first <= k < i ==> DepsOf(d', k) == DepsOf(d, k))
  {
    NextRunnable(db, n, d);
  }

  lemma NextBuilt(db: Database, n: nat, d: Database)
    requires Prepared(db) && db.first + n < STAGES && Built(db, n, d)
    ensures Built(db, n + 1, WithStageJob(d))
  {
    NextEntry(db, n, d);
    assert WithStageJob(d).jobIds[..db.first] == d.jobIds[..db.first];
  }

  lemma {:induction false} StageJobsBuilt(db: Database, n: nat)
    requires Prepared(db) && db.first + n <= STAGES
    ensures Built(db, n, WithStageJobs(db, n))
  {
    if n > 0 {
      StageJobsBuilt(db, n - 1);
      NextBuilt(db, n - 1, WithStageJobs(db, n - 1));
    }
  }

  lemma BuiltLinked(db: Database, d: Database)
    requires Prepared(db) && Built(db, STAGES - db.first, d)
    ensures Linked(WithFinalJob(d))
  {
    var e := WithFinalJob(d);
    assert Ordered(e.jobs) by { BuiltOrdered(db, d); }
    assert forall i :: db.first <= i < STAGES ==> DepsOf(e, i) == DepsOf(d, i) && d.jobIds[i] != e.finalJob;
  }

  lemma BuiltOrdered(db: Database, d: Database)
    requires Prepared(db) && Built(db, STAGES - db.first, d)
    ensures Ordered(WithFinalJob(d).jobs)
  {
    forall j, k | j in d.jobs && k in d.jobs[j].deps ensures k < j && d.jobs[j].status != Deleted {
      if j !in db.jobs { assert j == d.jobIds[j - db.nextJob + db.first]; }
    }
  }

  lemma BuiltStatuses(db: Database, d: Database)
    requires Prepared(db) && Built(db, STAGES - db.first, d)
    ensures Status(WithFinalJob(d), d.nextJob) == Deferred
    ensures forall i :: 0 <= i < STAGES ==> Status(WithFinalJob(d), d.jobIds[i]) == Status(d, d.jobIds[i])
  {
    var last := d.jobIds[STAGES - 1];
    assert last in d.jobs && d.jobs[last].status != Finished;
    forall i | 0 <= i < STAGES ensures d.jobIds[i] != d.nextJob {
      if i < db.first { assert d.jobIds[..db.first][i] == db.jobIds[i]; }
    }
  }

  lemma EnqueuedStages(kept: seq<Stage>, netbird: bool, i: nat)
    requires |kept| <= i < STAGES
    ensures var c := Enqueued(kept, netbird, false, 0, false);
            && c.stages[i].row == NEW_ROW && c.fin == Deferred
            && c.stages[i].job == (if i == |kept| && !(i == STAGES - 1 && netbird) then Queued else Deferred)
  {
  }

  /** The chain made of the built stage jobs and the finalizing job is the one that `StageChain.Enqueued`
      describes. */
  ghost predicate ShowsEnqueued(db: Database, kept: seq<Stage>, stages: Database)
    requires |stages.jobIds| == STAGES && |stages.rows| == STAGES && |db.rows| == STAGES && db.first < STAGES
               && |kept| == db.first == |db.jobIds|
  {
    var c, d := Enqueued(kept, db.netbird.Some?, false, 0, false), WithFinalJob(stages);
    && Linked(d)
    && (forall i :: 0 <= i < db.first ==> d.jobIds[i] == db.jobIds[i] && d.rows[i] == db.rows[i])
    && (forall i :: db.first <= i < STAGES ==>
          d.rows[i] == c.stages[i].row && Status(d, d.jobIds[i]) == c.stages[i].job)
    && Status(d, d.finalJob) == c.fin
  }

  /** `_enqueue_request` links the jobs into the chain that `StageChain.Enqueued` describes: it leaves the
      jobs of the kept stages alone and gives every other stage the row and job status of that chain. */
  lemma EnqueueBuildsChain(db: Database, kept: seq<Stage>)
    requires Prepared(db) && |kept| == db.first
    ensures var stages := WithStageJobs(db, STAGES - db.first);
            |stages.jobIds| == STAGES && |stages.rows| == STAGES && ShowsEnqueued(db, kept, stages)
  {
    var n := STAGES - db.first;
    StageJobsBuilt(db, n);
    BuiltAgrees(db, WithStageJobs(db, n), kept);
  }

  lemma BuiltAgrees(db: Database, stages: Database, kept: seq<Stage>)
    requires Prepared(db) && |kept| == db.first && Built(db, STAGES - db.first, stages)
    ensures ShowsEnqueued(db, kept, stages)
  {
    BuiltLinked(db, stages);
    BuiltStatuses(db, stages);
    forall i | 0 <= i < db.first ensures stages.jobIds[i] == db.jobIds[i] {
      assert stages.jobIds[..db.first][i] == db.jobIds[i];
    }
    forall i | db.first <= i < STAGES
      ensures stages.rows[i] == Enqueued(kept, db.netbird.Some?, false, 0, false).stages[i].row
      ensures Status(stages, stages.jobIds[i]) == Enqueued(kept, db.netbird.Some?, false, 0, false).stages[i].job
    {
      EnqueuedStages(kept, db.netbird.Some?, i);
    }
    EnqueuedStages(kept, db.netbird.Some?, STAGES - 1);
  }

  // ---------------------------------------------------------------- cancelling

  /** `Job.delete(delete_dependents=True)`: `deep` says whether RQ also deletes the dependents of the
      dependents. */
  predicate Goes(jobs: Jobs, j: nat, id: nat, deep: bool)
    requires Ordered(jobs)
  {
    if deep then DependsOn(jobs, j, id) else j == id || (j in jobs && id in jobs[j].deps)
  }

  function WithoutJob(db: Database, id: nat, deep: bool): (d: Database)
    requires Ordered(db.jobs)
    ensures Ordered(d.jobs)
  {
    db.(jobs := map j | j in db.jobs && !Goes(db.jobs, j, id, deep) :: db.jobs[j])
  }

  /** `StageHandler.cancel` on the row and job of stage `i`. */
  function CancelRow(db: Database, i: nat, deep: bool): (d: Database)
    requires Ordered(db.jobs) && i < |db.rows| && |db.rows| == |db.jobIds|
    ensures Ordered(d.jobs) && |d.rows| == |db.rows| && d.jobIds == db.jobIds
  {
    if db.rows[i].finished then db else
    WithoutJob(db, db.jobIds[i], deep).(rows := db.rows[i := Row(db.rows[i].started, true, true, true)])
  }

  function CancelRows(db: Database, n: nat, deep: bool): Database
    requires Ordered(db.jobs) && n <= |db.rows| == |db.jobIds|
    decreases n
  {
    if n == 0 then db else CancelRows(CancelRow(db, n - 1, deep), n - 1, deep)
  }

  ghost predicate Agrees(db: Database, c: Chain)
    requires |db.rows| == |db.jobIds| == STAGES
  {
    && |c.stages| == STAGES && db.first == c.first < STAGES
    && (forall i :: 0 <= i < STAGES ==> db.rows[i] == c.stages[i].row)
    && (forall i :: c.first <= i < STAGES ==> Status(db, db.jobIds[i]) == c.stages[i].job)
    && (forall i :: 0 <= i < c.first ==> db.rows[i].finished)
    && Status(db, db.finalJob) == c.fin
    && c.extra == (if db.netbird.None? then None else Some(Status(db, db.netbird.value)))
  }

  /** The database shows the rows and jobs of the chain. */
  ghost predicate Shows(db: Database, c: Chain) {
    Linked(db) && Agrees(db, c)
  }

  /** Stages from `n` on are dealt with: if an earlier one is unfinished, they are gone. */
  ghost predicate TailGone(c: Chain, n: nat)
    requires |c.stages| == STAGES
  {
    forall i :: 0 <= i < n && i < STAGES && !c.stages[i].row.finished ==>
      && (forall k :: n <= k < STAGES ==> c.stages[k].job == Deleted)
      && (n < STAGES ==> c.fin == Deleted)
      && (forall k :: i < k < n && k < STAGES ==> !c.stages[k].row.finished)
  }

  lemma {:induction false} DependsBackwards(jobs: Jobs, j: nat, i: nat)
    requires Ordered(jobs) && DependsOn(jobs, j, i)
    ensures i <= j
    decreases j
  {
    if j != i {
      var d :| d in jobs[j].deps && DependsOn(jobs, d, i);
      DependsBackwards(jobs, d, i);
    }
  }

  lemma GoesBackwards(jobs: Jobs, j: nat, id: nat, deep: bool)
    requires Ordered(jobs) && Goes(jobs, j, id, deep)
    ensures id <= j
  {
    if deep { DependsBackwards(jobs, j, id); }
  }

  lemma CancelKeepsTail(c: Chain, i: nat)
    requires |c.stages| == STAGES && i < STAGES && TailGone(c, i + 1)
    ensures TailGone(CancelStage(c, i), i)
  {
  }

  /** The jobs of earlier stages survive, those of stage `i` and later ones do not, nor the final job. */
  lemma JobsAfterCancel(db: Database, c: Chain, i: nat, deep: bool)
    requires Shows(db, c) && i < STAGES && TailGone(c, i + 1) && !db.rows[i].finished
    ensures var d := WithoutJob(db, db.jobIds[i], deep);
            && (forall k :: c.first <= k < i ==> Status(d, db.jobIds[k]) == Status(db, db.jobIds[k]))
            && (forall k :: i <= k < STAGES ==> Status(d, db.jobIds[k]) == Deleted)
            && Status(d, db.finalJob) == Deleted
            && (db.netbird.Some? ==> Status(d, db.netbird.value) == Status(db, db.netbird.value))
  {
    var id := db.jobIds[i];
    forall k | c.first <= k < i ensures !Goes(db.jobs, db.jobIds[k], id, deep) {
      if Goes(db.jobs, db.jobIds[k], id, deep) { GoesBackwards(db.jobs, db.jobIds[k], id, deep); }
    }
    if db.netbird.Some? && Goes(db.jobs, db.netbird.value, id, deep) {
      GoesBackwards(db.jobs, db.netbird.value, id, deep);
    }
    assert !c.stages[i].row.finished;
    forall k | i < k < STAGES ensures db.jobIds[k] !in db.jobs { assert Status(db, db.jobIds[k]) == c.stages[k].job; }
    if i == STAGES - 1 && db.finalJob in db.jobs {
      assert id in db.jobs[db.finalJob].deps && DependsOn(db.jobs, id, id);
    }
  }

  lemma RowCancelled(db: Database, c: Chain, i: nat, deep: bool)
    requires Shows(db, c) && i < STAGES && TailGone(c, i + 1)
    ensures Shows(CancelRow(db, i, deep), CancelStage(c, i)) && TailGone(CancelStage(c, i), i)
  {
    CancelKeepsTail(c, i);
    if !db.rows[i].finished {
      JobsAfterCancel(db, c, i, deep);
      StillLinked(db, i, deep);
    }
  }

  lemma StillLinked(db: Database, i: nat, deep: bool)
    requires Linked(db) && i < STAGES
    ensures Linked(CancelRow(db, i, deep))
  {
    var d := CancelRow(db, i, deep);
    assert forall k :: 0 <= k <= STAGES ==> DepsOf(d, k) == DepsOf(db, k);
  }

  lemma RowStep(db: Database, c: Chain, i: nat, deep: bool) returns (d: Database, e: Chain)
    requires Shows(db, c) && i < STAGES && TailGone(c, i + 1)
    ensures d == CancelRow(db, i, deep) && e == CancelStage(c, i) && |e.stages| == STAGES
    ensures Shows(d, e) && TailGone(e, i)
  {
    RowCancelled(db, c, i, deep);
    d, e := CancelRow(db, i, deep), CancelStage(c, i);
  }

  lemma {:induction false} RowsCancelled(db: Database, c: Chain, n: nat, deep: bool)
    requires Shows(db, c) && n <= STAGES && TailGone(c, n)
    ensures Shows(CancelRows(db, n, deep), CancelDown(c, n))
    decreases n
  {
    if n > 0 {
      var d, e := RowStep(db, c, n - 1, deep);
      RowsCancelled(d, e, n - 1, deep);
    }
  }

  /** `cancel_request` does to rows and jobs what `StageChain.Cancel` says, whether or not RQ deletes
      dependents transitively: the reverse order of the handlers already covers them. */
  lemma CancelActsOnChain(db: Database, c: Chain, deep: bool)
    requires Inv(c) && Shows(db, c)
    ensures Shows(CancelRows(db, STAGES, deep), Cancel(c))
  {
    forall i | 0 <= i < STAGES && !c.stages[i].row.finished
      ensures forall k :: i < k < STAGES ==> !c.stages[k].row.finished
    {
      forall k | i < k < STAGES ensures !c.stages[k].row.finished { UnfinishedTail(c, i, k); }
    }
    RowsCancelled(db, c, STAGES, deep);
  }

  lemma {:induction false} FinishedRowsStay(db: Database, n: nat, deep: bool)
    requires Ordered(db.jobs) && n <= |db.rows| == |db.jobIds|
    requires forall i :: 0 <= i < n ==> db.rows[i].finished
    ensures CancelRows(db, n, deep) == db
    decreases n
  {
    if n > 0 { FinishedRowsStay(db, n - 1, deep); }
  }

  /** Only a started stage has a process or container whose stopping can raise; if it is unfinished,
      everything before it is finished, so an exception leaves nothing to cancel. */
  ghost predicate StartedIsFront(rows: seq<Row>) {
    forall i, k :: 0 <= k < i < |rows| && rows[i].started && !rows[i].finished ==> rows[k].finished
  }

  predicate AllRowsFinished(rows: seq<Row>) {
    forall i :: 0 <= i < |rows| ==> rows[i].finished
  }

  lemma ShownRows(db: Database, c: Chain)
    requires Inv(c) && Shows(db, c)
    ensures StartedIsFront(db.rows) && (AllRowsFinished(db.rows) <==> AllFinished(c))
  {
    forall i, k | 0 <= k < i < |db.rows| && db.rows[i].started && !db.rows[i].finished ensures db.rows[k].finished {
      ActiveIsFront(c, i);
    }
    if AllFinished(c) {
      forall i | 0 <= i < |db.rows| ensures db.rows[i].finished { assert c.stages[i] in c.stages; }
    }
  }

  // ---------------------------------------------------------------- executing

  /** RQ queues every deferred job whose dependencies have all finished. */
  function PromotedJobs(jobs: Jobs): Jobs {
    map j | j in jobs ::
      if jobs[j].status == Deferred && Runnable(jobs, jobs[j].deps) then jobs[j].(status := Queued) else jobs[j]
  }

  function WithStatus(jobs: Jobs, id: nat, status: Job): Jobs {
    if id in jobs then jobs[id := jobs[id].(status := status)] else jobs
  }

  /** The worker takes the job of stage `i` and saves the started row. */
  function BeginRow(db: Database, i: nat): Database
    requires i < |db.rows| && |db.rows| == |db.jobIds|
  {
    db.(rows := db.rows[i := RUNNING_ROW], jobs := WithStatus(db.jobs, db.jobIds[i], Started))
  }

  /** The worker saves its copy of the row and reports the outcome of the job to RQ. */
  function EndRow(db: Database, i: nat, o: Outcome): Database
    requires i < |db.rows| && |db.rows| == |db.jobIds|
  {
    db.(rows := db.rows[i := RUNNING_ROW.(failed := o != Success, ended := true, finished := true)],
        jobs := PromotedJobs(WithStatus(db.jobs, db.jobIds[i], if o == Success then Finished else Failed)))
  }

  /** Only statuses differ. */
  ghost predicate SameGraph(jobs: Jobs, jobs': Jobs) {
    jobs.Keys == jobs'.Keys && forall j :: j in jobs ==> jobs'[j].deps == jobs[j].deps && jobs'[j].status != Deleted
  }

  lemma RelabelledLinked(db: Database, rows: seq<Row>, jobs: Jobs)
    requires Linked(db) && |rows| == STAGES && SameGraph(db.jobs, jobs)
    ensures Linked(db.(rows := rows, jobs := jobs))
  {
    var d := db.(rows := rows, jobs := jobs);
    assert forall k :: 0 <= k <= STAGES ==> DepsOf(d, k) == DepsOf(db, k);
  }

  /** Two chains that differ in stage `i` only. */
  ghost predicate DifferAt(c: Chain, e: Chain, i: nat) {
    && e.first == c.first && e.extra == c.extra && e.fin == c.fin && |e.stages| == |c.stages|
    && forall k :: 0 <= k < |c.stages| && k != i ==> e.stages[k] == c.stages[k]
  }

  /** Relabelling the job of an enqueued stage changes no other status of the chain. */
  lemma RelabelledAgrees(db: Database, c: Chain, e: Chain, i: nat, row: Row, status: Job)
    requires |db.rows| == |db.jobIds| == STAGES && Agrees(db, c) && DifferAt(c, e, i) && c.first <= i < STAGES
    requires forall k :: c.first <= k < STAGES && k != i ==> db.jobIds[k] != db.jobIds[i]
    requires db.finalJob != db.jobIds[i] && (db.netbird.Some? ==> db.netbird.value != db.jobIds[i])
    requires status != Deleted && (db.jobIds[i] in db.jobs ==> db.jobs[db.jobIds[i]].status != Deleted)
    requires e.stages[i].row == row && e.stages[i].job == (if c.stages[i].job == Deleted then Deleted else status)
    ensures Agrees(db.(rows := db.rows[i := row], jobs := WithStatus(db.jobs, db.jobIds[i], status)), e)
  {
  }

  lemma Relabelled(db: Database, c: Chain, e: Chain, i: nat, row: Row, status: Job)
    requires Shows(db, c) && DifferAt(c, e, i) && c.first <= i < STAGES && status != Deleted
    requires e.stages[i].row == row && e.stages[i].job == (if c.stages[i].job == Deleted then Deleted else status)
    ensures Shows(db.(rows := db.rows[i := row], jobs := WithStatus(db.jobs, db.jobIds[i], status)), e)
  {
    RelabelledLinked(db, db.rows[i := row], WithStatus(db.jobs, db.jobIds[i], status));
    assert forall k :: c.first <= k < i ==> db.jobIds[k] < db.jobIds[i];
    assert forall k :: i < k < STAGES ==> db.jobIds[i] < db.jobIds[k];
    assert db.jobIds[db.first] <= db.jobIds[i] <= db.jobIds[STAGES - 1] < db.finalJob;
    RelabelledAgrees(db, c, e, i, row, status);
  }

  lemma BeginActsOnChain(db: Database, c: Chain, i: nat)
    requires Shows(db, c) && c.first <= i < STAGES && c.stages[i].job == Queued
    ensures Shows(BeginRow(db, i), Start(c, i))
  {
    Relabelled(db, c, Start(c, i), i, RUNNING_ROW, Started);
  }

  /** The row and the job of stage `i` after its end, before RQ promotes other jobs. */
  function Ended(db: Database, i: nat, o: Outcome): Database
    requires i < |db.rows| && |db.rows| == |db.jobIds|
  {
    db.(rows := db.rows[i := RUNNING_ROW.(failed := o != Success, ended := true, finished := true)],
        jobs := WithStatus(db.jobs, db.jobIds[i], if o == Success then Finished else Failed))
  }

  lemma EndedShows(db: Database, c: Chain, i: nat, o: Outcome)
    requires Shows(db, c) && c.first <= i < STAGES && c.stages[i].worker == Some(RUNNING_ROW)
    ensures Shows(Ended(db, i, o), Settled(c, i, o))
  {
    Relabelled(db, c, Settled(c, i, o), i, RUNNING_ROW.(failed := o != Success, ended := true, finished := true),
               if o == Success then Finished else Failed);
  }

  lemma RunnableIffDepsFinished(db: Database, c: Chain, i: nat)
    requires Shows(db, c) && c.first <= i < STAGES
    ensures Runnable(db.jobs, DepsOf(db, i)) <==> DepsFinished(c, i)
  {
    if c.first < i { assert db.jobIds[i - 1] in DepsOf(db, i); }
    if i == STAGES - 1 && db.netbird.Some? { assert db.netbird.value in DepsOf(db, i); }
  }

  lemma PromotionActsOnChain(db: Database, c: Chain)
    requires Shows(db, c)
    requires forall i :: 0 <= i < c.first ==> c.stages[i].job != Deferred
    requires c.extra != Some(Deferred)
    ensures Shows(db.(jobs := PromotedJobs(db.jobs)), Promoted(c))
  {
    var d, e := db.(jobs := PromotedJobs(db.jobs)), Promoted(c);
    RelabelledLinked(db, db.rows, PromotedJobs(db.jobs));
    forall k | 0 <= k < STAGES
      ensures d.rows[k] == e.stages[k].row && (c.first <= k ==> Status(d, d.jobIds[k]) == e.stages[k].job)
    {
      assert e.stages[k] == PromotedStage(c, k);
      if c.first <= k { RunnableIffDepsFinished(db, c, k); }
    }
    PromotedFinal(db, c);
  }

  lemma PromotedFinal(db: Database, c: Chain)
    requires Shows(db, c) && c.extra != Some(Deferred)
    ensures var d := db.(jobs := PromotedJobs(db.jobs));
            Status(d, d.finalJob) == Promoted(c).fin
            && (db.netbird.Some? ==> Status(d, db.netbird.value) == Status(db, db.netbird.value))
  {
    assert db.finalJob in db.jobs ==>
             (Runnable(db.jobs, db.jobs[db.finalJob].deps) <==> Status(db, db.jobIds[STAGES - 1]) == Finished);
  }

  lemma ActiveFacts(c: Chain, i: nat)
    requires Inv(c) && i < STAGES && (c.stages[i].job == Queued || c.stages[i].worker.Some?)
    ensures c.first <= i && c.extra != Some(Deferred)
    ensures c.stages[i].worker.Some? ==> c.stages[i].worker == Some(RUNNING_ROW)
    ensures forall k :: 0 <= k < c.first ==> c.stages[k].job != Deferred
  {
  }

  /** Starting a stage does in RQ's job graph what `StageChain.Start` does to the chain. */
  lemma BeginRefines(db: Database, c: Chain, i: nat)
    requires Inv(c) && Shows(db, c) && i < STAGES && c.stages[i].job == Queued
    ensures Shows(BeginRow(db, i), Start(c, i))
  {
    ActiveFacts(c, i);
    BeginActsOnChain(db, c, i);
  }

  /** Finishing a stage does in RQ's job graph what `StageChain.Finish` does to the chain. */
  lemma EndRefines(db: Database, c: Chain, i: nat, o: Outcome)
    requires Inv(c) && Shows(db, c) && i < STAGES && c.stages[i].worker.Some?
    ensures Shows(EndRow(db, i, o), Finish(c, i, o))
  {
    ActiveFacts(c, i);
    EndedShows(db, c, i, o);
    var s := Settled(c, i, o);
    assert forall k :: 0 <= k < c.first ==> s.stages[k] == c.stages[k];
    PromotionActsOnChain(Ended(db, i, o), s);
  }

  // ---------------------------------------------------------------- the other worker steps

  /** The exception handler cancels in rows and jobs what `StageChain.Handle` cancels in the chain. */
  lemma HandleRefines(db: Database, c: Chain, i: nat, deep: bool)
    requires Inv(c) && Shows(db, c) && i < STAGES && c.stages[i].handling
    ensures Shows(CancelRows(db, STAGES, deep), Handle(c, i))
  {
    if AllFinished(c) {
      ShownRows(db, c);
      FinishedRowsStay(db, STAGES, deep);
      HandledShown(db, c, i);
    } else {
      CancelActsOnChain(db, c, deep);
      CancelForm(c);
      HandledCancel(c, i, STAGES);
      HandledShown(CancelRows(db, STAGES, deep), Cancel(c), i);
    }
  }

  lemma HandledShown(db: Database, c: Chain, i: nat)
    requires Shows(db, c) && i < STAGES
    ensures Shows(db, Handled(c, i))
  {
  }

  /** The NetBird job takes a status. */
  function NetbirdStatus(db: Database, status: Job): Database {
    if db.netbird.Some? then db.(jobs := WithStatus(db.jobs, db.netbird.value, status)) else db
  }

  function NetbirdEnded(db: Database): Database {
    var d := NetbirdStatus(db, Finished);
    d.(jobs := PromotedJobs(d.jobs))
  }

  lemma NetbirdRelabelled(db: Database, c: Chain, status: Job)
    requires Shows(db, c) && c.extra.Some? && c.extra != Some(Deleted) && status != Deleted
    ensures Shows(NetbirdStatus(db, status), c.(extra := Some(status)))
  {
    RelabelledLinked(db, db.rows, WithStatus(db.jobs, db.netbird.value, status));
    assert forall k :: c.first <= k < STAGES ==> db.jobIds[c.first] <= db.jobIds[k];
    assert db.netbird.value < db.jobIds[c.first] <= db.jobIds[STAGES - 1] < db.finalJob;
  }

  lemma NetbirdRefines(db: Database, c: Chain)
    requires Inv(c) && Shows(db, c) && c.extra.Some? && c.extra != Some(Finished)
    ensures Shows(NetbirdStatus(db, Started), StartExtra(c))
    ensures Shows(NetbirdEnded(db), FinishExtra(c))
  {
    NetbirdRelabelled(db, c, Started);
    NetbirdRelabelled(db, c, Finished);
    KeptNotDeferred(c);
    PromotionActsOnChain(NetbirdStatus(db, Finished), c.(extra := Some(Finished)));
  }

  lemma KeptNotDeferred(c: Chain)
    requires Inv(c)
    ensures forall k :: 0 <= k < c.first ==> c.stages[k].job != Deferred
  {
  }

  function FinalRun(db: Database): Database {
    db.(jobs := WithStatus(db.jobs, db.finalJob, Finished))
  }

  /** Running the finalizing job changes its status only. */
  lemma FinalRefines(db: Database, c: Chain)
    requires Shows(db, c) && c.fin == Queued
    ensures Shows(FinalRun(db), RunFinalizer(c))
  {
    RelabelledLinked(db, db.rows, WithStatus(db.jobs, db.finalJob, Finished));
    assert forall k :: c.first <= k < STAGES ==> db.jobIds[k] <= db.jobIds[STAGES - 1] < db.finalJob;
    assert db.netbird.Some? ==> db.netbird.value < db.jobIds[c.first] <= db.jobIds[STAGES - 1];
  }

  /** What a worker step does to the rows and jobs. */
  function DoStep(db: Database, s: Step, deep: bool): Database
    requires Linked(db)
  {
    match s
    case StartStage(i) => if i < STAGES then BeginRow(db, i) else db
    case FinishStage(i, o) => if i < STAGES then EndRow(db, i, o) else db
    case HandleFailure(_) => CancelRows(db, STAGES, deep)
    case StartNetbird => NetbirdStatus(db, Started)
    case FinishNetbird => NetbirdEnded(db)
  }

  /** Every worker step acts on rows and jobs as it does on the chain. */
  lemma StepRefines(db: Database, c: Chain, s: Step, deep: bool)
    requires Inv(c) && Shows(db, c) && Enabled(c, s)
    ensures Shows(DoStep(db, s, deep), After(c, s))
  {
    match s
    case StartStage(i) => BeginRefines(db, c, i);
    case FinishStage(i, o) => EndRefines(db, c, i, o);
    case HandleFailure(i) => HandleRefines(db, c, i, deep);
    case _ => NetbirdRefines(db, c);
  }

  /** A worker can start exactly the jobs that RQ holds as queued, and only a started NetBird job ends. */
  lemma StartedFromQueue(db: Database, c: Chain, i: nat)
    requires Inv(c) && Shows(db, c)
    ensures Enabled(c, StartStage(i)) <==> db.first <= i < STAGES && Status(db, db.jobIds[i]) == Queued
    ensures Enabled(c, StartNetbird) <==> db.netbird.Some? && Status(db, db.netbird.value) == Queued
    ensures Enabled(c, FinishNetbird) <==> db.netbird.Some? && Status(db, db.netbird.value) == Started
  {
    if i < c.first { assert Succeeded(c.stages[i]); }
  }

  /** What a run of worker steps does to the rows and jobs. */
  ghost function DoSteps(db: Database, ss: seq<Step>, deep: bool): Database
    decreases |ss|
  {
    if ss == [] || !Linked(db) then db else DoSteps(DoStep(db, ss[0], deep), ss[1..], deep)
  }

  /** Every run of worker steps on the chain is a run on rows and jobs that ends showing the chain. */
  lemma {:induction false} RunRefines(db: Database, c: Chain, ss: seq<Step>, deep: bool)
    requires Inv(c) && Shows(db, c) && StepsPossible(c, ss)
    ensures Shows(DoSteps(db, ss, deep), StepsAfter(c, ss)) && Inv(StepsAfter(c, ss))
    decreases |ss|
  {
    if ss != [] {
      StepRefines(db, c, ss[0], deep);
      StepInv(c, ss[0]);
      RunRefines(DoStep(db, ss[0], deep), After(c, ss[0]), ss[1..], deep);
    }
  }

  /** So what holds of chains holds of the database: a stage job is queued only behind finished, unfailed rows, and
      that of the user stage only when the NetBird job has finished. */
  lemma QueuedInOrder(db: Database, c: Chain, i: nat)
    requires Inv(c) && Shows(db, c) && db.first <= i < STAGES && Status(db, db.jobIds[i]) == Queued
    ensures forall k :: 0 <= k < i ==> db.rows[k].finished && !db.rows[k].failed
    ensures i == STAGES - 1 && db.netbird.Some? ==> Status(db, db.netbird.value) == Finished
  {
    StartOrder(c, i);
  }

  // ---------------------------------------------------------------- enqueuing a whole chain

  /** Ids are handed out in order. */
  ghost predicate Numbered(db: Database) {
    && (forall j :: j in db.jobs ==> j < db.nextJob)
    && (forall i :: 0 <= i < |db.jobIds| ==> db.jobIds[i] < db.nextJob)
  }

  function Chained(db: Database): Database
    requires Prepared(db)
    ensures |Chained(db).rows| == STAGES
  {
    StageJobsSize(db, STAGES - db.first);
    WithFinalJob(WithStageJobs(db, STAGES - db.first))
  }

  lemma {:induction false} StageJobsSize(db: Database, n: nat)
    ensures var d := WithStageJobs(db, n); |d.jobIds| == |db.jobIds| + n && d.rows == db.rows
  {
    if n > 0 { StageJobsSize(db, n - 1); }
  }

  /** Grouping and earlier reports leave the structure of a new chain alone. */
  lemma EnqueuedAlike(kept: seq<Stage>, netbird: bool, grouped: bool, reports: nat, late: bool)
    requires |kept| < STAGES && forall i :: 0 <= i < |kept| ==> kept[i].job != Deferred
    ensures var c, d := Enqueued(kept, netbird, grouped, reports, late), Enqueued(kept, netbird, false, 0, false);
            && |c.stages| == STAGES && c.stages == d.stages && c.fin == d.fin && c.first == |kept|
            && c.extra == (if netbird then Some(Queued) else None)
            && forall i :: 0 <= i < |kept| ==> c.stages[i] == kept[i]
  {
  }

  lemma NetbirdUntouched(db: Database)
    requires Prepared(db) && db.netbird.Some?
    ensures Status(Chained(db), db.netbird.value) == Queued && Chained(db).netbird == db.netbird
  {
    StageJobsBuilt(db, STAGES - db.first);
  }

  lemma ChainedNumbered(db: Database)
    requires Prepared(db)
    ensures Numbered(Chained(db)) && Chained(db).first == db.first && Chained(db).netbird == db.netbird
  {
    var n := STAGES - db.first;
    StageJobsBuilt(db, n);
    var d := WithStageJobs(db, n);
    forall i | 0 <= i < STAGES ensures d.jobIds[i] < d.nextJob {
      if i < db.first { assert d.jobIds[..db.first][i] == db.jobIds[i]; }
    }
  }

  /** `_enqueue_request` makes rows and jobs that show the new chain behind the kept stages. */
  lemma EnqueueRefines(db: Database, kept: seq<Stage>, grouped: bool, reports: nat, late: bool)
    requires Prepared(db) && |kept| == db.first
    requires forall i :: 0 <= i < |kept| ==> Succeeded(kept[i]) && kept[i].row == db.rows[i]
    ensures Shows(Chained(db), Enqueued(kept, db.netbird.Some?, grouped, reports, late)) && Numbered(Chained(db))
  {
    EnqueueBuildsChain(db, kept);
    EnqueuedAlike(kept, db.netbird.Some?, grouped, reports, late);
    ChainedNumbered(db);
    if db.netbird.Some? { NetbirdUntouched(db); }
  }

  // ---------------------------------------------------------------- restarting

  function FirstFailed(rows: seq<Row>): nat
    ensures FirstFailed(rows) <= |rows|
    decreases |rows|
  {
    if rows == [] || rows[0].failed then 0 else 1 + FirstFailed(rows[1..])
  }

  lemma {:induction false} FirstFailedIs(rows: seq<Row>, first: nat)
    requires first <= |rows| && forall i :: 0 <= i < |rows| ==> (rows[i].failed <==> first <= i)
    ensures FirstFailed(rows) == first
    decreases |rows|
  {
    if rows != [] && !rows[0].failed {
      forall i | 0 <= i < |rows| - 1 ensures rows[1..][i].failed <==> first - 1 <= i {
        assert rows[1..][i] == rows[i + 1];
      }
      FirstFailedIs(rows[1..], first - 1);
    }
  }

  /** New rows for the failed stages; the others keep row and job. */
  function Replaced(db: Database): Database
    requires |db.rows| == |db.jobIds| == STAGES
  {
    var first := FirstFailed(db.rows);
    db.(rows := seq(STAGES, i requires 0 <= i < STAGES => if first <= i then NEW_ROW else db.rows[i]),
        jobIds := db.jobIds[..first], first := first, netbird := None)
  }

  /** The NetBird job, when it is configured. */
  function WithNetbird(db: Database, netbird: bool): Database {
    if netbird then WithJob(db, {}).(netbird := Some(db.nextJob)) else db
  }

  /** What the invariant of the chain gives the handlers: nothing before a running stage is unfinished, and once all
      stages are finished the failed ones are a suffix. */
  lemma ShownHandlers(db: Database, c: Chain)
    requires Inv(c) && Shows(db, c)
    ensures StartedIsFront(db.rows) && (AllRowsFinished(db.rows) <==> AllFinished(c))
    ensures AllRowsFinished(db.rows) ==>
              forall i, j :: 0 <= i < j < STAGES && db.rows[i].failed ==> db.rows[j].failed
  {
    ShownRows(db, c);
    if AllFinished(c) {
      forall i, j | 0 <= i < j < STAGES && db.rows[i].failed ensures db.rows[j].failed { FailedSuffix(c, i, j); }
    }
  }

  lemma RestartPrepared(db: Database, c: Chain, netbird: bool)
    requires Inv(c) && Shows(db, c) && Numbered(db) && AllFinished(c) && c.stages[STAGES - 1].row.failed
    ensures FirstFailed(db.rows) == FirstRestarted(c) && Prepared(WithNetbird(Replaced(db), netbird))
  {
    RestartRecreatesFailedSuffix(c);
    FirstFailedIs(db.rows, FirstRestarted(c));
  }

  /** Replacing the failed rows and enqueuing them again is what an accepted restart does to the chain. */
  lemma RestartRefines(db: Database, c: Chain, netbird: bool)
    requires Inv(c) && Shows(db, c) && Numbered(db) && AllFinished(c) && c.stages[STAGES - 1].row.failed
    ensures var d := WithNetbird(Replaced(db), netbird);
            Prepared(d) && Shows(Chained(d), Restarted(c, netbird)) && Numbered(Chained(d))
  {
    RestartPrepared(db, c, netbird);
    RestartRecreatesFailedSuffix(c);
    var d, kept := WithNetbird(Replaced(db), netbird), c.stages[..FirstRestarted(c)];
    forall i | 0 <= i < |kept| ensures Succeeded(kept[i]) && kept[i].row == d.rows[i] {
      assert c.stages[i] in c.stages && !c.stages[i].row.failed;
    }
    EnqueueRefines(d, kept, false, c.reports, c.late);
  }

  // ---------------------------------------------------------------- the handler

  class RequestHandler {
    var rows: seq<Row>
    var jobIds: seq<nat>
    var jobs: Jobs
    var nextJob: nat
    var first: nat
    var netbird: Option<nat>
    var finalJob: nat

    ghost function State(): Database
      reads this
    {
      Database(rows, jobIds, jobs, nextJob, first, netbird, finalJob)
    }

    /** `Queue.enqueue`. */
    method Enqueue(deps: set<nat>) returns (id: nat)
      modifies this`jobs, this`nextJob
      ensures id == old(nextJob) && State() == WithJob(old(State()), deps)
    {
      id := nextJob;
      jobs := jobs[id := Entry(deps, if Runnable(jobs, deps) then Queued else Deferred)];
      nextJob := nextJob + 1;
    }

    /** One turn of the loop in `_enqueue_request`. */
    method EnqueueStage(previous: Option<nat>) returns (id: nat)
      requires first < STAGES && first <= |jobIds| < STAGES
      requires previous == if |jobIds| == first then None else Some(jobIds[|jobIds| - 1])
      modifies this`jobs, this`nextJob, this`jobIds
      ensures State() == WithStageJob(old(State())) && jobIds == old(jobIds) + [id]
    {
      var deps := if previous.Some? then {previous.value} else {};
      if netbird.Some? && |jobIds| == STAGES - 1 {
        deps := deps + {netbird.value};
      }
      assert deps == DepsOf(State(), |jobIds|);
      id := Enqueue(deps);
      jobIds := jobIds + [id];
    }

    /** The loop of `_enqueue_request`. */
    method EnqueueStages() returns (last: nat)
      requires |jobIds| == first < STAGES
      modifies this`jobs, this`nextJob, this`jobIds
      ensures State() == old(WithStageJobs(State(), STAGES - first))
      ensures |jobIds| == STAGES && last == jobIds[STAGES - 1]
    {
      ghost var before := State();
      var previous: Option<nat> := None;
      var i := first;
      while i < STAGES
        invariant first <= i <= STAGES && |jobIds| == i
        invariant State() == WithStageJobs(before, i - first)
        invariant previous == if i == first then None else Some(jobIds[i - 1])
      {
        var id := EnqueueStage(previous);
        previous := Some(id);
        i := i + 1;
      }
      last := previous.value;
    }

    /** `_enqueue_request`, for the stages that have no job yet. */
    method EnqueueRequest()
      requires Prepared(State())
      modifies this
      ensures State() == old(Chained(State()))
    {
      var last := EnqueueStages();
      finalJob := Enqueue({last});
    }

    /** `_restart_stage_handlers`: replaces failed stage rows by new ones (deleting a row deletes its job
        record) and returns the stages to enqueue.  Given that the failed stages are a suffix, exactly they
        are replaced, although the second test re-reads the first stage after its replacement. */
    method RestartStageHandlers() returns (restarted: Option<seq<nat>>)
      requires |rows| == |jobIds| == STAGES
      requires AllRowsFinished(rows) ==> forall i, j :: 0 <= i < j < STAGES && rows[i].failed ==> rows[j].failed
      modifies this`rows, this`jobIds, this`first, this`netbird
      ensures restarted.Some? <==> old(AllRowsFinished(rows) && rows[STAGES - 1].failed)
      ensures State() == if restarted.Some? then old(Replaced(State())) else old(State())
      ensures restarted.Some? ==> first < STAGES && restarted.value == [0, 1, 2][first..]
    {
      if !AllRowsFinished(rows) || !rows[STAGES - 1].failed {
        return None;
      }
      FirstFailedIs(rows, if rows[0].failed then 0 else if rows[1].failed then 1 else 2);
      var handlers: seq<nat> := [];
      if rows[0].failed {
        rows := rows[0 := NEW_ROW];
        handlers := handlers + [0];
      }
      if rows[0].failed || rows[1].failed {
        rows := rows[1 := NEW_ROW];
        handlers := handlers + [1];
      }
      rows := rows[2 := NEW_ROW];
      handlers := handlers + [2];
      first, netbird := handlers[0], None;
      jobIds := jobIds[..first];
      restarted := Some(handlers);
    }

    /** `StageHandler.execute`, first half: the copy the worker will write back is the row as enqueued. */
    method BeginExecution(i: nat) returns (copy: Row)
      requires i < |rows| == |jobIds|
      modifies this`rows, this`jobs
      ensures State() == BeginRow(old(State()), i) && copy == RUNNING_ROW
    {
      copy := NEW_ROW.(started := true);
      rows := rows[i := copy];
      jobs := WithStatus(jobs, jobIds[i], Started);
    }

    /** Second half: the copy is written back over whatever the row holds by now. */
    method EndExecution(i: nat, copy: Row, o: Outcome)
      requires i < |rows| == |jobIds| && copy == RUNNING_ROW
      modifies this`rows, this`jobs
      ensures State() == EndRow(old(State()), i, o)
    {
      var stage := copy;
      if o != Success {
        stage := stage.(failed := true);
      }
      stage := stage.(ended := true, finished := true);
      rows := rows[i := stage];
      jobs := PromotedJobs(WithStatus(jobs, jobIds[i], if o == Success then Finished else Failed));
    }

    /** `StageHandler.cancel` up to the stopping of the external process or container. */
    method CancelStage(i: nat, deep: bool)
      requires Ordered(jobs) && i < |rows| == |jobIds|
      modifies this`rows, this`jobs
      ensures State() == CancelRow(old(State()), i, deep)
    {
      if !rows[i].finished {
        var id := jobIds[i];
        jobs := map j | j in jobs && !Goes(jobs, j, id, deep) :: jobs[j];
        rows := rows[i := Row(rows[i].started, true, true, true)];
      }
    }

    /** `cancel_request`.  `stubborn` are the stages whose process or container cannot be stopped: stopping
        a started one raises and abandons the loop.  The outcome is the same complete cancellation. */
    method CancelRequest(stubborn: set<nat>, deep: bool) returns (raised: bool)
      requires Ordered(jobs) && |rows| == |jobIds| == STAGES && StartedIsFront(rows)
      modifies this`rows, this`jobs
      ensures State() == old(CancelRows(State(), STAGES, deep))
      ensures raised ==> !AllRowsFinished(old(rows))
    {
      ghost var before := State();
      raised := false;
      if AllRowsFinished(rows) {
        FinishedRowsStay(before, STAGES, deep);
        return;
      }
      var i := STAGES;
      while i > 0
        invariant 0 <= i <= STAGES && Ordered(jobs) && |rows| == |jobIds| == STAGES
        invariant CancelRows(State(), i, deep) == CancelRows(before, STAGES, deep)
        invariant forall k :: 0 <= k < i ==> rows[k] == before.rows[k]
      {
        i := i - 1;
        var stopping := !rows[i].finished && rows[i].started;
        CancelStage(i, deep);
        if stopping && i in stubborn {
          FinishedRowsStay(State(), i, deep);
          return true;
        }
      }
    }
  }
}
