/** One chain of three dependent stage jobs with its finalizing job: the structure behind both an
    allocation request and a cleanup request.  A stage is a database row, an RQ job, and, while a
    worker executes it, the worker's in-memory copy of the row, which is written back at the end. */
module StageChain {

  import opened Wrappers

  const STAGES: nat := 3

  /** RQ job states; `Deleted` also stands for a job that was removed from Redis. */
  datatype Job = Deferred | Queued | Started | Finished | Failed | Deleted

  /** The columns of a stage row; the two timestamps are reduced to being set. */
  datatype Row = Row(started: bool, ended: bool, failed: bool, finished: bool)

  const NEW_ROW := Row(false, false, false, false)
  const RUNNING_ROW := Row(true, false, false, false)

  /** `worker` is the in-memory copy held by a running execution; `handling` says that the worker's
      exception handler has not run yet for a job of this stage that raised. */
  datatype Stage = Stage(row: Row, job: Job, worker: Option<Row>, handling: bool)

  /** How an execution ends.  `LateFailure`: the user playbook succeeded and was reported to the
      request group, and then deleting its container raised. */
  datatype Outcome = Success | Failure | LateFailure

  /** `first` is the index of the first stage this chain enqueued (earlier ones are kept by a restart);
      `extra` is the NetBird job the last stage additionally waits for; `fin` the finalizing job.
      `grouped`: the handlers carry a request group; `reports` counts the calls made on it. */
  datatype Chain = Chain(stages: seq<Stage>, first: nat, extra: Option<Job>, fin: Job,
                         grouped: bool, reports: nat, late: bool)

  // ---------------------------------------------------------------- the operations

  function NewStage(job: Job): Stage {
    Stage(NEW_ROW, job, None, false)
  }

  predicate DepsFinished(c: Chain, i: nat)
    requires i < |c.stages|
  {
    && (c.first < i ==> c.stages[i - 1].job == Finished)
    && (i == STAGES - 1 && c.extra.Some? ==> c.extra.value == Finished)
  }

  /** A fresh chain behind the kept stages: each job waits for the one before it. */
  function Enqueued(kept: seq<Stage>, netbird: bool, grouped: bool, reports: nat, late: bool): Chain
    requires |kept| < STAGES
  {
    var extra := if netbird then Some(Queued) else None;
    var bare := Chain(kept + seq(STAGES - |kept|, _ => NewStage(Deferred)), |kept|, extra, Deferred, grouped, reports,
        late);
    Promoted(bare)
  }

  function PromotedStage(c: Chain, i: nat): Stage
    requires i < |c.stages|
  {
    var s := c.stages[i];
    if s.job == Deferred && DepsFinished(c, i) then s.(job := Queued) else s
  }

  /** RQ moves every deferred job whose dependencies have all finished to its queue. */
  function Promoted(c: Chain): Chain
    requires |c.stages| == STAGES
  {
    c.(stages := [PromotedStage(c, 0), PromotedStage(c, 1), PromotedStage(c, 2)],
       fin := if c.fin == Deferred && c.stages[STAGES - 1].job == Finished then Queued else c.fin)
  }

  /** First half of `execute`: the worker's copy is the row as it was pickled at enqueue time. */
  function Start(c: Chain, i: nat): Chain
    requires i < |c.stages|
  {
    c.(stages := c.stages[i := Stage(RUNNING_ROW, Started, Some(RUNNING_ROW), c.stages[i].handling)])
  }

  function ReportsOf(c: Chain, i: nat, o: Outcome): nat {
    if !c.grouped then 0 else
    match o
    case Success => if i == STAGES - 1 then 1 else 0
    case Failure => 1
    case LateFailure => if i == STAGES - 1 then 2 else 1
  }

  /** Second half of `execute` on its stage: the worker's copy overwrites the row, whatever a cancel
      stored there; the job takes the outcome unless it was deleted meanwhile. */
  function FinishedStage(s: Stage, o: Outcome): Stage
    requires s.worker.Some?
  {
    Stage(s.worker.value.(failed := o != Success, ended := true, finished := true),
          if s.job == Deleted then Deleted else if o == Success then Finished else Failed, None, o != Success)
  }

  function Settled(c: Chain, i: nat, o: Outcome): Chain
    requires |c.stages| == STAGES && i < STAGES && c.stages[i].worker.Some?
  {
    c.(stages := c.stages[i := FinishedStage(c.stages[i], o)],
       reports := c.reports + ReportsOf(c, i, o),
       late := c.late || (c.grouped && o == LateFailure && i == STAGES - 1))
  }

  function Finish(c: Chain, i: nat, o: Outcome): Chain
    requires |c.stages| == STAGES && i < STAGES && c.stages[i].worker.Some?
  {
    Promoted(Settled(c, i, o))
  }

  function StartExtra(c: Chain): Chain {
    c.(extra := Some(Started))
  }

  /** The NetBird job catches every exception, so it only ever finishes. */
  function FinishExtra(c: Chain): Chain
    requires |c.stages| == STAGES
  {
    Promoted(c.(extra := Some(Finished)))
  }

  function RunFinalizer(c: Chain): Chain {
    c.(fin := Finished)
  }

  predicate AllFinished(c: Chain) {
    forall s :: s in c.stages ==> s.row.finished
  }

  /** `StageHandler.cancel`: an unfinished stage is marked failed and its job deleted together with
      everything that transitively depends on it. */
  function CancelStage(c: Chain, i: nat): Chain
    requires i < |c.stages|
  {
    if c.stages[i].row.finished then c else
    c.(stages := seq(|c.stages|, k requires 0 <= k < |c.stages| =>
                       var s := c.stages[k];
                       if k < i then s
                       else if k == i then s.(row := Row(s.row.started, true, true, true), job := Deleted)
                       else s.(job := Deleted)),
       fin := Deleted)
  }

  /** `cancel_request`: the stages are cancelled from the last to the first. */
  function CancelDown(c: Chain, n: nat): Chain
    requires n <= |c.stages|
    decreases n
  {
    if n == 0 then c else CancelDown(CancelStage(c, n - 1), n - 1)
  }

  function Cancel(c: Chain): Chain {
    CancelDown(c, |c.stages|)
  }

  function Handled(c: Chain, i: nat): Chain
    requires i < |c.stages|
  {
    c.(stages := c.stages[i := c.stages[i].(handling := false)])
  }

  /** The exception handler for stage `i`: cancels the request unless it is already finished. */
  function Handle(c: Chain, i: nat): Chain
    requires i < |c.stages|
  {
    if AllFinished(c) then Handled(c, i) else Cancel(Handled(c, i))
  }

  /** `_restart_stage_handlers`: which stages are recreated.  The second test reads the first stage
      again, which by then is the fresh row if it was recreated. */
  function RestartPlan(c: Chain): seq<bool>
    requires |c.stages| == STAGES
  {
    var stack := c.stages[0].row.failed;
    var reread := if stack then NEW_ROW else c.stages[0].row;
    [stack, reread.failed || c.stages[1].row.failed, true]
  }

  /** Index of the first recreated stage. */
  function FirstRestarted(c: Chain): nat
    requires |c.stages| == STAGES
    ensures FirstRestarted(c) < STAGES
  {
    var plan := RestartPlan(c);
    if plan[0] then 0 else if plan[1] then 1 else 2
  }

  function Restarted(c: Chain, netbird: bool): Chain
    requires |c.stages| == STAGES
  {
    Enqueued(c.stages[..FirstRestarted(c)], netbird, false, c.reports, c.late)
  }

  /** The stage, if any, whose worker still executes it and reports to the request group. */
  function Reporter(c: Chain): Option<nat>
    requires |c.stages| == STAGES
  {
    if !c.grouped then None
    else if c.stages[0].worker.Some? then Some(0)
    else if c.stages[1].worker.Some? then Some(1)
    else if c.stages[2].worker.Some? then Some(2) else None
  }

  /** A worker whose row a restart deleted ends: it still reports to the group, but saving its copy of the row is
      refused because the request has another row for the stage. */
  function ReportedLate(c: Chain, i: nat, o: Outcome): Chain {
    var grouped := c.(grouped := true);
    c.(reports := c.reports + ReportsOf(grouped, i, o), late := c.late || (o == LateFailure && i == STAGES - 1))
  }

  // ---------------------------------------------------------------- the invariant

  ghost predicate Waiting(s: Stage) { s == Stage(NEW_ROW, Deferred, None, false) }

  ghost predicate Ready(s: Stage) { s == Stage(NEW_ROW, Queued, None, false) }

  ghost predicate Running(s: Stage) { s == Stage(RUNNING_ROW, Started, Some(RUNNING_ROW), false) }

  ghost predicate Succeeded(s: Stage) {
    s.row.finished && !s.row.failed && s.worker.None? && !s.handling && (s.job == Finished || s.job == Deleted)
  }

  /** The execution raised. */
  ghost predicate Broken(s: Stage) {
    s.row.finished && s.row.failed && s.worker.None? && s.job == Failed
  }

  /** Cancelled, and no worker holds it any more. */
  ghost predicate Cancelled(s: Stage) {
    s.row.finished && s.row.failed && s.worker.None? && s.job == Deleted
  }

  /** Cancelled while a worker was executing it. */
  ghost predicate Orphaned(s: Stage) {
    s.row.finished && s.row.failed && s.worker == Some(RUNNING_ROW) && s.job == Deleted && !s.handling
  }

  ghost predicate WellFormed(s: Stage) {
    Waiting(s) || Ready(s) || Running(s) || Succeeded(s) || Broken(s) || Cancelled(s) || Orphaned(s)
  }

  /** What a stage implies about every later one. */
  ghost predicate Precedes(s: Stage, later: Stage, enqueued: bool) {
    && (!Succeeded(s) ==> (Waiting(later) || Cancelled(later)) && !later.handling)
    && (Waiting(s) || Ready(s) || Running(s) ==> Waiting(later))
    && (enqueued && s.job == Deleted ==> Cancelled(later))
    && (Broken(s) && Waiting(later) ==> s.handling)
  }

  ghost function FinalizerOf(last: Stage): set<Job> {
    if last.job == Finished then {Queued, Finished} else if last.job == Deleted then {Deleted} else {Deferred}
  }

  ghost predicate Locals(c: Chain) {
    && |c.stages| == STAGES && c.first < STAGES
    && (forall i :: 0 <= i < STAGES ==> WellFormed(c.stages[i]))
    && (forall i :: 0 <= i < c.first ==> Succeeded(c.stages[i]))
    && (c.extra.Some? ==> c.extra.value in {Queued, Started, Finished})
  }

  ghost predicate Pairs(c: Chain)
    requires |c.stages| == STAGES
  {
    forall i, j :: 0 <= i < j < STAGES ==> Precedes(c.stages[i], c.stages[j], c.first <= i)
  }

  ghost predicate ReadyDeps(c: Chain)
    requires |c.stages| == STAGES
  {
    forall i :: 0 <= i < STAGES ==> (Ready(c.stages[i]) || Running(c.stages[i]) ==> DepsFinished(c, i))
  }

  ghost predicate WaitingDeps(c: Chain)
    requires |c.stages| == STAGES
  {
    forall i :: 0 <= i < STAGES ==> (Waiting(c.stages[i]) ==> !DepsFinished(c, i))
  }

  /** Everything except what RQ's promotion of runnable jobs establishes. */
  ghost predicate Shape(c: Chain) {
    && Locals(c) && Pairs(c) && ReadyDeps(c)
    && (c.fin in FinalizerOf(c.stages[STAGES - 1]) || (c.fin == Deferred && c.stages[STAGES - 1].job == Finished))
  }

  ghost predicate Inv(c: Chain) {
    Locals(c) && Pairs(c) && ReadyDeps(c) && WaitingDeps(c) && c.fin in FinalizerOf(c.stages[STAGES - 1])
  }

  /** Stage `i` may still execute to an end, and so report to the request group. */
  ghost predicate MayReport(c: Chain, i: nat)
    requires |c.stages| == STAGES && i < STAGES
  {
    var s := c.stages[i];
    Ready(s) || Running(s) || Orphaned(s) || (Waiting(s) && forall k :: 0 <= k < i ==> !Broken(c.stages[k]))
  }

  /** A chain whose handlers carry a request group has reported nothing while a stage may still report. */
  ghost predicate ReportInv(c: Chain)
    requires |c.stages| == STAGES
  {
    && c.reports <= 2 && (c.late <==> c.reports == 2)
    && (c.grouped ==> forall i :: 0 <= i < STAGES ==> (MayReport(c, i) ==> c.reports == 0))
  }

  // ---------------------------------------------------------------- preservation

  lemma RunnableIsFront(c: Chain, j: nat)
    requires Locals(c) && Pairs(c)
    requires j < STAGES && DepsFinished(c, j) && (Waiting(c.stages[j]) || Ready(c.stages[j]))
    ensures forall i :: 0 <= i < j ==> Succeeded(c.stages[i])
  {
    forall i | 0 <= i < j ensures Succeeded(c.stages[i]) {
      if c.first <= i {
        assert Precedes(c.stages[i], c.stages[j], true);
        if i < j - 1 { assert Precedes(c.stages[i], c.stages[j - 1], true); }
      }
    }
  }

  lemma PromotedPair(c: Chain, i: nat, j: nat)
    requires Locals(c) && Pairs(c) && i < j < STAGES
    ensures Precedes(PromotedStage(c, i), PromotedStage(c, j), c.first <= i)
  {
    assert Precedes(c.stages[i], c.stages[j], c.first <= i);
    if PromotedStage(c, j) != c.stages[j] { RunnableIsFront(c, j); }
  }

  lemma PromotedOne(c: Chain, i: nat)
    requires Locals(c) && i < STAGES
    ensures var s := PromotedStage(c, i);
            && WellFormed(s)
            && (Succeeded(c.stages[i]) ==> s == c.stages[i])
            && (Ready(s) || Running(s) ==> Ready(c.stages[i]) || Running(c.stages[i]) || DepsFinished(c, i))
            && (Waiting(s) ==> !DepsFinished(c, i))
            && (s.job == Finished <==> c.stages[i].job == Finished)
            && FinalizerOf(s) == FinalizerOf(c.stages[i])
  {
  }

  lemma PromotedInv(c: Chain)
    requires Shape(c)
    ensures Inv(Promoted(c))
  {
    var c' := Promoted(c);
    forall i | 0 <= i < STAGES
      ensures c'.stages[i] == PromotedStage(c, i) && WellFormed(c'.stages[i])
      ensures DepsFinished(c', i) <==> DepsFinished(c, i)
    {
      PromotedOne(c, i);
      if i > 0 { PromotedOne(c, i - 1); }
    }
    assert Locals(c') by {
      forall i | 0 <= i < c.first ensures Succeeded(c'.stages[i]) { PromotedOne(c, i); }
    }
    assert Pairs(c') by {
      forall i, j | 0 <= i < j < STAGES ensures Precedes(c'.stages[i], c'.stages[j], c.first <= i) {
        PromotedPair(c, i, j);
      }
    }
    assert ReadyDeps(c') && WaitingDeps(c') by {
      forall i | 0 <= i < STAGES
        ensures Ready(c'.stages[i]) || Running(c'.stages[i]) ==> DepsFinished(c, i)
        ensures Waiting(c'.stages[i]) ==> !DepsFinished(c, i)
      { PromotedOne(c, i); }
    }
    PromotedOne(c, STAGES - 1);
  }

  /** A stage that is queued or executing has only succeeded stages before it. */
  lemma ActiveIsFront(c: Chain, i: nat)
    requires Locals(c) && Pairs(c) && i < STAGES
    requires Ready(c.stages[i]) || Running(c.stages[i]) || Orphaned(c.stages[i])
    ensures forall k :: 0 <= k < i ==> Succeeded(c.stages[k])
  {
    forall k | 0 <= k < i ensures Succeeded(c.stages[k]) {
      assert Precedes(c.stages[k], c.stages[i], c.first <= k);
    }
  }

  /** Replacing one active stage keeps the pairwise relation when the new stage relates to the later ones. */
  lemma ReplacedPairs(c: Chain, i: nat, s: Stage)
    requires Locals(c) && Pairs(c) && i < STAGES
    requires Ready(c.stages[i]) || Running(c.stages[i]) || Orphaned(c.stages[i])
    requires Running(s) || Succeeded(s) || Broken(s) || Cancelled(s)
    requires forall k :: i < k < STAGES ==> Precedes(s, c.stages[k], c.first <= i)
    requires Orphaned(c.stages[i]) ==> s.job == Deleted
    ensures Pairs(c.(stages := c.stages[i := s]))
  {
    ActiveIsFront(c, i);
    var ss := c.stages[i := s];
    forall a, b | 0 <= a < b < STAGES ensures Precedes(ss[a], ss[b], c.first <= a) {
      assert Precedes(c.stages[a], c.stages[b], c.first <= a);
    }
  }

  lemma StartInv(c: Chain, i: nat)
    requires Inv(c) && i < STAGES && c.stages[i].job == Queued
    ensures Inv(Start(c, i))
  {
    var c' := Start(c, i);
    forall k | i < k < STAGES ensures Precedes(c'.stages[i], c.stages[k], c.first <= i) {
      assert Precedes(c.stages[i], c.stages[k], c.first <= i);
    }
    ReplacedPairs(c, i, c'.stages[i]);
    assert forall k :: 0 <= k < STAGES ==> (DepsFinished(c', k) <==> DepsFinished(c, k));
  }

  lemma FinishedPairs(c: Chain, i: nat, o: Outcome)
    requires Locals(c) && Pairs(c) && i < STAGES && c.stages[i].worker.Some?
    ensures Pairs(Settled(c, i, o))
  {
    var s := FinishedStage(c.stages[i], o);
    forall k | i < k < STAGES ensures Precedes(s, c.stages[k], c.first <= i) {
      assert Precedes(c.stages[i], c.stages[k], c.first <= i);
    }
    ReplacedPairs(c, i, s);
  }

  lemma FinishShape(c: Chain, i: nat, o: Outcome)
    requires Inv(c) && i < STAGES && c.stages[i].worker.Some?
    ensures Shape(Settled(c, i, o))
  {
    var c' := Settled(c, i, o);
    FinishedPairs(c, i, o);
    assert ReadyDeps(c') by {
      forall k | 0 <= k < STAGES && DepsFinished(c, k) ensures DepsFinished(c', k) {}
    }
    assert Locals(c');
    assert c'.fin in FinalizerOf(c'.stages[STAGES - 1])
             || (c'.fin == Deferred && c'.stages[STAGES - 1].job == Finished);
  }

  lemma FinishInv(c: Chain, i: nat, o: Outcome)
    requires Inv(c) && i < STAGES && c.stages[i].worker.Some?
    ensures Inv(Finish(c, i, o))
  {
    FinishShape(c, i, o);
    PromotedInv(Settled(c, i, o));
  }

  lemma ExtraShape(c: Chain)
    requires Inv(c) && c.extra.Some?
    ensures Shape(c.(extra := Some(Finished)))
  {
    var c' := c.(extra := Some(Finished));
    forall k | 0 <= k < STAGES ensures DepsFinished(c, k) ==> DepsFinished(c', k) {}
  }

  lemma ExtraInv(c: Chain)
    requires Inv(c) && c.extra.Some?
    ensures Inv(FinishExtra(c))
    ensures c.extra.value == Queued ==> Inv(StartExtra(c))
  {
    ExtraShape(c);
    PromotedInv(c.(extra := Some(Finished)));
    if c.extra.value == Queued {
      assert forall k :: 0 <= k < STAGES ==> (DepsFinished(StartExtra(c), k) <==> DepsFinished(c, k));
    }
  }

  // ---------------------------------------------------------------- cancelling

  /** What one cancelled stage row and job look like. */
  function Abandoned(s: Stage): Stage {
    if s.row.finished then s else s.(row := Row(s.row.started, true, true, true), job := Deleted)
  }

  /** Every unfinished stage abandoned, every finished one untouched. */
  function AllAbandoned(c: Chain): Chain
    requires |c.stages| == STAGES
  {
    c.(stages := [Abandoned(c.stages[0]), Abandoned(c.stages[1]), Abandoned(c.stages[2])],
       fin := if AllFinished(c) then c.fin else Deleted)
  }

  lemma UnfinishedTail(c: Chain, i: nat, j: nat)
    requires Locals(c) && Pairs(c) && i < j < STAGES && !c.stages[i].row.finished
    ensures Waiting(c.stages[j])
  {
    assert Precedes(c.stages[i], c.stages[j], c.first <= i);
  }

  /** Cancelling from the last stage to the first reaches every unfinished stage and nothing else. */
  lemma CancelForm(c: Chain)
    requires Inv(c)
    ensures Cancel(c) == AllAbandoned(c)
  {
    var c2 := CancelStage(c, 2);
    var c1 := CancelStage(c2, 1);
    var c0 := CancelStage(c1, 0);
    assert Cancel(c) == CancelDown(c2, 2) == CancelDown(c1, 1) == CancelDown(c0, 0) == c0;
    if !c.stages[0].row.finished { UnfinishedTail(c, 0, 1); UnfinishedTail(c, 0, 2); }
    if !c.stages[1].row.finished { UnfinishedTail(c, 1, 2); }
    assert c0.stages == AllAbandoned(c).stages;
  }

  /** What a cancellation leaves, column by column: an unfinished row keeps its start and gets an end, failed and
      finished; its job and the finalizing job are deleted; workers, exception handlers and the NetBird job go on. */
  ghost predicate CancelledFrom(c: Chain, d: Chain) {
    && |c.stages| == |d.stages| == STAGES && d.fin == Deleted
    && (forall i :: 0 <= i < STAGES ==>
          d.stages[i].row == if c.stages[i].row.finished then c.stages[i].row
                             else Row(c.stages[i].row.started, true, true, true))
    && (forall i :: 0 <= i < STAGES ==>
          d.stages[i].job == if c.stages[i].row.finished then c.stages[i].job else Deleted)
    && (forall i :: 0 <= i < STAGES ==>
          d.stages[i].worker == c.stages[i].worker && d.stages[i].handling == c.stages[i].handling)
    && d.extra == c.extra && d.first == c.first && d.grouped == c.grouped && d.reports == c.reports
  }

  lemma AbandonedRecords(c: Chain)
    requires |c.stages| == STAGES && !AllFinished(c)
    ensures CancelledFrom(c, AllAbandoned(c))
  {
  }

  lemma CancelRecords(c: Chain)
    requires Inv(c) && !AllFinished(c)
    ensures CancelledFrom(c, Cancel(c))
  {
    CancelForm(c);
    AbandonedRecords(c);
  }

  lemma AbandonedPair(c: Chain, i: nat, j: nat)
    requires Locals(c) && Pairs(c) && i < j < STAGES
    ensures Precedes(Abandoned(c.stages[i]), Abandoned(c.stages[j]), c.first <= i)
  {
    assert Precedes(c.stages[i], c.stages[j], c.first <= i);
  }

  lemma AbandonedOne(s: Stage)
    requires WellFormed(s)
    ensures var a := Abandoned(s);
            WellFormed(a) && a.row.finished && (Succeeded(s) <==> Succeeded(a)) && !Waiting(a) && !Ready(a)
                && !Running(a)
  {
  }

  lemma CancelInv(c: Chain)
    requires Inv(c)
    ensures Inv(Cancel(c)) && AllFinished(Cancel(c))
  {
    CancelForm(c);
    var c' := AllAbandoned(c);
    forall i | 0 <= i < STAGES ensures c'.stages[i] == Abandoned(c.stages[i]) && WellFormed(c'.stages[i]) {
      AbandonedOne(c.stages[i]);
    }
    assert Pairs(c') by {
      forall i, j | 0 <= i < j < STAGES ensures Precedes(c'.stages[i], c'.stages[j], c.first <= i) {
        AbandonedPair(c, i, j);
      }
    }
    AbandonedOne(c.stages[0]); AbandonedOne(c.stages[1]); AbandonedOne(c.stages[2]);
    assert !c.stages[2].row.finished || AllFinished(c) by {
      forall i | 0 <= i < 2 && !c.stages[i].row.finished ensures !c.stages[2].row.finished { UnfinishedTail(c, i, 2); }
    }
  }

  lemma HandledInv(c: Chain, i: nat)
    requires Inv(c) && AllFinished(c) && i < STAGES && c.stages[i].handling
    ensures Inv(Handled(c, i)) && AllFinished(Handled(c, i))
  {
    var c' := Handled(c, i);
    assert Pairs(c') by {
      forall a, b | 0 <= a < b < STAGES ensures Precedes(c'.stages[a], c'.stages[b], c.first <= a) {
        assert Precedes(c.stages[a], c.stages[b], c.first <= a);
      }
    }
    assert forall k :: 0 <= k < STAGES ==> (DepsFinished(c', k) <==> DepsFinished(c, k));
  }

  /** Cancelling does not look at the handler bit. */
  lemma {:induction false} HandledCancel(c: Chain, i: nat, n: nat)
    requires i < |c.stages| && n <= |c.stages|
    ensures |CancelDown(c, n).stages| == |c.stages| && CancelDown(Handled(c, i), n) == Handled(CancelDown(c, n), i)
    decreases n
  {
    if n > 0 {
      assert CancelStage(Handled(c, i), n - 1).stages == Handled(CancelStage(c, n - 1), i).stages;
      HandledCancel(CancelStage(c, n - 1), i, n - 1);
    }
  }

  /** What the exception handler leaves. */
  lemma HandleForm(c: Chain, i: nat)
    requires Inv(c) && i < STAGES
    ensures Handle(c, i) == if AllFinished(c) then Handled(c, i) else Handled(AllAbandoned(c), i)
  {
    HandledCancel(c, i, STAGES);
    CancelForm(c);
  }

  lemma HandleInv(c: Chain, i: nat)
    requires Inv(c) && i < STAGES && c.stages[i].handling
    ensures Inv(Handle(c, i)) && AllFinished(Handle(c, i))
  {
    if AllFinished(c) {
      HandledInv(c, i);
    } else {
      CancelInv(c);
      CancelForm(c);
      HandledCancel(c, i, STAGES);
      HandledInv(Cancel(c), i);
    }
  }

  lemma EnqueuedInv(kept: seq<Stage>, netbird: bool, grouped: bool, reports: nat, late: bool)
    requires |kept| < STAGES
    requires forall i :: 0 <= i < |kept| ==> Succeeded(kept[i])
    ensures var c := Enqueued(kept, netbird, grouped, reports, late);
            Inv(c) && !AllFinished(c)
  {
    var extra := if netbird then Some(Queued) else None;
    var bare := Chain(kept + seq(STAGES - |kept|, _ => NewStage(Deferred)), |kept|, extra, Deferred, grouped, reports,
        late);
    assert forall i :: 0 <= i < STAGES ==>
      (if i < |kept| then bare.stages[i] == kept[i] else Waiting(bare.stages[i]));
    PromotedInv(bare);
    var c := Promoted(bare);
    assert !c.stages[STAGES - 1].row.finished;
  }

  // ---------------------------------------------------------------- reports to the request group

  lemma PromotedReports(c: Chain)
    requires Shape(c) && ReportInv(c)
    ensures ReportInv(Promoted(c))
  {
    var c' := Promoted(c);
    forall i | 0 <= i < STAGES && MayReport(c', i) ensures MayReport(c, i) {
      if c'.stages[i] != c.stages[i] { RunnableIsFront(c, i); }
      assert forall k :: 0 <= k < i ==> (Broken(c.stages[k]) ==> c'.stages[k] == c.stages[k]);
    }
  }

  lemma FinishReports(c: Chain, i: nat, o: Outcome)
    requires Inv(c) && ReportInv(c) && i < STAGES && c.stages[i].worker.Some?
    ensures ReportInv(Finish(c, i, o))
  {
    var c' := Settled(c, i, o);
    assert MayReport(c, i);
    forall k | 0 <= k < STAGES && MayReport(c', k) ensures c.grouped ==> c'.reports == 0 {
      if k < i { ActiveIsFront(c, i); }
      assert i < k;
      assert Precedes(c.stages[i], c.stages[k], c.first <= i);
      assert o != Success ==> Broken(c'.stages[i]) || Cancelled(c.stages[k]);
    }
    FinishShape(c, i, o);
    PromotedReports(c');
  }

  lemma StartReports(c: Chain, i: nat)
    requires Inv(c) && ReportInv(c) && i < STAGES && c.stages[i].job == Queued
    ensures ReportInv(Start(c, i))
  {
    var c' := Start(c, i);
    forall k | 0 <= k < STAGES && MayReport(c', k) ensures MayReport(c, k) {
      assert forall m :: 0 <= m < k ==> (Broken(c.stages[m]) ==> c'.stages[m] == c.stages[m]);
    }
  }

  lemma CancelReports(c: Chain)
    requires Inv(c) && ReportInv(c)
    ensures ReportInv(Cancel(c))
  {
    CancelForm(c);
    var c' := AllAbandoned(c);
    forall k | 0 <= k < STAGES && MayReport(c', k) ensures MayReport(c, k) {
      assert c'.stages[k] == Abandoned(c.stages[k]);
    }
  }

  // ---------------------------------------------------------------- what the invariant gives

  /** The failed stages of a finished request form a suffix of the chain. */
  lemma FailedSuffix(c: Chain, i: nat, j: nat)
    requires Inv(c) && i < j < STAGES && c.stages[j].row.finished && c.stages[i].row.failed
    ensures c.stages[j].row.failed
  {
    assert Precedes(c.stages[i], c.stages[j], c.first <= i);
  }

  /** An accepted restart recreates exactly the failed stages, and they are a suffix, although the code
      tests a row it has already replaced. */
  lemma RestartRecreatesFailedSuffix(c: Chain)
    requires Inv(c) && AllFinished(c) && c.stages[STAGES - 1].row.failed
    ensures forall i :: 0 <= i < STAGES ==> RestartPlan(c)[i] == c.stages[i].row.failed
    ensures forall i :: 0 <= i < STAGES ==> (c.stages[i].row.failed <==> FirstRestarted(c) <= i)
  {
    if c.stages[0].row.failed { FailedSuffix(c, 0, 1); FailedSuffix(c, 0, 2); }
    if c.stages[1].row.failed { FailedSuffix(c, 1, 2); }
  }

  /** The failed stages are the recreated ones; the others stay as they are. */
  lemma RestartedStages(c: Chain, netbird: bool)
    requires Inv(c) && AllFinished(c) && c.stages[STAGES - 1].row.failed
    ensures var r := Restarted(c, netbird);
            && |r.stages| == STAGES
            && (forall i :: 0 <= i < STAGES ==> (c.stages[i].row.failed <==> r.first <= i))
            && (forall i :: 0 <= i < r.first ==> r.stages[i] == c.stages[i])
            && (forall i :: r.first <= i < STAGES ==> r.stages[i].row == NEW_ROW)
  {
    RestartRecreatesFailedSuffix(c);
    forall i | 0 <= i < FirstRestarted(c) ensures c.stages[i].job != Deferred {
      assert WellFormed(c.stages[i]) && c.stages[i] in c.stages;
    }
  }

  /** The jobs of the recreated stages: only the first is queued, and not even that one if it is the user stage and
      waits for the NetBird job, which a restart enqueues again whichever stage failed first. */
  lemma RestartedJobs(c: Chain, netbird: bool)
    requires Inv(c) && AllFinished(c) && c.stages[STAGES - 1].row.failed
    ensures var r := Restarted(c, netbird);
            && |r.stages| == STAGES && r.extra == (if netbird then Some(Queued) else None) && r.fin == Deferred
            && !r.grouped && r.reports == c.reports
            && (forall i :: r.first <= i < STAGES ==>
                  r.stages[i].worker.None? && !r.stages[i].handling
                  && r.stages[i].job == if i == r.first && !(i == 2 && netbird) then Queued else Deferred)
  {
    RestartRecreatesFailedSuffix(c);
  }

  lemma RestartInv(c: Chain, netbird: bool)
    requires Inv(c) && AllFinished(c) && c.stages[STAGES - 1].row.failed
    ensures Inv(Restarted(c, netbird)) && !AllFinished(Restarted(c, netbird))
  {
    RestartRecreatesFailedSuffix(c);
    var k := FirstRestarted(c);
    forall i | 0 <= i < k ensures Succeeded(c.stages[..k][i]) {
      assert c.stages[i] in c.stages && !c.stages[i].row.failed;
    }
    EnqueuedInv(c.stages[..k], netbird, false, c.reports, c.late);
  }

  /** A stage can start only when every stage before it has succeeded and, for the last one, the NetBird
      job of its chain, if there is one, has finished. */
  lemma StartOrder(c: Chain, i: nat)
    requires Inv(c) && i < STAGES && c.stages[i].job == Queued
    ensures forall k :: 0 <= k < i ==> c.stages[k].row.finished && !c.stages[k].row.failed
    ensures i == STAGES - 1 && c.extra.Some? ==> c.extra.value == Finished
  {
    ActiveIsFront(c, i);
  }

  /** When the exception handler finds an unfinished request, none of the stages it cancels ever started;
      stopping them therefore touches no process and no container and cannot raise. */
  lemma HandlerCancelsOnlyUnstarted(c: Chain, i: nat, k: nat)
    requires Inv(c) && i < STAGES && c.stages[i].handling && k < STAGES && !c.stages[k].row.finished
    ensures i < k && !c.stages[k].row.started
  {
    if i < k { assert Precedes(c.stages[i], c.stages[k], c.first <= i); }
  }

  // ---------------------------------------------------------------- progress

  function JobWeight(j: Job): nat {
    match j case Deferred => 2 case Queued => 1 case _ => 0
  }

  function StageWeight(s: Stage): nat {
    (match s.job case Deferred => 5 case Queued => 4 case Started => 3 case _ => if s.worker.Some? then 2 else 0)
    + (if s.handling then 1 else 0)
  }

  /** Bounds the number of worker steps and effective cancellations left in the chain. */
  function Rank(c: Chain): nat
    requires |c.stages| == STAGES
  {
    StageWeight(c.stages[0]) + StageWeight(c.stages[1]) + StageWeight(c.stages[2])
    + JobWeight(c.fin) + (match c.extra case Some(Queued) => 2 case Some(Started) => 1 case _ => 0)
  }

  lemma PromotedRank(c: Chain)
    requires |c.stages| == STAGES
    ensures Rank(Promoted(c)) <= Rank(c)
  {
  }

  lemma CancelRank(c: Chain)
    requires Inv(c)
    ensures Rank(Cancel(c)) <= Rank(c)
    ensures !AllFinished(c) ==> Rank(Cancel(c)) < Rank(c)
  {
    CancelForm(c);
    AbandonedWeight(c.stages[0]);
    AbandonedWeight(c.stages[1]);
    AbandonedWeight(c.stages[2]);
  }

  lemma AbandonedWeight(s: Stage)
    requires WellFormed(s)
    ensures StageWeight(Abandoned(s)) <= StageWeight(s)
    ensures !s.row.finished ==> StageWeight(Abandoned(s)) < StageWeight(s)
  {
  }

  lemma StartRank(c: Chain, i: nat)
    requires Inv(c) && i < STAGES && c.stages[i].job == Queued
    ensures Rank(Start(c, i)) < Rank(c)
  {
  }

  lemma FinishRank(c: Chain, i: nat, o: Outcome)
    requires Inv(c) && i < STAGES && c.stages[i].worker.Some?
    ensures Rank(Finish(c, i, o)) < Rank(c)
  {
    PromotedRank(Settled(c, i, o));
    assert StageWeight(FinishedStage(c.stages[i], o)) < StageWeight(c.stages[i]);
  }

  lemma HandleRank(c: Chain, i: nat)
    requires Inv(c) && i < STAGES && c.stages[i].handling
    ensures Rank(Handle(c, i)) < Rank(c)
  {
    HandledRank(c, i);
    if !AllFinished(c) {
      HandledCancel(c, i, STAGES);
      CancelRank(c);
      CancelForm(c);
      HandledRank(Cancel(c), i);
    }
  }

  lemma HandledRank(c: Chain, i: nat)
    requires |c.stages| == STAGES && i < STAGES && c.stages[i].handling
    ensures Rank(Handled(c, i)) < Rank(c)
  {
  }

  lemma ExtraRankDecreases(c: Chain)
    requires Inv(c) && c.extra.Some?
    ensures c.extra.value == Queued ==> Rank(StartExtra(c)) < Rank(c)
    ensures c.extra.value == Started ==> Rank(FinishExtra(c)) < Rank(c)
    ensures c.fin == Queued ==> Rank(RunFinalizer(c)) < Rank(c)
  {
    PromotedRank(c.(extra := Some(Finished)));
  }

  /** A worker can take a step. */
  ghost predicate WorkerEnabled(c: Chain)
    requires |c.stages| == STAGES
  {
    || (exists i :: 0 <= i < STAGES && (c.stages[i].job == Queued || c.stages[i].worker.Some? || c.stages[i].handling))
    || (c.extra.Some? && c.extra.value != Finished)
    || c.fin == Queued
  }

  /** No wedge: while a stage is unfinished, some worker can take a step. */
  lemma {:induction false} NoWedge(c: Chain, i: nat)
    requires Inv(c) && i < STAGES && !c.stages[i].row.finished
    ensures WorkerEnabled(c)
  {
    if i > 0 && !c.stages[i - 1].row.finished {
      NoWedge(c, i - 1);
    } else if Waiting(c.stages[i]) && c.first < i && c.stages[i - 1].job != Finished {
      assert Precedes(c.stages[i - 1], c.stages[i], true);
      assert c.stages[i - 1].handling;
    }
  }

  // ---------------------------------------------------------------- worker steps as one transition

  datatype Step = StartStage(i: nat) | FinishStage(i: nat, o: Outcome) | HandleFailure(i: nat) | StartNetbird
        | FinishNetbird

  predicate Enabled(c: Chain, s: Step)
    requires |c.stages| == STAGES
  {
    match s
    case StartStage(i) => i < STAGES && c.stages[i].job == Queued
    case FinishStage(i, _) => i < STAGES && c.stages[i].worker.Some?
    case HandleFailure(i) => i < STAGES && c.stages[i].handling
    case StartNetbird => c.extra == Some(Queued)
    case FinishNetbird => c.extra == Some(Started)
  }

  function After(c: Chain, s: Step): Chain
    requires |c.stages| == STAGES && Enabled(c, s)
  {
    match s
    case StartStage(i) => Start(c, i)
    case FinishStage(i, o) => Finish(c, i, o)
    case HandleFailure(i) => Handle(c, i)
    case StartNetbird => StartExtra(c)
    case FinishNetbird => FinishExtra(c)
  }

  lemma StepInv(c: Chain, s: Step)
    requires Inv(c) && Enabled(c, s)
    ensures Inv(After(c, s)) && Rank(After(c, s)) < Rank(c)
  {
    match s
    case StartStage(i) => StartInv(c, i); StartRank(c, i);
    case FinishStage(i, o) => FinishInv(c, i, o); FinishRank(c, i, o);
    case HandleFailure(i) => HandleInv(c, i); HandleRank(c, i);
    case _ => ExtraInv(c); ExtraRankDecreases(c);
  }

  lemma StepReports(c: Chain, s: Step)
    requires Inv(c) && ReportInv(c) && Enabled(c, s)
    ensures Inv(After(c, s)) && ReportInv(After(c, s))
  {
    StepInv(c, s);
    match s
    case StartStage(i) => StartReports(c, i);
    case FinishStage(i, o) => FinishReports(c, i, o);
    case HandleFailure(i) => HandleReports(c, i);
    case StartNetbird => assert forall k :: 0 <= k < STAGES && MayReport(StartExtra(c), k) ==> MayReport(c, k);
    case FinishNetbird =>
      var c' := c.(extra := Some(Finished));
      assert forall k :: 0 <= k < STAGES && MayReport(c', k) ==> MayReport(c, k);
      ExtraShape(c);
      PromotedReports(c');
  }

  lemma HandleReports(c: Chain, i: nat)
    requires Inv(c) && ReportInv(c) && i < STAGES && c.stages[i].handling
    ensures ReportInv(Handle(c, i))
  {
    if AllFinished(c) {
      HandledReports(c, i);
    } else {
      HandledCancel(c, i, STAGES);
      CancelReports(c);
      CancelInv(c);
      CancelForm(c);
      HandledReports(Cancel(c), i);
    }
  }

  lemma HandledReports(c: Chain, i: nat)
    requires Inv(c) && AllFinished(c) && ReportInv(c) && i < STAGES
    ensures ReportInv(Handled(c, i))
  {
    forall k | 0 <= k < STAGES && MayReport(Handled(c, i), k) ensures MayReport(c, k) {
      assert c.stages[k] in c.stages;
    }
  }

  lemma EnqueuedReports(kept: seq<Stage>, netbird: bool, grouped: bool, reports: nat, late: bool)
    requires |kept| < STAGES
    requires reports <= 2 && (late <==> reports == 2) && (grouped ==> reports == 0)
    ensures ReportInv(Enqueued(kept, netbird, grouped, reports, late))
  {
  }

  /** Every stage ended well. */
  ghost predicate AllDone(c: Chain)
    requires |c.stages| == STAGES
  {
    forall k :: 0 <= k < STAGES ==> Succeeded(c.stages[k])
  }

  /** With all stages finished only a worker that outlives a cancel, the exception handler and the NetBird
      job can still take a step, and promotion changes no stage. */
  lemma OnlyOrphansWork(c: Chain, i: nat)
    requires Inv(c) && AllFinished(c) && i < STAGES
    ensures c.stages[i].row.finished && c.stages[i].job != Queued && c.stages[i].job != Deferred
    ensures c.stages[i].worker.Some? ==> Orphaned(c.stages[i])
  {
    assert c.stages[i] in c.stages;
    assert WellFormed(c.stages[i]);
  }

  lemma NothingPromoted(c: Chain)
    requires |c.stages| == STAGES && forall k :: 0 <= k < STAGES ==> c.stages[k].job != Deferred
    ensures Promoted(c).stages == c.stages
  {
  }

  lemma FinishKeepsFinished(c: Chain, i: nat, o: Outcome)
    requires Inv(c) && AllFinished(c) && i < STAGES && c.stages[i].worker.Some?
    ensures AllFinished(Finish(c, i, o)) && !AllDone(c)
  {
    forall k | 0 <= k < STAGES ensures c.stages[k].row.finished && c.stages[k].job != Deferred {
      OnlyOrphansWork(c, k);
    }
    OnlyOrphansWork(c, i);
    NothingPromoted(Settled(c, i, o));
  }

  lemma HandleKeepsFinished(c: Chain, i: nat)
    requires Inv(c) && AllFinished(c) && i < STAGES && c.stages[i].handling
    ensures AllFinished(Handle(c, i)) && !AllDone(c)
  {
    forall k | 0 <= k < STAGES ensures c.stages[k].row.finished { OnlyOrphansWork(c, k); }
  }

  lemma NetbirdKeepsFinished(c: Chain)
    requires Inv(c) && AllFinished(c)
    ensures AllFinished(FinishExtra(c)) && FinishExtra(c).stages == c.stages && FinishExtra(c).fin == c.fin
  {
    forall k | 0 <= k < STAGES ensures c.stages[k].job != Deferred { OnlyOrphansWork(c, k); }
    NothingPromoted(c.(extra := Some(Finished)));
  }

  /** Steps other than an accepted restart never take a finished stage back, nor a success in the
      absence of a worker. */
  lemma StepKeepsFinished(c: Chain, s: Step)
    requires Inv(c) && Enabled(c, s) && AllFinished(c)
    ensures AllFinished(After(c, s))
    ensures AllDone(c) ==> After(c, s).stages == c.stages && After(c, s).fin == c.fin
  {
    match s
    case StartStage(i) => OnlyOrphansWork(c, i); assert false;
    case FinishStage(i, o) => FinishKeepsFinished(c, i, o);
    case HandleFailure(i) => HandleKeepsFinished(c, i);
    case StartNetbird =>
    case FinishNetbird => NetbirdKeepsFinished(c);
  }

  // ---------------------------------------------------------------- runs of worker steps

  predicate StepsPossible(c: Chain, ss: seq<Step>)
    decreases |ss|
  {
    ss == [] || (|c.stages| == STAGES && Enabled(c, ss[0]) && StepsPossible(After(c, ss[0]), ss[1..]))
  }

  function StepsAfter(c: Chain, ss: seq<Step>): Chain
    requires StepsPossible(c, ss)
    decreases |ss|
  {
    if ss == [] then c else StepsAfter(After(c, ss[0]), ss[1..])
  }

  lemma {:induction false} StepsInv(c: Chain, ss: seq<Step>)
    requires Inv(c) && StepsPossible(c, ss)
    ensures Inv(StepsAfter(c, ss))
    decreases |ss|
  {
    if ss != [] {
      StepInv(c, ss[0]);
      StepsInv(After(c, ss[0]), ss[1..]);
    }
  }

  lemma StepsCons(c: Chain, s: Step, ss: seq<Step>)
    requires |c.stages| == STAGES && Enabled(c, s) && StepsPossible(After(c, s), ss)
    ensures StepsPossible(c, [s] + ss) && StepsAfter(c, [s] + ss) == StepsAfter(After(c, s), ss)
  {
    assert ([s] + ss)[1..] == ss;
  }

  /** An unfinished chain has an unfinished last stage. */
  lemma LastUnfinished(c: Chain)
    requires Inv(c) && !AllFinished(c)
    ensures !c.stages[STAGES - 1].row.finished
  {
    var k :| 0 <= k < STAGES && !c.stages[k].row.finished;
    if k < STAGES - 1 { UnfinishedTail(c, k, STAGES - 1); }
  }

  ghost predicate NoneFailed(c: Chain)
    requires |c.stages| == STAGES
  {
    !c.stages[0].row.failed && !c.stages[1].row.failed && !c.stages[2].row.failed
  }

  /** A stage of such a chain is waiting, ready, running or succeeded. */
  lemma Unfailed(c: Chain, i: nat)
    requires Inv(c) && NoneFailed(c) && i < STAGES
    ensures !c.stages[i].handling && (c.stages[i].worker.Some? <==> Running(c.stages[i]))
    ensures c.stages[i].job == Queued <==> Ready(c.stages[i])
  {
    assert WellFormed(c.stages[i]);
  }

  /** An execution that succeeds leaves no failed stage, and queues the finalizing job if it was the last one. */
  lemma SuccessQueues(c: Chain, k: nat)
    requires Inv(c) && NoneFailed(c) && k < STAGES && c.stages[k].worker.Some?
    ensures var d := Finish(c, k, Success);
            NoneFailed(d) && (AllFinished(d) ==> d.fin == Queued)
  {
    Unfailed(c, k);
    var d := Finish(c, k, Success);
    if k < STAGES - 1 {
      assert Precedes(c.stages[k], c.stages[STAGES - 1], c.first <= k);
      assert d.stages[STAGES - 1] in d.stages && !d.stages[STAGES - 1].row.finished;
    }
  }

  lemma StartedUnfinished(c: Chain, k: nat)
    requires |c.stages| == STAGES && NoneFailed(c) && k < STAGES
    ensures NoneFailed(Start(c, k)) && !AllFinished(Start(c, k))
  {
    assert Start(c, k).stages[k] in Start(c, k).stages;
  }

  lemma NetbirdUnfinished(c: Chain)
    requires Inv(c) && NoneFailed(c) && !AllFinished(c)
    ensures NoneFailed(StartExtra(c)) && !AllFinished(StartExtra(c))
    ensures NoneFailed(FinishExtra(c)) && !AllFinished(FinishExtra(c))
  {
    var k :| 0 <= k < STAGES && !c.stages[k].row.finished;
    assert FinishExtra(c).stages[k] in FinishExtra(c).stages;
  }

  /** While a stage is unfinished and none has failed, some worker step keeps it so or queues the finalizing job. */
  lemma GoodStep(c: Chain) returns (s: Step)
    requires Inv(c) && NoneFailed(c) && !AllFinished(c)
    ensures Enabled(c, s) && NoneFailed(After(c, s)) && (AllFinished(After(c, s)) ==> After(c, s).fin == Queued)
  {
    var i :| 0 <= i < STAGES && !c.stages[i].row.finished;
    NoWedge(c, i);
    LastUnfinished(c);
    if k :| 0 <= k < STAGES && c.stages[k].job == Queued {
      s := StartStage(k);
      StartedUnfinished(c, k);
    } else if k :| 0 <= k < STAGES && c.stages[k].worker.Some? {
      s := FinishStage(k, Success);
      SuccessQueues(c, k);
    } else {
      forall k | 0 <= k < STAGES ensures !c.stages[k].handling { Unfailed(c, k); }
      s := if c.extra.value == Queued then StartNetbird else FinishNetbird;
      NetbirdUnfinished(c);
    }
  }

  /** So the workers can bring such a chain to its finalizing job. */
  lemma {:induction false} CanSucceed(c: Chain) returns (ss: seq<Step>)
    requires Inv(c) && NoneFailed(c) && !AllFinished(c)
    ensures StepsPossible(c, ss) && StepsAfter(c, ss).fin == Queued && |StepsAfter(c, ss).stages| == STAGES
    decreases Rank(c)
  {
    var s := GoodStep(c);
    StepInv(c, s);
    ss := [];
    if !AllFinished(After(c, s)) {
      ss := CanSucceed(After(c, s));
    }
    StepsCons(c, s, ss);
    ss := [s] + ss;
  }
}
