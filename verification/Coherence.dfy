// The tables of pipelines, jobs and attempts agree with each other, and every transition keeps it so.

module Coherence {
  import opened Domain
  import opened Ordering
  import opened TableModel
  import Planner

  // ---- References ----

  ghost predicate PipelineRefs(t: Tables, p: Id) {
    p in t.pipelines && Distinct(t.pipelines[p].jobIDs)
    && forall j :: j in t.pipelines[p].jobIDs <==> Has(t, p, j)
  }

  ghost predicate JobRefs(t: Tables, j: Id) {
    && j in t.jobs
    && t.jobs[j].pipelineID in t.pipelines
    && t.jobs[j].tenant == t.pipelines[t.jobs[j].pipelineID].tenant
    && forall i :: 0 <= i < |t.jobs[j].attemptIDs| ==>
         var a := t.jobs[j].attemptIDs[i];
         a in t.attempts && t.attempts[a].jobID == j && t.attempts[a].number == i + 1
  }

  ghost predicate AttemptRefs(t: Tables, a: Id) {
    && a in t.attempts && t.attempts[a].jobID in t.jobs
    && var attempts := t.jobs[t.attempts[a].jobID].attemptIDs;
    && 1 <= t.attempts[a].number <= |attempts| && attempts[t.attempts[a].number - 1] == a
  }

  // No identifier dangles, in either direction.
  ghost predicate Refs(t: Tables) {
    PipelinesRef(t) && JobsRef(t) && AttemptsRef(t) && AllIssued(t)
  }

  ghost predicate PipelinesRef(t: Tables) {
    forall p {:trigger PipelineRefs(t, p)} :: p in t.pipelines ==> PipelineRefs(t, p)
  }

  ghost predicate JobsRef(t: Tables) {
    forall j {:trigger JobRefs(t, j)} :: j in t.jobs ==> JobRefs(t, j)
  }

  ghost predicate AttemptsRef(t: Tables) {
    forall a {:trigger AttemptRefs(t, a)} :: a in t.attempts ==> AttemptRefs(t, a)
  }

  ghost predicate AllIssued(t: Tables) {
    t.pipelines.Keys <= t.issued && t.jobs.Keys <= t.issued && t.attempts.Keys <= t.issued
  }

  // ---- Plans ----

  // JobIDs lists the jobs of the configuration in the order the planner chose.
  ghost predicate Planned(t: Tables, p: Id)
    requires p in t.pipelines
  {
    var q := t.pipelines[p];
    && Planner.Plan(q.config).Some?
    && |q.jobIDs| == |Planner.Plan(q.config).value|
    && forall i :: 0 <= i < |q.jobIDs| ==>
         && q.jobIDs[i] in t.jobs
         && t.jobs[q.jobIDs[i]].name == Planner.Plan(q.config).value[i]
         && t.jobs[q.jobIDs[i]].name in q.config.jobs
         && t.jobs[q.jobIDs[i]].spec == q.config.jobs[t.jobs[q.jobIDs[i]].name]
  }

  ghost predicate Plans(t: Tables) {
    forall p {:trigger Planned(t, p)} :: p in t.pipelines ==> Planned(t, p)
  }

  // ---- Statuses ----

  // An attempt that is not the last is LOST; the last one mirrors its job.
  predicate AttemptFits(job: Job, a: Attempt) {
    if a.number < |job.attemptIDs| then a.status == Lost
    else match job.status
      case Queued => a.status == Lost
      case Cancelled => a.status == Lost || a.status == Cancelled
      case other => a.status == other
  }

  predicate JobFits(job: Job) {
    && (job.status == Queued || IsActive(job.status) || (IsTerminal(job.status) && job.status != Lost))
    && (IsActive(job.status) || job.status == Succeeded || job.status == Failed ==> job.attemptIDs != [])
    && |job.attemptIDs| <= RetryLimit(job.spec)
    && (job.status == Queued ==> |job.attemptIDs| < RetryLimit(job.spec))
  }

  predicate InPlay(status: Status) {
    status == Queued || IsActive(status) || status == Succeeded
  }

  // The statuses of a pipeline's jobs.
  ghost function Board(t: Tables, p: Id): map<Id, Status> {
    map j | j in t.jobs && t.jobs[j].pipelineID == p :: t.jobs[j].status
  }

  ghost predicate FailedAlone(board: map<Id, Status>, j: Id) {
    j in board && board[j] == Failed && forall k :: k in board && board[k] == Failed ==> k == j
  }

  // The aggregate status of a pipeline says what its jobs are.
  ghost predicate Fits(status: Status, board: map<Id, Status>) {
    match status
    case Queued => (forall j :: j in board ==> board[j] == Queued) && board.Keys != {}
    case Running =>
      (forall j :: j in board ==> InPlay(board[j])) && exists j :: j in board && board[j] != Succeeded
    case Succeeded => forall j :: j in board ==> board[j] == Succeeded
    case Failed => (forall j :: j in board ==> IsTerminal(board[j])) && exists j :: FailedAlone(board, j)
    case Cancelled =>
      && (forall j :: j in board ==> board[j] == Cancelled || board[j] == Succeeded)
      && exists j :: j in board && board[j] == Cancelled
    case _ => false
  }

  ghost predicate PipelineFits(t: Tables, p: Id) {
    p in t.pipelines && Fits(t.pipelines[p].status, Board(t, p))
  }

  ghost predicate Statuses(t: Tables) {
    && AttemptsFit(t) && JobsFit(t)
    && (forall p {:trigger PipelineFits(t, p)} :: p in t.pipelines ==> PipelineFits(t, p))
  }

  ghost predicate AttemptOk(t: Tables, a: Id) {
    a in t.attempts && t.attempts[a].jobID in t.jobs && AttemptFits(t.jobs[t.attempts[a].jobID], t.attempts[a])
  }

  ghost predicate AttemptsFit(t: Tables) {
    forall a {:trigger AttemptOk(t, a)} :: a in t.attempts ==> AttemptOk(t, a)
  }

  ghost predicate JobsFit(t: Tables) {
    forall j {:trigger JobFits(t.jobs[j])} :: j in t.jobs ==> JobFits(t.jobs[j])
  }

  // A job that was ever attempted has all its needs SUCCEEDED.
  ghost predicate NeedsHeld(t: Tables) {
    forall j {:trigger NeedsMet(t, j)} :: j in t.jobs && t.jobs[j].attemptIDs != [] ==> NeedsMet(t, j)
  }

  ghost predicate Coherent(t: Tables) {
    Refs(t) && Plans(t) && Statuses(t) && NeedsHeld(t)
  }

  // ---- Readings ----

  // A pipeline is SUCCEEDED exactly if all its jobs are, FAILED exactly if some job is, and over exactly if
  // all its jobs are over.
  lemma PipelineSumsUpJobs(t: Tables, p: Id)
    requires Coherent(t) && p in t.pipelines
    ensures t.pipelines[p].status == Succeeded <==> AllSucceeded(t, p)
    ensures t.pipelines[p].status == Failed <==> AnyFailed(t, p)
    ensures IsTerminal(t.pipelines[p].status) <==> forall j :: Has(t, p, j) ==> IsTerminal(t.jobs[j].status)
    ensures t.pipelines[p].status == Failed ==> exists j :: FailedAlone(Board(t, p), j)
  {
    hide Refs, Plans, NeedsHeld, AttemptsFit, JobsFit, Fits;
    assert PipelineFits(t, p);
    hide Coherent, Statuses;
    var board := Board(t, p);
    BoardSumsUp(t.pipelines[p].status, board);
    assert forall j :: j in board <==> Has(t, p, j);
  }

  lemma BoardSumsUp(status: Status, board: map<Id, Status>)
    requires Fits(status, board)
    ensures status == Succeeded <==> forall j :: j in board ==> board[j] == Succeeded
    ensures status == Failed <==> exists j :: j in board && board[j] == Failed
    ensures IsTerminal(status) <==> forall j :: j in board ==> IsTerminal(board[j])
    ensures status == Failed ==> exists j :: FailedAlone(board, j)
  {
    match status
    case Queued =>
      var j :| j in board.Keys;
    case _ =>
  }

  // While a job is QUEUED all its attempts are LOST; while it is LEASED or RUNNING its last attempt is too.
  lemma AttemptsMirrorJob(t: Tables, j: Id, i: nat)
    requires Coherent(t) && j in t.jobs && i < |t.jobs[j].attemptIDs|
    ensures t.jobs[j].attemptIDs[i] in t.attempts
    ensures var status, job := t.attempts[t.jobs[j].attemptIDs[i]].status, t.jobs[j];
      && (i < |job.attemptIDs| - 1 || job.status == Queued ==> status == Lost)
      && (i == |job.attemptIDs| - 1 && job.status != Queued && job.status != Cancelled ==> status == job.status)
  {
    assert JobRefs(t, j);
    assert AttemptOk(t, t.jobs[j].attemptIDs[i]);
  }

  // ---- A change of statuses alone keeps references and plans ----

  // t' differs from t only in statuses and in what attempts report.
  ghost predicate SameShape(t: Tables, t': Tables) {
    && t'.issued == t.issued
    && t'.pipelines.Keys == t.pipelines.Keys && t'.jobs.Keys == t.jobs.Keys && t'.attempts.Keys == t.attempts.Keys
    && (forall p :: p in t.pipelines ==> t'.pipelines[p] == t.pipelines[p].(status := t'.pipelines[p].status))
    && (forall j :: j in t.jobs ==> t'.jobs[j] == t.jobs[j].(status := t'.jobs[j].status))
    && (forall a :: a in t.attempts ==>
          t'.attempts[a].jobID == t.attempts[a].jobID && t'.attempts[a].number == t.attempts[a].number)
  }

  lemma ShapeKeepsRefs(t: Tables, t': Tables)
    requires Refs(t) && SameShape(t, t')
    ensures Refs(t')
  {
    ShapeKeepsPipelineRefs(t, t');
    ShapeKeepsJobRefs(t, t');
    hide PipelinesRef, JobsRef, AttemptsRef;
  }

  lemma ShapeKeepsPipelineRefs(t: Tables, t': Tables)
    requires PipelinesRef(t) && SameShape(t, t')
    ensures PipelinesRef(t')
  {
    forall p | p in t'.pipelines ensures PipelineRefs(t', p) {
      assert PipelineRefs(t, p);
      assert forall j :: Has(t', p, j) == Has(t, p, j);
    }
    hide PipelineRefs;
  }

  lemma ShapeKeepsJobRefs(t: Tables, t': Tables)
    requires JobsRef(t) && AttemptsRef(t) && SameShape(t, t')
    ensures JobsRef(t') && AttemptsRef(t')
  {
    hide JobRefs, AttemptRefs;
    forall j | j in t'.jobs ensures JobRefs(t', j) {
      ShapeKeepsJobRef(t, t', j);
    }
    forall a | a in t'.attempts ensures AttemptRefs(t', a) {
      ShapeKeepsAttemptRef(t, t', a);
    }
  }

  lemma ShapeKeepsJobRef(t: Tables, t': Tables, j: Id)
    requires SameShape(t, t') && JobRefs(t, j)
    ensures JobRefs(t', j)
  {
  }

  lemma ShapeKeepsAttemptRef(t: Tables, t': Tables, a: Id)
    requires SameShape(t, t') && AttemptRefs(t, a)
    ensures AttemptRefs(t', a)
  {
  }

  lemma ShapeKeepsPlans(t: Tables, t': Tables)
    requires Plans(t) && SameShape(t, t')
    ensures Plans(t')
  {
    forall p | p in t'.pipelines ensures Planned(t', p) {
      assert Planned(t, p);
    }
  }

  // Succeeded jobs stay, so met needs stay met.
  lemma NeedsStayMet(t: Tables, t': Tables)
    requires NeedsHeld(t) && SameShape(t, t')
    requires forall j :: j in t.jobs && t.jobs[j].status == Succeeded ==> t'.jobs[j].status == Succeeded
    ensures NeedsHeld(t')
  {
    forall j | j in t'.jobs && t'.jobs[j].attemptIDs != [] ensures NeedsMet(t', j) {
      assert NeedsMet(t, j);
      forall d | d in t'.jobs[j].spec.needs ensures NeedMet(t', t'.jobs[j].pipelineID, d) {
        var k :| Has(t, t.jobs[j].pipelineID, k) && t.jobs[k].name == d && t.jobs[k].status == Succeeded;
        assert Has(t', t.jobs[j].pipelineID, k);
      }
    }
  }

  lemma OthersFit(t: Tables, t': Tables, p: Id)
    requires forall q {:trigger PipelineFits(t, q)} :: q in t.pipelines ==> PipelineFits(t, q)
    requires SameShape(t, t')
    requires forall q :: q in t.pipelines && q != p ==> t'.pipelines[q] == t.pipelines[q]
    requires forall j :: j in t.jobs && t.jobs[j].pipelineID != p ==> t'.jobs[j] == t.jobs[j]
    ensures forall q {:trigger PipelineFits(t', q)} :: q in t'.pipelines && q != p ==> PipelineFits(t', q)
  {
    forall q | q in t'.pipelines && q != p ensures PipelineFits(t', q) {
      assert PipelineFits(t, q);
      assert Board(t', q) == Board(t, q);
    }
  }

  // Coherence of a new table that only changed statuses: what remains to be shown.
  lemma ShapeKeepsCoherent(t: Tables, t': Tables)
    requires Coherent(t) && SameShape(t, t') && Statuses(t')
    requires forall j :: j in t.jobs && t.jobs[j].status == Succeeded ==> t'.jobs[j].status == Succeeded
    ensures Coherent(t')
  {
    ShapeKeepsRefs(t, t');
    ShapeKeepsPlans(t, t');
    NeedsStayMet(t, t');
  }

  // Only pipeline p and its unfinished jobs changed.
  ghost predicate Inside(t: Tables, t': Tables, p: Id) {
    && p in t.pipelines
    && (forall q :: q in t.pipelines && q != p ==> q in t'.pipelines && t'.pipelines[q] == t.pipelines[q])
    && (forall j :: j in t.jobs && (t.jobs[j].pipelineID != p || t.jobs[j].status == Succeeded)
          ==> j in t'.jobs && t'.jobs[j] == t.jobs[j])
  }

  lemma ChangeInside(t: Tables, t': Tables, p: Id)
    requires Coherent(t) && SameShape(t, t') && Inside(t, t', p) && AttemptsFit(t') && JobsFit(t')
    requires PipelineFits(t', p)
    ensures Coherent(t')
  {
    OthersFit(t, t', p);
    ShapeKeepsCoherent(t, t');
  }

  lemma StatusKeepsAttempts(t: Tables, p: Id, status: Status)
    requires AttemptsFit(t) && JobsFit(t) && p in t.pipelines
    ensures SameShape(t, WithStatus(t, p, status))
    ensures AttemptsFit(WithStatus(t, p, status)) && JobsFit(WithStatus(t, p, status))
  {
    var t' := WithStatus(t, p, status);
    forall a | a in t'.attempts ensures AttemptOk(t', a) {
      assert AttemptOk(t, a);
    }
  }

  // ---- Active attempts ----

  lemma ActiveIsLast(t: Tables, a: Id)
    requires Coherent(t) && a in t.attempts && IsActive(t.attempts[a].status)
    ensures Located(t, a)
    ensures var job := t.jobs[t.attempts[a].jobID];
      && job.status == t.attempts[a].status && t.attempts[a].number == |job.attemptIDs| > 0
      && job.attemptIDs[|job.attemptIDs| - 1] == a
      && t.pipelines[job.pipelineID].status == Running
  {
    assert AttemptRefs(t, a) && AttemptOk(t, a);
    var j := t.attempts[a].jobID;
    assert JobRefs(t, j) && JobFits(t.jobs[j]);
    var p := t.jobs[j].pipelineID;
    assert PipelineFits(t, p) && j in Board(t, p);
  }

  // An active job is executing its last attempt, and no other attempt of it is active.
  lemma OneActiveAttempt(t: Tables, a: Id, b: Id)
    requires Coherent(t) && a in t.attempts && b in t.attempts
    requires IsActive(t.attempts[a].status) && IsActive(t.attempts[b].status)
    requires t.attempts[a].jobID == t.attempts[b].jobID
    ensures a == b
  {
    ActiveIsLast(t, a);
    ActiveIsLast(t, b);
  }

  // ---- Cancelling ----

  lemma CancelHasShape(t: Tables, ps: set<Id>, now: Time)
    ensures SameShape(t, CancelJobs(t, ps, now))
  {
  }

  lemma CancelledAttemptsFit(t: Tables, ps: set<Id>, now: Time)
    requires AttemptsFit(t) && JobsFit(t)
    ensures AttemptsFit(CancelJobs(t, ps, now)) && JobsFit(CancelJobs(t, ps, now))
  {
    var t' := CancelJobs(t, ps, now);
    forall a | a in t'.attempts ensures AttemptOk(t', a) {
      assert AttemptOk(t, a) && JobFits(t.jobs[t.attempts[a].jobID]);
    }
    forall j | j in t'.jobs ensures JobFits(t'.jobs[j]) {
      assert JobFits(t.jobs[j]);
    }
  }

  lemma CancelPipelinesKeeps(t: Tables, ps: set<Id>, now: Time)
    requires Coherent(t)
    requires forall p :: p in ps && p in t.pipelines ==> !IsTerminal(t.pipelines[p].status)
    ensures Coherent(CancelPipelines(t, ps, now))
  {
    var t' := CancelPipelines(t, ps, now);
    CancelPipelinesShape(t, ps, now);
    forall p | p in t'.pipelines ensures PipelineFits(t', p) {
      assert PipelineFits(t, p);
      CancelledFits(t, ps, p, now);
    }
    hide SameShape, AttemptsFit, JobsFit, PipelineFits;
    ShapeKeepsCoherent(t, t');
  }

  lemma CancelPipelinesShape(t: Tables, ps: set<Id>, now: Time)
    requires AttemptsFit(t) && JobsFit(t)
    ensures var t' := CancelPipelines(t, ps, now); SameShape(t, t') && AttemptsFit(t') && JobsFit(t')
  {
    var t0 := MarkCancelled(t, ps);
    forall a | a in t0.attempts ensures AttemptOk(t0, a) {
      assert AttemptOk(t, a);
    }
    CancelledAttemptsFit(t0, ps, now);
    CancelHasShape(t0, ps, now);
    ShapeTransitive(t, t0, CancelPipelines(t, ps, now));
  }

  lemma CancelledFits(t: Tables, ps: set<Id>, p: Id, now: Time)
    requires p in t.pipelines && PipelineFits(t, p)
    requires p in ps ==> !IsTerminal(t.pipelines[p].status)
    ensures PipelineFits(CancelPipelines(t, ps, now), p)
  {
    var t' := CancelPipelines(t, ps, now);
    if p in ps {
      CancelledBoard(t.pipelines[p].status, Board(t, p), Board(t', p));
    } else {
      assert Board(t', p) == Board(t, p);
    }
  }

  lemma CancelledBoard(status: Status, board: map<Id, Status>, board': map<Id, Status>)
    requires Fits(status, board) && !IsTerminal(status) && board'.Keys == board.Keys
    requires forall j :: j in board ==> board'[j] == if IsTerminal(board[j]) then board[j] else Cancelled
    ensures Fits(Cancelled, board')
  {
    var j := Unended(status, board);
    assert board'[j] == Cancelled;
    forall k | k in board ensures board[k] == Succeeded || !IsTerminal(board[k]) {
    }
  }

  lemma Unended(status: Status, board: map<Id, Status>) returns (j: Id)
    requires Fits(status, board) && !IsTerminal(status)
    ensures j in board && !IsTerminal(board[j])
  {
    if status == Queued {
      j :| j in board.Keys;
    } else {
      j :| j in board && board[j] != Succeeded;
    }
  }

  // ---- Completing an attempt ----

  ghost predicate Finishes(t: Tables, a: Id, record: Attempt) {
    && a in t.attempts && IsActive(t.attempts[a].status)
    && (record.status == Succeeded || record.status == Failed)
    && record.jobID == t.attempts[a].jobID && record.number == t.attempts[a].number
  }

  // An active attempt and its job move to statuses that fit each other; nothing else changes.
  ghost predicate Moves(t: Tables, t': Tables, a: Id, j: Id, record: Attempt, status: Status) {
    && a in t.attempts && j in t.jobs && t.attempts[a].jobID == j == record.jobID
    && record.number == t.attempts[a].number
    && t.attempts[a].number == |t.jobs[j].attemptIDs|
    && t'.issued == t.issued && t'.pipelines == t.pipelines
    && t'.attempts == t.attempts[a := record]
    && t'.jobs == t.jobs[j := t.jobs[j].(status := status)]
    && AttemptFits(t.jobs[j].(status := status), record) && JobFits(t.jobs[j].(status := status))
  }

  lemma MovedAttemptsFit(t: Tables, t': Tables, a: Id, j: Id, record: Attempt, status: Status)
    requires AttemptsFit(t) && AttemptsRef(t) && Moves(t, t', a, j, record, status)
    ensures AttemptsFit(t')
  {
    assert AttemptRefs(t, a);
    forall b | b in t'.attempts ensures AttemptOk(t', b) {
      assert AttemptOk(t, b) && AttemptRefs(t, b);
    }
  }

  lemma MovedJobsFit(t: Tables, t': Tables, a: Id, j: Id, record: Attempt, status: Status)
    requires JobsFit(t) && Moves(t, t', a, j, record, status)
    ensures JobsFit(t') && SameShape(t, t')
  {
    forall k | k in t'.jobs ensures JobFits(t'.jobs[k]) {
      assert JobFits(t.jobs[k]);
    }
  }

  lemma CompleteKeeps(t: Tables, a: Id, record: Attempt, now: Time)
    requires Coherent(t) && Finishes(t, a, record)
    ensures Located(t, a) && Coherent(Complete(t, a, record, now))
  {
    ActiveIsLast(t, a);
    var j := t.attempts[a].jobID;
    var p := t.jobs[j].pipelineID;
    var t1 := Settle(t, a, record);
    assert Moves(t, t1, a, j, record, record.status) by {
      assert JobFits(t.jobs[j]);
    }
    MovedAttemptsFit(t, t1, a, j, record, record.status);
    MovedJobsFit(t, t1, a, j, record, record.status);
    SettledBoard(t, t1, p, j, record.status);
    hide Coherent, SameShape, AttemptsFit, JobsFit, PipelineFits;
    if record.status == Failed {
      FailFastKeeps(t, t1, p, j, now);
    } else {
      SucceedKeeps(t, t1, p, j);
    }
  }

  lemma SettledBoard(t: Tables, t1: Tables, p: Id, j: Id, status: Status)
    requires Statuses(t) && p in t.pipelines && t.pipelines[p].status == Running && Has(t, p, j)
    requires t1.jobs == t.jobs[j := t.jobs[j].(status := status)]
    ensures PipelineFits(t, p) && Board(t1, p) == Board(t, p)[j := status] && j in Board(t, p)
    ensures status == Failed ==> AnyFailed(t1, p)
    ensures status == Succeeded ==> !AnyFailed(t1, p)
  {
    hide AttemptsFit, JobsFit, Board, AnyFailed;
    assert PipelineFits(t, p);
    hide Statuses, Fits;
    SettledOnBoard(t, t1, p, j, status);
    SettledVerdict(t, t1, p, j, status);
  }

  lemma SettledOnBoard(t: Tables, t1: Tables, p: Id, j: Id, status: Status)
    requires Has(t, p, j) && t1.jobs == t.jobs[j := t.jobs[j].(status := status)]
    ensures Board(t1, p) == Board(t, p)[j := status] && j in Board(t, p)
  {
  }

  lemma SettledVerdict(t: Tables, t1: Tables, p: Id, j: Id, status: Status)
    requires PipelineFits(t, p) && t.pipelines[p].status == Running && Has(t, p, j)
    requires t1.jobs == t.jobs[j := t.jobs[j].(status := status)]
    ensures status == Failed ==> AnyFailed(t1, p)
    ensures status == Succeeded ==> !AnyFailed(t1, p)
  {
    assert status == Failed ==> Has(t1, p, j);
    forall k | status == Succeeded && Has(t1, p, k) ensures t1.jobs[k].status != Failed {
      assert k in Board(t, p);
    }
    hide Fits, Board;
  }

  lemma ShapeTransitive(t: Tables, t1: Tables, t2: Tables)
    requires SameShape(t, t1) && SameShape(t1, t2)
    ensures SameShape(t, t2)
  {
  }

  lemma SucceedKeeps(t: Tables, t1: Tables, p: Id, j: Id)
    requires Coherent(t) && SameShape(t, t1) && AttemptsFit(t1) && JobsFit(t1) && PipelineFits(t, p)
    requires p in t.pipelines && t1.pipelines == t.pipelines && t.pipelines[p].status == Running
    requires Has(t, p, j) && t1.jobs == t.jobs[j := t.jobs[j].(status := Succeeded)]
    ensures Coherent(WithStatus(t1, p, if AllSucceeded(t1, p) then Succeeded else Running))
  {
    var status := if AllSucceeded(t1, p) then Succeeded else Running;
    SucceededFits(t, t1, p, j);
    StatusKeepsAttempts(t1, p, status);
    ShapeTransitive(t, t1, WithStatus(t1, p, status));
    SucceedInside(t, t1, p, j, status);
    hide Coherent, SameShape, Inside, AttemptsFit, JobsFit, PipelineFits;
    ChangeInside(t, WithStatus(t1, p, status), p);
  }

  lemma SucceedInside(t: Tables, t1: Tables, p: Id, j: Id, status: Status)
    requires p in t.pipelines && t1.pipelines == t.pipelines
    requires Has(t, p, j) && t1.jobs == t.jobs[j := t.jobs[j].(status := Succeeded)]
    ensures Inside(t, WithStatus(t1, p, status), p)
  {
  }

  lemma SucceededFits(t: Tables, t1: Tables, p: Id, j: Id)
    requires PipelineFits(t, p) && t1.pipelines == t.pipelines && t.pipelines[p].status == Running
    requires Has(t, p, j) && t1.jobs == t.jobs[j := t.jobs[j].(status := Succeeded)]
    ensures PipelineFits(WithStatus(t1, p, if AllSucceeded(t1, p) then Succeeded else Running), p)
  {
    hide Fits, AllSucceeded, Board;
    var t2 := WithStatus(t1, p, if AllSucceeded(t1, p) then Succeeded else Running);
    MovedBoard(t, t2, p, j, Succeeded);
    SucceededBoard(t1, t2, p);
    OneMoreSucceeded(Board(t, p), Board(t2, p), j, AllSucceeded(t1, p));
  }

  lemma SucceededBoard(t1: Tables, t2: Tables, p: Id)
    requires t2.jobs == t1.jobs
    ensures AllSucceeded(t1, p) <==> forall k :: k in Board(t2, p) ==> Board(t2, p)[k] == Succeeded
  {
    if forall k :: k in Board(t2, p) ==> Board(t2, p)[k] == Succeeded {
      forall k | Has(t1, p, k) ensures t1.jobs[k].status == Succeeded {
        assert k in Board(t2, p);
      }
    } else {
      var k :| k in Board(t2, p) && Board(t2, p)[k] != Succeeded;
      assert Has(t1, p, k);
    }
  }

  lemma OneMoreSucceeded(board: map<Id, Status>, board': map<Id, Status>, j: Id, all: bool)
    requires Fits(Running, board) && j in board
    requires board' == board[j := Succeeded] && (all <==> forall k :: k in board' ==> board'[k] == Succeeded)
    ensures Fits(if all then Succeeded else Running, board')
  {
  }

  lemma FailFastKeeps(t: Tables, t1: Tables, p: Id, j: Id, now: Time)
    requires Coherent(t) && SameShape(t, t1) && AttemptsFit(t1) && JobsFit(t1) && PipelineFits(t, p)
    requires p in t.pipelines && t1.pipelines == t.pipelines && t.pipelines[p].status == Running
    requires Has(t, p, j) && IsActive(t.jobs[j].status) && t1.jobs == t.jobs[j := t.jobs[j].(status := Failed)]
    ensures Coherent(CancelJobs(WithStatus(t1, p, Failed), {p}, now))
  {
    FailedFits(t, t1, p, j, now);
    StatusKeepsAttempts(t1, p, Failed);
    CancelledAttemptsFit(WithStatus(t1, p, Failed), {p}, now);
    CancelHasShape(WithStatus(t1, p, Failed), {p}, now);
    ShapeTransitive(t1, WithStatus(t1, p, Failed), CancelJobs(WithStatus(t1, p, Failed), {p}, now));
    ShapeTransitive(t, t1, CancelJobs(WithStatus(t1, p, Failed), {p}, now));
    FailInside(t, t1, p, j, now);
    hide Coherent, SameShape, Inside, AttemptsFit, JobsFit, PipelineFits;
    ChangeInside(t, CancelJobs(WithStatus(t1, p, Failed), {p}, now), p);
  }

  lemma FailInside(t: Tables, t1: Tables, p: Id, j: Id, now: Time)
    requires p in t.pipelines && t1.pipelines == t.pipelines
    requires Has(t, p, j) && IsActive(t.jobs[j].status) && t1.jobs == t.jobs[j := t.jobs[j].(status := Failed)]
    ensures Inside(t, CancelJobs(WithStatus(t1, p, Failed), {p}, now), p)
  {
    CancelledOutside(WithStatus(t1, p, Failed), {p}, now);
  }

  lemma CancelledOutside(t: Tables, ps: set<Id>, now: Time)
    ensures var t' := CancelJobs(t, ps, now);
      forall j :: j in t.jobs && (t.jobs[j].pipelineID !in ps || IsTerminal(t.jobs[j].status)) ==>
        t'.jobs[j] == t.jobs[j]
  {
  }

  lemma FailedFits(t: Tables, t1: Tables, p: Id, j: Id, now: Time)
    requires PipelineFits(t, p) && t1.pipelines == t.pipelines && t.pipelines[p].status == Running
    requires Has(t, p, j) && t1.jobs == t.jobs[j := t.jobs[j].(status := Failed)]
    ensures PipelineFits(CancelJobs(WithStatus(t1, p, Failed), {p}, now), p)
  {
    hide Fits, Board, CancelJobs;
    var t1' := WithStatus(t1, p, Failed);
    CancelledStatuses(t1', p, now);
    MovedBoard(t, t1', p, j, Failed);
    FailedBoard(Board(t, p), Board(CancelJobs(t1', {p}, now), p), j);
  }

  lemma MovedBoard(t: Tables, t': Tables, p: Id, j: Id, status: Status)
    requires Has(t, p, j) && t'.jobs == t.jobs[j := t.jobs[j].(status := status)]
    ensures j in Board(t, p) && Board(t', p) == Board(t, p)[j := status]
  {
  }

  lemma CancelledStatuses(t: Tables, p: Id, now: Time)
    ensures var t' := CancelJobs(t, {p}, now);
      && t'.pipelines == t.pipelines && Board(t', p).Keys == Board(t, p).Keys
      && forall k :: k in Board(t, p) ==>
           Board(t', p)[k] == if IsTerminal(Board(t, p)[k]) then Board(t, p)[k] else Cancelled
  {
    hide DoomedJobs;
  }

  lemma FailedBoard(board: map<Id, Status>, board': map<Id, Status>, j: Id)
    requires Fits(Running, board) && board'.Keys == board.Keys && j in board
    requires forall k :: k in board ==>
      board'[k] == if k == j then Failed else if IsTerminal(board[k]) then board[k] else Cancelled
    ensures Fits(Failed, board')
  {
    assert board'[j] == Failed;
    forall k | k in board' && k != j ensures IsTerminal(board'[k]) && board'[k] != Failed {
      NotFailed(board, k);
    }
    assert FailedAlone(board', j);
  }

  lemma NotFailed(board: map<Id, Status>, k: Id)
    requires Fits(Running, board) && k in board
    ensures board[k] != Failed
  {
  }

  // ---- Losing and renewing a lease ----

  // An active job moves to another status in play.
  lemma MoveKeeps(t: Tables, t': Tables, a: Id, j: Id, record: Attempt, status: Status)
    requires Coherent(t) && a in t.attempts && IsActive(t.attempts[a].status)
    requires Moves(t, t', a, j, record, status) && (status == Queued || IsActive(status))
    ensures Coherent(t')
  {
    ActiveIsLast(t, a);
    MovedAttemptsFit(t, t', a, j, record, status);
    MovedJobsFit(t, t', a, j, record, status);
    var p := t.jobs[j].pipelineID;
    ActiveBoard(t, t', p, j, status);
    MoveInside(t, t', p, j, status);
    hide Coherent, SameShape, Inside, AttemptsFit, JobsFit, PipelineFits;
    ChangeInside(t, t', p);
  }

  lemma MoveInside(t: Tables, t': Tables, p: Id, j: Id, status: Status)
    requires p in t.pipelines && Has(t, p, j) && t.jobs[j].status != Succeeded
    requires t'.pipelines == t.pipelines && t'.jobs == t.jobs[j := t.jobs[j].(status := status)]
    ensures Inside(t, t', p)
  {
  }

  // Moving an active job to another status in play leaves its pipeline RUNNING.
  lemma ActiveBoard(t: Tables, t': Tables, p: Id, j: Id, status: Status)
    requires Statuses(t) && p in t.pipelines && t.pipelines[p].status == Running && Has(t, p, j)
    requires t'.pipelines == t.pipelines && t'.jobs == t.jobs[j := t.jobs[j].(status := status)]
    requires status == Queued || IsActive(status)
    ensures PipelineFits(t', p)
  {
    hide AttemptsFit, JobsFit;
    assert PipelineFits(t, p);
    hide Statuses, Board, Fits;
    MovedBoard(t, t', p, j, status);
    StillRunning(Board(t, p), Board(t', p), j, status);
  }

  lemma StillRunning(board: map<Id, Status>, board': map<Id, Status>, j: Id, status: Status)
    requires Fits(Running, board) && board' == board[j := status] && (status == Queued || IsActive(status))
    ensures Fits(Running, board')
  {
    assert board'[j] == status;
  }

  lemma LoseKeeps(t: Tables, a: Id, now: Time)
    requires Coherent(t) && a in t.attempts && IsActive(t.attempts[a].status)
    requires Located(t, a) && !Exhausted(t, a, now)
    ensures Coherent(Lose(t, a, now))
  {
    ActiveIsLast(t, a);
    var j := t.attempts[a].jobID;
    assert JobFits(t.jobs[j]);
    MoveKeeps(t, Lose(t, a, now), a, j, LostRecord(t.attempts[a], now), Queued);
  }

  lemma RenewKeeps(t: Tables, a: Id, ttl: int, now: Time)
    requires Coherent(t) && a in t.attempts && IsActive(t.attempts[a].status)
    ensures Located(t, a) && Coherent(Renew(t, a, ttl, now))
  {
    ActiveIsLast(t, a);
    var j := t.attempts[a].jobID;
    assert JobFits(t.jobs[j]);
    var t' := Renew(t, a, ttl, now);
    assert t'.jobs == t.jobs[j := t.jobs[j].(status := Running)];
    MoveKeeps(t, t', a, j, RenewedRecord(t.attempts[a], ttl, now), Running);
  }

  // ---- The sweep ----

  lemma SweepOneKeeps(t: Tables, a: Id, now: Time)
    requires Coherent(t)
    ensures Coherent(SweepOne(t, a, now))
  {
    if Expired(t, a, now) {
      hide Coherent;
      if Exhausted(t, a, now) {
        CompleteKeeps(t, a, ExhaustedRecord(t.attempts[a], now), now);
      } else {
        LoseKeeps(t, a, now);
      }
    }
  }

  lemma {:induction false} SweepKeeps(t: Tables, order: seq<Id>, now: Time)
    requires Coherent(t)
    ensures Coherent(Sweep(t, order, now))
  {
    if order != [] {
      SweepKeeps(t, order[..|order| - 1], now);
      SweepOneKeeps(Sweep(t, order[..|order| - 1], now), order[|order| - 1], now);
    }
  }

  // ---- Granting a lease ----

  ghost predicate MayLease(t: Tables, j: Id, a: Id) {
    Runnable(t, j) && t.jobs[j].pipelineID in t.pipelines && a !in t.issued
  }

  lemma LeaseRefs(t: Tables, j: Id, w: Id, a: Id, token: string, ttl: int, now: Time)
    requires Refs(t) && MayLease(t, j, a)
    ensures Refs(Lease(t, j, w, a, token, ttl, now))
  {
    var t' := Lease(t, j, w, a, token, ttl, now);
    hide NeedsMet;
    forall p | p in t'.pipelines ensures PipelineRefs(t', p) {
      assert PipelineRefs(t, p);
      assert forall k :: Has(t', p, k) == Has(t, p, k);
    }
    hide PipelineRefs, JobRefs, AttemptRefs;
    forall k | k in t'.jobs ensures JobRefs(t', k) {
      LeaseJobRef(t, j, w, a, token, ttl, now, k);
    }
    forall b | b in t'.attempts ensures AttemptRefs(t', b) {
      LeaseAttemptRef(t, j, w, a, token, ttl, now, b);
    }
  }

  lemma LeaseJobRef(t: Tables, j: Id, w: Id, a: Id, token: string, ttl: int, now: Time, k: Id)
    requires Refs(t) && MayLease(t, j, a) && k in t.jobs
    ensures JobRefs(Lease(t, j, w, a, token, ttl, now), k)
  {
    hide NeedsMet, PipelinesRef, AttemptsRef;
    assert JobRefs(t, k);
    hide JobsRef;
  }

  lemma LeaseAttemptRef(t: Tables, j: Id, w: Id, a: Id, token: string, ttl: int, now: Time, b: Id)
    requires Refs(t) && MayLease(t, j, a) && (b in t.attempts || b == a)
    ensures AttemptRefs(Lease(t, j, w, a, token, ttl, now), b)
  {
    hide NeedsMet, PipelinesRef, JobsRef;
    assert b != a ==> AttemptRefs(t, b);
    hide AttemptsRef;
  }

  lemma LeaseStatuses(t: Tables, j: Id, w: Id, a: Id, token: string, ttl: int, now: Time)
    requires AttemptsFit(t) && JobsFit(t) && AttemptsRef(t) && AllIssued(t) && MayLease(t, j, a)
    ensures var t' := Lease(t, j, w, a, token, ttl, now); AttemptsFit(t') && JobsFit(t')
  {
    var t' := Lease(t, j, w, a, token, ttl, now);
    assert JobFits(t.jobs[j]);
    forall b | b in t'.attempts ensures AttemptOk(t', b) {
      assert b != a ==> AttemptOk(t, b) && AttemptRefs(t, b);
    }
    forall k | k in t'.jobs ensures JobFits(t'.jobs[k]) {
      assert JobFits(t.jobs[k]);
    }
  }

  lemma LeasePipelines(t: Tables, j: Id, w: Id, a: Id, token: string, ttl: int, now: Time)
    requires Statuses(t) && MayLease(t, j, a)
    ensures var t' := Lease(t, j, w, a, token, ttl, now);
      forall p {:trigger PipelineFits(t', p)} :: p in t'.pipelines ==> PipelineFits(t', p)
  {
    var t' := Lease(t, j, w, a, token, ttl, now);
    forall p | p in t'.pipelines ensures PipelineFits(t', p) {
      assert PipelineFits(t, p);
      if p == t.jobs[j].pipelineID {
        assert Board(t', p) == Board(t, p)[j := Leased];
        StartedBoard(t.pipelines[p].status, Board(t, p), j);
      } else {
        assert Board(t', p) == Board(t, p);
      }
    }
  }

  // A queued job can only be found in a pipeline that is not finished.
  lemma StartedBoard(status: Status, board: map<Id, Status>, j: Id)
    requires Fits(status, board) && j in board && board[j] == Queued
    ensures !IsTerminal(status) && Fits(Running, board[j := Leased])
  {
    assert board[j := Leased][j] == Leased;
  }

  lemma LeaseNeeds(t: Tables, j: Id, w: Id, a: Id, token: string, ttl: int, now: Time)
    requires NeedsHeld(t) && MayLease(t, j, a)
    ensures NeedsHeld(Lease(t, j, w, a, token, ttl, now))
  {
    var t' := Lease(t, j, w, a, token, ttl, now);
    forall k | k in t'.jobs && t'.jobs[k].attemptIDs != [] ensures NeedsMet(t', k) {
      assert NeedsMet(t, k);
      forall d | d in t'.jobs[k].spec.needs ensures NeedMet(t', t'.jobs[k].pipelineID, d) {
        var m :| Has(t, t.jobs[k].pipelineID, m) && t.jobs[m].name == d && t.jobs[m].status == Succeeded;
        assert Has(t', t.jobs[k].pipelineID, m);
      }
    }
  }

  lemma LeaseKeeps(t: Tables, j: Id, w: Id, a: Id, token: string, ttl: int, now: Time)
    requires Coherent(t) && MayLease(t, j, a)
    ensures Coherent(Lease(t, j, w, a, token, ttl, now))
  {
    hide PipelinesRef, JobsRef, AttemptsRef, AttemptsFit, JobsFit, PipelineFits, NeedsHeld, AllIssued, Plans, MayLease,
         Lease;
    LeaseRefs(t, j, w, a, token, ttl, now);
    LeasePlans(t, j, w, a, token, ttl, now);
    LeaseStatuses(t, j, w, a, token, ttl, now);
    LeasePipelines(t, j, w, a, token, ttl, now);
    LeaseNeeds(t, j, w, a, token, ttl, now);
  }

  lemma LeasePlans(t: Tables, j: Id, w: Id, a: Id, token: string, ttl: int, now: Time)
    requires Plans(t) && MayLease(t, j, a)
    ensures Plans(Lease(t, j, w, a, token, ttl, now))
  {
    hide NeedsMet, Planned;
    var t' := Lease(t, j, w, a, token, ttl, now);
    forall p | p in t'.pipelines ensures Planned(t', p) {
      SamePlan(t, t', p);
    }
  }

  // A plan depends on the pipeline's configuration and on the names and demands of its jobs.
  lemma SamePlan(t: Tables, t': Tables, p: Id)
    requires p in t.pipelines && p in t'.pipelines && Planned(t, p)
    requires t'.pipelines[p].jobIDs == t.pipelines[p].jobIDs && t'.pipelines[p].config == t.pipelines[p].config
    requires forall j :: j in t.jobs ==>
      j in t'.jobs && t'.jobs[j].name == t.jobs[j].name && t'.jobs[j].spec == t.jobs[j].spec
    ensures Planned(t', p)
  {
  }

  // ---- Creating a pipeline ----

  ghost predicate MayCreate(t: Tables, input: Submission, order: seq<string>, p: Id, ids: seq<Id>) {
    && |ids| == |order| && FreshIds(t, p, ids)
    && (forall n :: n in order ==> n in input.spec.jobs) && order != []
  }

  // What creation adds, entry by entry.
  ghost predicate Created(t: Tables, t': Tables, input: Submission, order: seq<string>, p: Id, ids: seq<Id>,
                          generation: int, now: Time)
    requires |ids| == |order| && forall n :: n in order ==> n in input.spec.jobs
  {
    && t'.pipelines == t.pipelines[p := NewPipeline(input, ids, generation, now)]
    && t'.attempts == t.attempts
    && t'.issued == t.issued + {p} + (set j | j in ids)
    && (forall k :: k in t'.jobs <==> k in t.jobs || k in ids)
    && (forall k :: k in t.jobs ==> t'.jobs[k] == t.jobs[k])
    && (forall i :: 0 <= i < |ids| ==> t'.jobs[ids[i]] == NewJob(input, p, order[i], t.sequence + 1 + i, now))
  }

  lemma CreateAdds(t: Tables, input: Submission, order: seq<string>, p: Id, ids: seq<Id>, generation: int, now: Time)
    requires AllIssued(t) && MayCreate(t, input, order, p, ids)
    ensures Created(t, Create(t, input, order, p, ids, generation, now), input, order, p, ids, generation, now)
  {
    NewJobsListed(input, order, p, ids, t.sequence, now);
    var added := NewJobs(input, order, p, ids, t.sequence, now);
    assert forall k :: k in t.jobs ==> k !in added;
  }

  lemma NewJobsListed(input: Submission, order: seq<string>, p: Id, ids: seq<Id>, sequence: nat, now: Time)
    requires |ids| == |order| && Distinct(ids) && forall n :: n in order ==> n in input.spec.jobs
    ensures var added := NewJobs(input, order, p, ids, sequence, now);
      && (forall k :: k in added <==> k in ids)
      && forall i :: 0 <= i < |ids| ==> added[ids[i]] == NewJob(input, p, order[i], sequence + 1 + i, now)
  {
    forall i | 0 <= i < |ids| ensures IndexOf(ids, ids[i]) == i {
    }
  }

  lemma CreatedRefs(t: Tables, t': Tables, input: Submission, order: seq<string>, p: Id, ids: seq<Id>, generation: int,
                    now: Time)
    requires Refs(t) && MayCreate(t, input, order, p, ids) && Created(t, t', input, order, p, ids, generation, now)
    ensures Refs(t')
  {
    CreatedPipelineRefs(t, t', input, order, p, ids, generation, now);
    forall k | k in t'.jobs ensures JobRefs(t', k) {
      assert k !in ids ==> JobRefs(t, k);
    }
    forall b | b in t'.attempts ensures AttemptRefs(t', b) {
      assert AttemptRefs(t, b);
    }
  }

  lemma CreatedPipelineRefs(t: Tables, t': Tables, input: Submission, order: seq<string>, p: Id, ids: seq<Id>,
                            generation: int, now: Time)
    requires Refs(t) && MayCreate(t, input, order, p, ids) && Created(t, t', input, order, p, ids, generation, now)
    ensures PipelinesRef(t')
    ensures forall j :: j in ids <==> Has(t', p, j)
  {
    forall j ensures j in ids <==> Has(t', p, j) {
      assert j in t.jobs ==> JobRefs(t, j);
    }
    forall q | q in t'.pipelines ensures PipelineRefs(t', q) {
      if q != p {
        assert PipelineRefs(t, q);
        assert forall k :: Has(t', q, k) == Has(t, q, k);
      }
    }
  }

  lemma CreatedPlans(t: Tables, t': Tables, input: Submission, order: seq<string>, p: Id, ids: seq<Id>, generation: int,
                     now: Time)
    requires Plans(t) && AllIssued(t) && MayCreate(t, input, order, p, ids)
    requires Created(t, t', input, order, p, ids, generation, now) && Planner.Plan(input.spec) == Some(order)
    ensures Plans(t')
  {
    hide FreshIds, NewJob;
    forall q | q in t'.pipelines ensures Planned(t', q) {
      if q != p {
        OldPlan(t, t', input, order, p, ids, generation, now, q);
      } else {
        NewPlan(t, t', input, order, p, ids, generation, now);
      }
    }
    hide Planned, Created, MayCreate;
  }

  lemma OldPlan(t: Tables, t': Tables, input: Submission, order: seq<string>, p: Id, ids: seq<Id>, generation: int,
                now: Time, q: Id)
    requires Plans(t) && MayCreate(t, input, order, p, ids)
    requires Created(t, t', input, order, p, ids, generation, now) && q in t.pipelines && q in t'.pipelines && q != p
    ensures Planned(t', q)
  {
    hide FreshIds, NewJob, NewPipeline, Planned;
    SamePlan(t, t', q);
  }

  lemma NewPlan(t: Tables, t': Tables, input: Submission, order: seq<string>, p: Id, ids: seq<Id>, generation: int,
                now: Time)
    requires MayCreate(t, input, order, p, ids) && p in t'.pipelines
    requires Created(t, t', input, order, p, ids, generation, now) && Planner.Plan(input.spec) == Some(order)
    ensures Planned(t', p)
  {
    assert |ids| == |order| && t'.pipelines[p].jobIDs == ids && t'.pipelines[p].config == input.spec;
    hide FreshIds, Created, MayCreate;
    forall i | 0 <= i < |ids|
      ensures ids[i] in t'.jobs && t'.jobs[ids[i]].name == order[i] && order[i] in input.spec.jobs
      ensures t'.jobs[ids[i]].spec == input.spec.jobs[order[i]]
    {
      NewlyPlanned(t, t', input, order, p, ids, generation, now, i);
    }
    PlannedInOrder(t', input, order, p, ids);
    hide Planned;
  }

  lemma PlannedInOrder(t: Tables, input: Submission, order: seq<string>, p: Id, ids: seq<Id>)
    requires p in t.pipelines && t.pipelines[p].jobIDs == ids && t.pipelines[p].config == input.spec
    requires Planner.Plan(input.spec) == Some(order) && |ids| == |order|
    requires forall i :: 0 <= i < |ids| ==>
      && ids[i] in t.jobs && t.jobs[ids[i]].name == order[i] && order[i] in input.spec.jobs
      && t.jobs[ids[i]].spec == input.spec.jobs[order[i]]
    ensures Planned(t, p)
  {
  }

  lemma NewlyPlanned(t: Tables, t': Tables, input: Submission, order: seq<string>, p: Id, ids: seq<Id>, generation: int,
                     now: Time, i: nat)
    requires MayCreate(t, input, order, p, ids) && Created(t, t', input, order, p, ids, generation, now) && i < |ids|
    ensures ids[i] in t'.jobs && t'.jobs[ids[i]].name == order[i] && order[i] in input.spec.jobs
    ensures t'.jobs[ids[i]].spec == input.spec.jobs[order[i]]
  {
    hide FreshIds, NewPipeline;
    assert order[i] in order;
  }

  lemma CreatedJobsFit(t: Tables, t': Tables, input: Submission, order: seq<string>, p: Id, ids: seq<Id>,
                       generation: int, now: Time)
    requires AllIssued(t) && AttemptsFit(t) && JobsFit(t) && MayCreate(t, input, order, p, ids)
    requires Created(t, t', input, order, p, ids, generation, now)
    ensures AttemptsFit(t') && JobsFit(t')
    ensures forall j :: j in ids ==> j in t'.jobs && t'.jobs[j].status == Queued
  {
    forall b | b in t'.attempts ensures AttemptOk(t', b) {
      assert AttemptOk(t, b);
    }
    forall k | k in t'.jobs ensures JobFits(t'.jobs[k]) {
      assert k !in ids ==> JobFits(t.jobs[k]);
    }
  }

  lemma CreatedStatuses(t: Tables, t': Tables, input: Submission, order: seq<string>, p: Id, ids: seq<Id>,
                        generation: int, now: Time)
    requires Refs(t) && Statuses(t) && MayCreate(t, input, order, p, ids)
    requires Created(t, t', input, order, p, ids, generation, now)
    ensures Statuses(t')
  {
    CreatedJobsFit(t, t', input, order, p, ids, generation, now);
    CreatedPipelineRefs(t, t', input, order, p, ids, generation, now);
    hide AttemptsFit, JobsFit, Refs, Fits, FreshIds;
    forall q | q in t'.pipelines ensures PipelineFits(t', q) {
      if q == p {
        NewBoard(t', p, ids);
      } else {
        assert PipelineFits(t, q);
        OldBoard(t, t', input, order, p, ids, generation, now, q);
      }
    }
    hide PipelineFits, Created, MayCreate;
  }

  lemma OldBoard(t: Tables, t': Tables, input: Submission, order: seq<string>, p: Id, ids: seq<Id>, generation: int,
                 now: Time, q: Id)
    requires MayCreate(t, input, order, p, ids) && Created(t, t', input, order, p, ids, generation, now) && q != p
    requires Refs(t)
    ensures Board(t', q) == Board(t, q)
  {
    hide Refs;
  }

  lemma NewBoard(t: Tables, p: Id, ids: seq<Id>)
    requires p in t.pipelines && t.pipelines[p].status == Queued && ids != []
    requires forall j :: j in ids <==> Has(t, p, j)
    requires forall j :: j in ids ==> j in t.jobs && t.jobs[j].status == Queued
    ensures PipelineFits(t, p)
  {
    assert Has(t, p, ids[0]) && ids[0] in Board(t, p);
    assert forall j :: j in Board(t, p) ==> Has(t, p, j);
  }

  lemma CreatedNeeds(t: Tables, t': Tables, input: Submission, order: seq<string>, p: Id, ids: seq<Id>, generation: int,
                     now: Time)
    requires NeedsHeld(t) && AllIssued(t) && MayCreate(t, input, order, p, ids)
    requires Created(t, t', input, order, p, ids, generation, now)
    ensures NeedsHeld(t')
  {
    forall k | k in t'.jobs && t'.jobs[k].attemptIDs != [] ensures NeedsMet(t', k) {
      assert NeedsMet(t, k);
      forall d | d in t'.jobs[k].spec.needs ensures NeedMet(t', t'.jobs[k].pipelineID, d) {
        var m :| Has(t, t.jobs[k].pipelineID, m) && t.jobs[m].name == d && t.jobs[m].status == Succeeded;
        assert Has(t', t.jobs[k].pipelineID, m);
      }
    }
  }

  lemma CreateKeeps(t: Tables, input: Submission, order: seq<string>, p: Id, ids: seq<Id>, generation: int, now: Time)
    requires Coherent(t) && MayCreate(t, input, order, p, ids) && Planner.Plan(input.spec) == Some(order)
    ensures Coherent(Create(t, input, order, p, ids, generation, now))
  {
    var t' := Create(t, input, order, p, ids, generation, now);
    CreateAdds(t, input, order, p, ids, generation, now);
    CreatedRefs(t, t', input, order, p, ids, generation, now);
    CreatedPlans(t, t', input, order, p, ids, generation, now);
    CreatedStatuses(t, t', input, order, p, ids, generation, now);
    CreatedNeeds(t, t', input, order, p, ids, generation, now);
  }

  // ---- Pruning ----

  // Finished pipelines leave with all their jobs and attempts, so nothing left behind dangles.
  lemma DropRefs(t: Tables, ps: set<Id>)
    requires Refs(t)
    ensures Refs(Drop(t, ps))
  {
    var t' := Drop(t, ps);
    forall p | p in t'.pipelines ensures PipelineRefs(t', p) {
      assert PipelineRefs(t, p);
      assert forall k :: Has(t', p, k) == Has(t, p, k);
    }
    forall k | k in t'.jobs ensures JobRefs(t', k) {
      assert JobRefs(t, k);
    }
    forall b | b in t'.attempts ensures AttemptRefs(t', b) {
      assert AttemptRefs(t, b);
      assert JobRefs(t, t.attempts[b].jobID);
    }
  }

  lemma DropKeeps(t: Tables, ps: set<Id>)
    requires Coherent(t)
    ensures Coherent(Drop(t, ps))
  {
    DropRefs(t, ps);
    DropPlans(t, ps);
    DropStatuses(t, ps);
    DropNeeds(t, ps);
  }

  lemma DropPlans(t: Tables, ps: set<Id>)
    requires Plans(t) && PipelinesRef(t)
    ensures Plans(Drop(t, ps))
  {
    var t' := Drop(t, ps);
    forall p | p in t'.pipelines ensures Planned(t', p) {
      assert Planned(t, p) && PipelineRefs(t, p);
      assert forall i :: 0 <= i < |t.pipelines[p].jobIDs| ==> Has(t, p, t.pipelines[p].jobIDs[i]);
    }
  }

  lemma DropStatuses(t: Tables, ps: set<Id>)
    requires Statuses(t) && AttemptsRef(t) && JobsRef(t)
    ensures Statuses(Drop(t, ps))
  {
    var t' := Drop(t, ps);
    forall b | b in t'.attempts ensures AttemptOk(t', b) {
      assert AttemptOk(t, b) && AttemptRefs(t, b);
      assert JobRefs(t, t.attempts[b].jobID);
    }
    forall k | k in t'.jobs ensures JobFits(t'.jobs[k]) {
      assert JobFits(t.jobs[k]);
    }
    forall p | p in t'.pipelines ensures PipelineFits(t', p) {
      assert PipelineFits(t, p);
      assert Board(t', p) == Board(t, p);
    }
  }

  lemma DropNeeds(t: Tables, ps: set<Id>)
    requires NeedsHeld(t)
    ensures NeedsHeld(Drop(t, ps))
  {
    var t' := Drop(t, ps);
    forall k | k in t'.jobs && t'.jobs[k].attemptIDs != [] ensures NeedsMet(t', k) {
      assert NeedsMet(t, k);
      forall d | d in t'.jobs[k].spec.needs ensures NeedMet(t', t'.jobs[k].pipelineID, d) {
        var m :| Has(t, t.jobs[k].pipelineID, m) && t.jobs[m].name == d && t.jobs[m].status == Succeeded;
        assert Has(t', t.jobs[k].pipelineID, m);
      }
    }
  }
}
