// What never changes back: records that ended stay as they are, work only moves towards its end,
// and identifiers that are gone do not return.

module Evolution {
  import opened Domain
  import opened TableModel
  import opened Model
  import opened Coherence
  import opened Steps
  import Planner

  // How much a job can still do: it falls with every change and is zero once the job ended.
  function Rank(job: Job): int {
    var left := 3 * (RetryLimit(job.spec) - |job.attemptIDs|);
    match job.status
    case Queued => left
    case Leased => left + 2
    case Running => left + 1
    case _ => 0
  }

  predicate SameIdentity(x: Attempt, y: Attempt) {
    && y.jobID == x.jobID && y.number == x.number && y.workerID == x.workerID
    && y.token == x.token && y.createdAt == x.createdAt
  }

  predicate AttemptEvolves(x: Attempt, y: Attempt) {
    SameIdentity(x, y) && (IsTerminal(x.status) ==> y == x)
  }

  predicate JobEvolves(x: Job, y: Job) {
    && y == x.(status := y.status, attemptIDs := y.attemptIDs) && x.attemptIDs <= y.attemptIDs
    && (IsTerminal(x.status) ==> y == x) && (y != x ==> Rank(y) < Rank(x))
  }

  predicate PipelineEvolves(x: Pipeline, y: Pipeline) {
    && y == x.(status := y.status, checkRun := y.checkRun, checkState := y.checkState)
    && (IsTerminal(x.status) ==> y.status == x.status)
  }

  // Identifiers are only ever added, and one that is no longer in use is never used again.
  ghost predicate NoReturn(t: Tables, t': Tables) {
    && t.issued <= t'.issued
    && (forall x :: x in t.issued && x !in t.pipelines ==> x !in t'.pipelines)
    && (forall x :: x in t.issued && x !in t.jobs ==> x !in t'.jobs)
    && (forall x :: x in t.issued && x !in t.attempts ==> x !in t'.attempts)
  }

  ghost predicate Evolves(t: Tables, t': Tables) {
    && NoReturn(t, t')
    && (forall p :: p in t.pipelines && p in t'.pipelines ==> PipelineEvolves(t.pipelines[p], t'.pipelines[p]))
    && (forall j :: j in t.jobs && j in t'.jobs ==> JobEvolves(t.jobs[j], t'.jobs[j]))
    && (forall a :: a in t.attempts && a in t'.attempts ==> AttemptEvolves(t.attempts[a], t'.attempts[a]))
  }

  lemma EvolvesTransitive(t: Tables, t1: Tables, t2: Tables)
    requires AllIssued(t) && Evolves(t, t1) && Evolves(t1, t2)
    ensures Evolves(t, t2)
  {
    forall p | p in t.pipelines && p in t2.pipelines ensures PipelineEvolves(t.pipelines[p], t2.pipelines[p]) {
      assert p in t1.issued;
      assert p in t1.pipelines;
    }
    forall j | j in t.jobs && j in t2.jobs ensures JobEvolves(t.jobs[j], t2.jobs[j]) {
      assert j in t1.issued;
      assert j in t1.jobs;
    }
    forall a | a in t.attempts && a in t2.attempts ensures AttemptEvolves(t.attempts[a], t2.attempts[a]) {
      assert a in t1.issued;
      assert a in t1.attempts;
    }
  }

  lemma UnfinishedHasRank(job: Job)
    requires JobFits(job)
    ensures Rank(job) >= 0 && (Rank(job) == 0 <==> IsTerminal(job.status))
  {
  }

  // ---- One operation at a time ----

  lemma CancelJobsEvolves(t: Tables, ps: set<Id>, now: Time)
    requires JobsFit(t)
    ensures Evolves(t, CancelJobs(t, ps, now))
  {
    hide JobEvolves, AttemptEvolves, Doomed, DoomedJobs;
    var t' := CancelJobs(t, ps, now);
    forall j | j in t.jobs && j in t'.jobs ensures JobEvolves(t.jobs[j], t'.jobs[j]) {
      assert JobFits(t.jobs[j]);
      EndingEvolves(t.jobs[j], ps, t, j);
    }
    forall a | a in t.attempts && a in t'.attempts ensures AttemptEvolves(t.attempts[a], t'.attempts[a]) {
      CancellingEvolves(t.attempts[a], now);
    }
    hide JobFits;
  }

  lemma EndingEvolves(job: Job, ps: set<Id>, t: Tables, j: Id)
    requires JobFits(job) && j in t.jobs && t.jobs[j] == job
    ensures JobEvolves(job, job) && (Doomed(t, ps, j) ==> JobEvolves(job, job.(status := Cancelled)))
  {
  }

  lemma CancellingEvolves(record: Attempt, now: Time)
    ensures AttemptEvolves(record, record)
    ensures IsActive(record.status) ==> AttemptEvolves(record, CancelledRecord(record, now))
  {
  }

  lemma StatusEvolves(t: Tables, p: Id, status: Status)
    requires p in t.pipelines && !IsTerminal(t.pipelines[p].status)
    ensures Evolves(t, WithStatus(t, p, status))
  {
  }

  lemma MarkEvolves(t: Tables, ps: set<Id>)
    requires forall p :: p in ps && p in t.pipelines ==> !IsTerminal(t.pipelines[p].status)
    ensures Evolves(t, MarkCancelled(t, ps))
  {
  }

  lemma CancelEvolves(t: Tables, ps: set<Id>, now: Time)
    requires AllIssued(t) && JobsFit(t)
    requires forall p :: p in ps && p in t.pipelines ==> !IsTerminal(t.pipelines[p].status)
    ensures Evolves(t, CancelPipelines(t, ps, now))
  {
    var t1 := MarkCancelled(t, ps);
    MarkEvolves(t, ps);
    CancelJobsEvolves(t1, ps, now);
    hide Evolves, CancelJobs;
    EvolvesTransitive(t, t1, CancelPipelines(t, ps, now));
  }

  lemma MoveEvolves(t: Tables, a: Id, record: Attempt, status: Status)
    requires Located(t, a) && !IsTerminal(t.attempts[a].status) && SameIdentity(t.attempts[a], record)
    requires var job := t.jobs[t.attempts[a].jobID];
      !IsTerminal(job.status) && (status != job.status ==> Rank(job.(status := status)) < Rank(job))
    ensures Evolves(t, Move(t, a, record, status))
  {
    var t', j := Move(t, a, record, status), t.attempts[a].jobID;
    var job' := t.jobs[j].(status := status);
    assert t' == t.(jobs := t.jobs[j := job'], attempts := t.attempts[a := record]);
    assert JobEvolves(t.jobs[j], job') && AttemptEvolves(t.attempts[a], record);
    hide Move, JobEvolves, AttemptEvolves, PipelineEvolves;
    StaysItself();
  }

  lemma StaysItself()
    ensures forall x :: PipelineEvolves(x, x)
    ensures forall x :: JobEvolves(x, x)
    ensures forall x :: AttemptEvolves(x, x)
  {
  }

  lemma SettleEvolves(t: Tables, a: Id, record: Attempt)
    requires Coherent(t) && Finishes(t, a, record) && SameIdentity(t.attempts[a], record)
    ensures Located(t, a) && Evolves(t, Settle(t, a, record))
  {
    ActiveIsLast(t, a);
    assert JobFits(t.jobs[t.attempts[a].jobID]);
    MoveEvolves(t, a, record, record.status);
  }

  lemma CompleteEvolves(t: Tables, a: Id, record: Attempt, now: Time)
    requires Coherent(t) && Finishes(t, a, record) && SameIdentity(t.attempts[a], record)
    ensures Located(t, a) && Evolves(t, Complete(t, a, record, now))
  {
    hide Coherent, Evolves, UpdateTables, Settle, Finishes, JobsFit;
    SettledFits(t, a, record);
    SettleEvolves(t, a, record);
    var p := PipelineOf(t, a);
    var t1 := Settle(t, a, record);
    UpdateEvolves(t1, p, now);
    EvolvesTransitive(t, t1, Complete(t, a, record, now));
  }

  lemma SettledFits(t: Tables, a: Id, record: Attempt)
    requires Coherent(t) && Finishes(t, a, record)
    ensures Located(t, a) && t.pipelines[PipelineOf(t, a)].status == Running
    ensures AllIssued(t) && AllIssued(Settle(t, a, record)) && JobsFit(Settle(t, a, record))
    ensures Settle(t, a, record).pipelines == t.pipelines
  {
    ActiveIsLast(t, a);
    var j, t1 := t.attempts[a].jobID, Settle(t, a, record);
    assert JobFits(t.jobs[j]);
    assert AllIssued(t) && JobsFit(t);
    hide Coherent;
    MovedJobsFit(t, t1, a, j, record, record.status);
    hide JobsFit, JobFits;
  }

  lemma UpdateEvolves(t: Tables, p: Id, now: Time)
    requires AllIssued(t) && JobsFit(t) && p in t.pipelines && !IsTerminal(t.pipelines[p].status)
    ensures Evolves(t, UpdateTables(t, p, now))
  {
    if AnyFailed(t, p) {
      var t1 := WithStatus(t, p, Failed);
      StatusEvolves(t, p, Failed);
      CancelJobsEvolves(t1, {p}, now);
      hide Evolves, CancelJobs;
      EvolvesTransitive(t, t1, UpdateTables(t, p, now));
    } else {
      StatusEvolves(t, p, if AllSucceeded(t, p) then Succeeded else Running);
    }
  }

  lemma SweepOneEvolves(t: Tables, a: Id, now: Time)
    requires Coherent(t)
    ensures Evolves(t, SweepOne(t, a, now))
  {
    if Expired(t, a, now) {
      ActiveIsLast(t, a);
      if Exhausted(t, a, now) {
        CompleteEvolves(t, a, ExhaustedRecord(t.attempts[a], now), now);
      } else {
        assert JobFits(t.jobs[t.attempts[a].jobID]);
        MoveEvolves(t, a, LostRecord(t.attempts[a], now), Queued);
      }
      hide Evolves, Complete;
    }
  }

  lemma {:induction false} SweepEvolves(t: Tables, order: seq<Id>, now: Time)
    requires Coherent(t)
    ensures Evolves(t, Sweep(t, order, now))
  {
    if order != [] {
      var t1 := Sweep(t, order[..|order| - 1], now);
      SweepEvolves(t, order[..|order| - 1], now);
      SweepKeeps(t, order[..|order| - 1], now);
      SweepOneEvolves(t1, order[|order| - 1], now);
      hide Evolves, SweepOne;
      EvolvesTransitive(t, t1, Sweep(t, order, now));
    }
  }

  lemma RenewEvolves(t: Tables, a: Id, ttl: int, now: Time)
    requires Coherent(t) && a in t.attempts && IsActive(t.attempts[a].status)
    ensures Located(t, a) && Evolves(t, Renew(t, a, ttl, now))
  {
    ActiveIsLast(t, a);
    hide Coherent;
    if t.attempts[a].status == Leased {
      MoveEvolves(t, a, RenewedRecord(t.attempts[a], ttl, now), Running);
    } else {
      RecordEvolves(t, a, RenewedRecord(t.attempts[a], ttl, now));
    }
    hide Evolves, Move, WithAttempt;
  }

  lemma RecordEvolves(t: Tables, a: Id, record: Attempt)
    requires a in t.attempts && AttemptEvolves(t.attempts[a], record)
    ensures Evolves(t, WithAttempt(t, a, record))
  {
  }

  lemma LeaseEvolves(t: Tables, j: Id, w: Id, a: Id, token: string, ttl: int, now: Time)
    requires Coherent(t) && MayLease(t, j, a)
    ensures Evolves(t, Lease(t, j, w, a, token, ttl, now))
  {
    UnfinishedPipeline(t, j);
    assert JobFits(t.jobs[j]);
    hide Coherent, Runnable, Lease;
    LeaseAdds(t, j, w, a, token, ttl, now);
  }

  lemma LeaseAdds(t: Tables, j: Id, w: Id, a: Id, token: string, ttl: int, now: Time)
    requires j in t.jobs && t.jobs[j].status == Queued && JobFits(t.jobs[j]) && a !in t.issued && AllIssued(t)
    requires t.jobs[j].pipelineID in t.pipelines && !IsTerminal(t.pipelines[t.jobs[j].pipelineID].status)
    ensures Evolves(t, Lease(t, j, w, a, token, ttl, now))
  {
    hide AllIssued, JobEvolves, PipelineEvolves, AttemptEvolves, LeasedJob, NewAttempt;
    var p := t.jobs[j].pipelineID;
    Unused(t, a);
    StaysItself();
    LeasedEvolves(t.jobs[j], a);
    StartedEvolves(t.pipelines[p]);
  }

  lemma LeasedEvolves(job: Job, a: Id)
    requires job.status == Queued && JobFits(job)
    ensures JobEvolves(job, LeasedJob(job, a))
  {
  }

  lemma StartedEvolves(q: Pipeline)
    requires !IsTerminal(q.status)
    ensures PipelineEvolves(q, q.(status := Running))
  {
  }

  lemma Unused(t: Tables, a: Id)
    requires AllIssued(t) && a !in t.issued
    ensures a !in t.pipelines && a !in t.jobs && a !in t.attempts
  {
  }

  lemma CreateEvolves(t: Tables, input: Submission, order: seq<string>, p: Id, ids: seq<Id>, generation: int, now: Time)
    requires AllIssued(t) && MayCreate(t, input, order, p, ids)
    ensures Evolves(t, Create(t, input, order, p, ids, generation, now))
  {
    CreateAdds(t, input, order, p, ids, generation, now);
    hide Create;
  }

  lemma DropEvolves(t: Tables, ps: set<Id>)
    ensures Evolves(t, Drop(t, ps))
  {
  }

  // ---- Every step ----

  lemma AdvanceEvolves(s: State, input: Submission, now: Time)
    requires Coherent(s.tables)
    ensures Evolves(s.tables, Advance(s, input, now).tables) && AllIssued(Advance(s, input, now).tables)
    ensures Advance(s, input, now).tables.issued == s.tables.issued
  {
    AdvanceTables(s, input, now);
    Reflexive(s.tables);
    CancelEvolves(s.tables, Superseded(s.tables, input), now);
    CancelIssuesNothing(s.tables, Superseded(s.tables, input), now);
    CancelPipelinesKeeps(s.tables, Superseded(s.tables, input), now);
    hide Advance, CancelPipelines, Evolves;
  }

  lemma AcceptEvolves(s: State, input: Submission, p: Id, ids: seq<Id>, now: Time)
    requires Coherent(s.tables) && IdsFor(input, ids) && FreshIds(s.tables, p, ids) && WellFormed(input)
    ensures Evolves(s.tables, Accept(s, input, p, ids, now).tables)
  {
    hide Evolves, Accept, Advance, Create, Coherent, GenerationOf;
    AcceptTables(s, input, p, ids, now);
    AdvanceEvolves(s, input, now);
    if !input.closed {
      var t1 := Advance(s, input, now).tables;
      var order := Planner.Plan(input.spec).value;
      CreateEvolves(t1, input, order, p, ids, GenerationOf(s, input), now);
      assert AllIssued(s.tables) by {
        CoherentIssued(s.tables);
      }
      EvolvesTransitive(s.tables, t1, Create(t1, input, order, p, ids, GenerationOf(s, input), now));
    }
  }

  lemma CoherentIssued(t: Tables)
    requires Coherent(t)
    ensures AllIssued(t)
  {
  }

  lemma SubmitEvolves(s: State, input: Submission, p: Id, ids: seq<Id>, pick: Id, now: Time)
    requires Coherent(s.tables) && Enabled(s, SubmitStep(input, p, ids, pick, now))
    ensures Evolves(s.tables, Submit(s, input, p, ids, pick, now).tables)
  {
    hide Coherent, Evolves, Accept, Prior, EventTime;
    Reflexive(s.tables);
    if Classify(s, input, now) == Fresh {
      AcceptEvolves(s, input, p, ids, now);
    }
  }

  lemma ScheduleEvolves(s: State, order: seq<Id>, grant: Option<Grant>, a: Id, token: string, now: Time)
    requires Coherent(s.tables) && Enabled(s, ScheduleStep(order, grant, a, token, now))
    ensures Evolves(s.tables, Schedule(s, order, grant, a, token, now).tables)
  {
    SweepKeeps(s.tables, order, now);
    SweepEvolves(s.tables, order, now);
    SweepsIssueNothing(s.tables, order, now);
    var s1 := SweepState(s, order, now);
    if grant.Some? {
      GrantIsRunnable(s1, grant.value, now);
      hide Lease, IsGrant, Runnable, Evolves, Sweep;
      LeaseEvolves(s1.tables, grant.value.job, grant.value.worker, a, token, s.config.leaseTTL, now);
      EvolvesTransitive(s.tables, s1.tables, Schedule(s, order, grant, a, token, now).tables);
    }
  }

  lemma ReconcileEvolves(s: State, order: seq<Id>, now: Time)
    requires Coherent(s.tables)
    ensures Evolves(s.tables, Reconcile(s, order, now).tables)
  {
    SweepEvolves(s.tables, order, now);
    var s2 := AgePreviews(SweepState(s, order, now), now);
    hide Evolves, Prunable, Drop, Sweep;
    DropEvolves(s2.tables, set p | p in s2.tables.pipelines && Prunable(s2, p, now));
    EvolvesTransitive(s.tables, s2.tables, Reconcile(s, order, now).tables);
  }

  lemma FinishEvolves(s: State, a: Id, token: string, report: Report, now: Time)
    requires Coherent(s.tables)
    ensures Evolves(s.tables, Finish(s, a, token, report, now).tables)
  {
    if LeaseHeld(s.tables, a, token, now) {
      var record := CommittedRecord(s.tables.attempts[a], report, now);
      CommitTables(s, a, record, now);
      hide Evolves, Commit, Complete;
      CompleteEvolves(s.tables, a, record, now);
    }
  }

  lemma CancelStepEvolves(s: State, j: Id, now: Time)
    requires Coherent(s.tables)
    ensures Evolves(s.tables, Cancel(s, j, now).tables)
  {
    hide Evolves, CancelPipelines;
    Reflexive(s.tables);
    if MayCancel(s.tables, j) {
      UnfinishedPipeline(s.tables, j);
      assert JobsFit(s.tables) && AllIssued(s.tables);
      hide Coherent, JobsFit, AllIssued;
      CancelEvolves(s.tables, {s.tables.jobs[j].pipelineID}, now);
    }
  }

  lemma BeatEvolves(s: State, a: Id, token: string, now: Time)
    requires Coherent(s.tables)
    ensures Evolves(s.tables, Beat(s, a, token, now).tables)
  {
    if LeaseHeld(s.tables, a, token, now) {
      hide Evolves, Renew;
      RenewEvolves(s.tables, a, s.config.leaseTTL, now);
    }
  }

  lemma CheckEvolves(s: State, p: Id, check: int, state: Status)
    ensures Evolves(s.tables, RecordCheck(s, p, check, state).tables)
  {
    if p in s.tables.pipelines {
      CheckTablesEvolve(s.tables, p, s.tables.pipelines[p].(checkRun := check, checkState := state));
    }
    Reflexive(s.tables);
    hide Evolves;
  }

  lemma CheckTablesEvolve(t: Tables, p: Id, q: Pipeline)
    requires p in t.pipelines && PipelineEvolves(t.pipelines[p], q)
    ensures Evolves(t, WithPipeline(t, p, q))
  {
    StaysItself();
    hide PipelineEvolves, JobEvolves, AttemptEvolves;
  }

  lemma Reflexive(t: Tables)
    ensures Evolves(t, t)
  {
  }

  lemma StepEvolves(s: State, step: Step)
    requires Coherent(s.tables) && Enabled(s, step)
    ensures Evolves(s.tables, Apply(s, step).tables)
  {
    hide Coherent, Evolves, Enabled, Submit, Schedule, Beat, Finish, Cancel, Reconcile, Ensure, Observe, Register,
         WorkerBeat, RecordCheck;
    match step
    case SubmitStep(input, p, ids, pick, now) => SubmitEvolves(s, input, p, ids, pick, now);
    case ScheduleStep(order, grant, a, token, now) => ScheduleEvolves(s, order, grant, a, token, now);
    case BeatStep(a, token, now) => BeatEvolves(s, a, token, now);
    case FinishStep(a, token, report, now) => FinishEvolves(s, a, token, report, now);
    case CancelStep(j, now) => CancelStepEvolves(s, j, now);
    case ReconcileStep(order, now) => ReconcileEvolves(s, order, now);
    case CheckStep(p, check, state, now) => CheckEvolves(s, p, check, state);
    case _ =>
      QuietStep(s, step);
      Reflexive(s.tables);
  }

  // Over any stretch of a run.
  lemma {:induction false} RunEvolves(states: seq<State>, steps: seq<Step>, i: nat, k: nat)
    requires Run(states, steps) && i <= k < |states|
    ensures Evolves(states[i].tables, states[k].tables)
  {
    hide Evolves, Plans, Statuses, NeedsHeld, PipelinesRef, JobsRef, AttemptsRef, Apply, Enabled;
    if i == k {
      Reflexive(states[i].tables);
    } else {
      RunEvolves(states, steps, i, k - 1);
      CoherentThroughout(states, steps, i);
      CoherentThroughout(states, steps, k - 1);
      assert Taken(states, steps, k - 1);
      StepEvolves(states[k - 1], steps[k - 1]);
      EvolvesTransitive(states[i].tables, states[k - 1].tables, states[k].tables);
    }
  }
}
