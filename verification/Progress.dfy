// Dependencies: no pipeline is ever stuck, and no attempt starts before what it needs has succeeded.

module Progress {
  import opened Domain
  import opened TableModel
  import opened Model
  import opened Coherence
  import opened Steps
  import opened Evolution
  import opened Capacity
  import Planner

  // ---- Deadlock freedom ----

  // Position i of a plan only needs names at earlier positions.
  lemma NeedsComeEarlier(t: Tables, p: Id, i: nat, need: string) returns (k: nat)
    requires p in t.pipelines && Planned(t, p) && i < |t.pipelines[p].jobIDs|
    requires t.pipelines[p].jobIDs[i] in t.jobs && need in t.jobs[t.pipelines[p].jobIDs[i]].spec.needs
    ensures k < i && t.pipelines[p].jobIDs[k] in t.jobs && t.jobs[t.pipelines[p].jobIDs[k]].name == need
  {
    var q := t.pipelines[p];
    var order := Planner.Plan(q.config).value;
    assert Planner.Ready(q.config.jobs, order[..i], order[i]);
    k :| 0 <= k < i && order[..i][k] == need;
  }

  // The first job of the plan that has not succeeded is active or can run.
  lemma FirstUnfinished(t: Tables, p: Id, i: nat)
    requires Coherent(t) && p in t.pipelines && !IsTerminal(t.pipelines[p].status) && i < |t.pipelines[p].jobIDs|
    requires forall k :: 0 <= k < i ==>
      t.pipelines[p].jobIDs[k] in t.jobs && t.jobs[t.pipelines[p].jobIDs[k]].status == Succeeded
    requires t.pipelines[p].jobIDs[i] in t.jobs && t.jobs[t.pipelines[p].jobIDs[i]].status != Succeeded
    ensures var j := t.pipelines[p].jobIDs[i]; Has(t, p, j) && (IsActive(t.jobs[j].status) || Runnable(t, j))
  {
    var j := t.pipelines[p].jobIDs[i];
    assert PipelineRefs(t, p) && Planned(t, p);
    hide Planned;
    assert Has(t, p, j);
    InPlayOrEnded(t, p, j);
    hide Coherent;
    if t.jobs[j].status == Queued {
      forall d | d in t.jobs[j].spec.needs ensures NeedMet(t, p, d) {
        var k := NeedsComeEarlier(t, p, i, d);
        assert Has(t, p, t.pipelines[p].jobIDs[k]);
      }
    }
  }

  lemma InPlayOrEnded(t: Tables, p: Id, j: Id)
    requires Coherent(t) && p in t.pipelines && !IsTerminal(t.pipelines[p].status) && Has(t, p, j)
    ensures t.jobs[j].status == Succeeded || t.jobs[j].status == Queued || IsActive(t.jobs[j].status)
  {
    assert PipelineFits(t, p) && j in Board(t, p);
    hide Coherent;
  }

  lemma {:induction false} SearchUnfinished(t: Tables, p: Id, i: nat) returns (j: Id)
    requires Coherent(t) && p in t.pipelines && !IsTerminal(t.pipelines[p].status) && i <= |t.pipelines[p].jobIDs|
    requires forall k :: 0 <= k < i ==>
      t.pipelines[p].jobIDs[k] in t.jobs && t.jobs[t.pipelines[p].jobIDs[k]].status == Succeeded
    requires exists k :: Has(t, p, k) && t.jobs[k].status != Succeeded
    ensures Has(t, p, j) && (IsActive(t.jobs[j].status) || Runnable(t, j))
    decreases |t.pipelines[p].jobIDs| - i
  {
    assert PipelineRefs(t, p);
    hide Coherent, Runnable;
    var ids := t.pipelines[p].jobIDs;
    var x :| Has(t, p, x) && t.jobs[x].status != Succeeded;
    assert x in ids;
    assert Has(t, p, ids[i]);
    if t.jobs[ids[i]].status != Succeeded {
      FirstUnfinished(t, p, i);
      j := ids[i];
    } else {
      j := SearchUnfinished(t, p, i + 1);
    }
  }

  // Every unfinished pipeline has a job that is being executed or that could be: nothing waits for ever on
  // a need that cannot succeed any more.
  lemma NeverStuck(t: Tables, p: Id) returns (j: Id)
    requires Coherent(t) && p in t.pipelines && !IsTerminal(t.pipelines[p].status)
    ensures Has(t, p, j) && (IsActive(t.jobs[j].status) || Runnable(t, j))
  {
    assert PipelineFits(t, p) && PipelineRefs(t, p);
    var board := Board(t, p);
    var k :| k in board && board[k] != Succeeded;
    assert Has(t, p, k);
    hide Coherent, Runnable;
    j := SearchUnfinished(t, p, 0);
  }

  lemma NeverStuckThroughout(states: seq<State>, steps: seq<Step>, i: nat, p: Id) returns (j: Id)
    requires Run(states, steps) && i < |states| && p in states[i].tables.pipelines
    requires !IsTerminal(states[i].tables.pipelines[p].status)
    ensures Has(states[i].tables, p, j) && (IsActive(states[i].tables.jobs[j].status) || Runnable(states[i].tables, j))
  {
    CoherentThroughout(states, steps, i);
    hide Run, Runnable, Coherent;
    j := NeverStuck(states[i].tables, p);
  }

  // ---- Times ----

  // Attempts were created, and ended, no later than now.
  predicate Dated(a: Attempt, now: Time) {
    a.createdAt <= now && (IsTerminal(a.status) ==> a.createdAt <= a.completedAt <= now)
  }

  ghost predicate AllDated(t: Tables, now: Time) {
    forall a :: a in t.attempts ==> Dated(t.attempts[a], now)
  }

  // b is the successful attempt of the job named need, over before a was created.
  ghost predicate Precedes(t: Tables, b: Id, a: Id, need: string) {
    && a in t.attempts && b in t.attempts && t.attempts[a].jobID in t.jobs && t.attempts[b].jobID in t.jobs
    && t.jobs[t.attempts[b].jobID].pipelineID == t.jobs[t.attempts[a].jobID].pipelineID
    && t.jobs[t.attempts[b].jobID].name == need
    && t.attempts[b].status == Succeeded && t.attempts[b].completedAt <= t.attempts[a].createdAt
  }

  ghost predicate Caused(t: Tables, a: Id) {
    a in t.attempts && t.attempts[a].jobID in t.jobs
    && forall need :: need in t.jobs[t.attempts[a].jobID].spec.needs ==> exists b :: Precedes(t, b, a, need)
  }

  ghost predicate Causal(t: Tables) {
    forall a {:trigger Caused(t, a)} :: a in t.attempts ==> Caused(t, a)
  }

  // An attempt is retained as long as its pipeline is.
  lemma Retained(t: Tables, t': Tables, b: Id)
    requires Coherent(t) && Coherent(t') && Evolves(t, t') && b in t.attempts && t.attempts[b].jobID in t.jobs
    requires t.jobs[t.attempts[b].jobID].pipelineID in t.pipelines
    requires t.jobs[t.attempts[b].jobID].pipelineID in t'.pipelines
    ensures b in t'.attempts && t.attempts[b].jobID in t'.jobs
  {
    hide NoReturn, Statuses, Plans, NeedsHeld, Rank;
    var j := t.attempts[b].jobID;
    var p := t.jobs[j].pipelineID;
    assert AttemptRefs(t, b) && PipelineRefs(t, p) && PipelineRefs(t', p);
    assert Has(t, p, j);
    assert Has(t', p, j);
    assert JobRefs(t', j);
    assert JobEvolves(t.jobs[j], t'.jobs[j]);
    assert t'.jobs[j].attemptIDs[t.attempts[b].number - 1] == b;
  }

  lemma StillPrecedes(t: Tables, t': Tables, b: Id, a: Id, need: string)
    requires Coherent(t) && Coherent(t') && Evolves(t, t') && Precedes(t, b, a, need) && a in t'.attempts
    ensures Precedes(t', b, a, need)
  {
    assert AttemptRefs(t', a);
    var j := t.attempts[a].jobID;
    assert AttemptEvolves(t.attempts[a], t'.attempts[a]);
    assert JobRefs(t', j) && JobRefs(t, j) && JobRefs(t, t.attempts[b].jobID);
    assert JobEvolves(t.jobs[j], t'.jobs[j]);
    Retained(t, t', b);
    hide Coherent, NoReturn, Rank;
    assert AttemptEvolves(t.attempts[b], t'.attempts[b]);
    assert JobEvolves(t.jobs[t.attempts[b].jobID], t'.jobs[t.attempts[b].jobID]);
  }

  lemma StaysCaused(t: Tables, t': Tables, a: Id)
    requires Coherent(t) && Coherent(t') && Evolves(t, t') && Caused(t, a) && a in t'.attempts
    ensures Caused(t', a)
  {
    assert AttemptRefs(t', a);
    var j := t.attempts[a].jobID;
    assert JobEvolves(t.jobs[j], t'.jobs[j]);
    assert AttemptEvolves(t.attempts[a], t'.attempts[a]);
    hide Coherent, Evolves, Rank;
    forall need | need in t'.jobs[j].spec.needs ensures exists b :: Precedes(t', b, a, need) {
      var b :| Precedes(t, b, a, need);
      StillPrecedes(t, t', b, a, need);
    }
  }

  lemma StaysCausal(t: Tables, t': Tables)
    requires Coherent(t) && Coherent(t') && Evolves(t, t') && Causal(t) && t'.attempts.Keys <= t.attempts.Keys
    ensures Causal(t')
  {
    hide Coherent, Evolves;
    forall a | a in t'.attempts ensures Caused(t', a) {
      assert Caused(t, a);
      StaysCaused(t, t', a);
    }
  }

  // A need that is met was met by an attempt that is over.
  lemma MetBefore(t: Tables, p: Id, need: string, now: Time) returns (b: Id)
    requires Coherent(t) && AllDated(t, now) && NeedMet(t, p, need)
    ensures b in t.attempts && t.attempts[b].jobID in t.jobs && t.jobs[t.attempts[b].jobID].pipelineID == p
    ensures t.jobs[t.attempts[b].jobID].name == need && t.attempts[b].status == Succeeded
    ensures t.attempts[b].completedAt <= now
  {
    var k :| Has(t, p, k) && t.jobs[k].name == need && t.jobs[k].status == Succeeded;
    assert JobRefs(t, k) && JobFits(t.jobs[k]);
    b := t.jobs[k].attemptIDs[|t.jobs[k].attemptIDs| - 1];
    assert AttemptOk(t, b);
  }

  lemma LeaseIsCaused(t: Tables, j: Id, w: Id, a: Id, token: string, ttl: int, now: Time)
    requires Coherent(t) && MayLease(t, j, a) && AllDated(t, now)
    ensures Caused(Lease(t, j, w, a, token, ttl, now), a)
  {
    var t' := Lease(t, j, w, a, token, ttl, now);
    assert a !in t.attempts;
    forall need | need in t.jobs[j].spec.needs ensures exists b :: Precedes(t', b, a, need) {
      assert NeedMet(t, t.jobs[j].pipelineID, need);
      hide Coherent, NeedMet, AllDated;
      var b := MetBefore(t, t.jobs[j].pipelineID, need, now);
      assert Precedes(t', b, a, need);
    }
    hide Coherent, Runnable, AllDated;
  }

  lemma LeaseStaysCausal(t: Tables, j: Id, w: Id, a: Id, token: string, ttl: int, now: Time)
    requires Coherent(t) && MayLease(t, j, a) && AllDated(t, now) && Causal(t)
    ensures Causal(Lease(t, j, w, a, token, ttl, now))
  {
    var t' := Lease(t, j, w, a, token, ttl, now);
    LeaseKeeps(t, j, w, a, token, ttl, now);
    LeaseEvolves(t, j, w, a, token, ttl, now);
    LeaseIsCaused(t, j, w, a, token, ttl, now);
    assert t'.attempts.Keys == t.attempts.Keys + {a};
    hide Coherent, Evolves, Lease, MayLease, Caused;
    forall b | b in t'.attempts ensures Caused(t', b) {
      if b != a {
        assert Caused(t, b);
        StaysCaused(t, t', b);
      }
    }
  }

  // What changed was stamped with the time of the change.
  ghost predicate Stamped(t: Tables, t': Tables, now: Time) {
    forall a :: a in t'.attempts ==> StampedRecord(t, t'.attempts[a], a, now)
  }

  ghost predicate StampedRecord(t: Tables, y: Attempt, a: Id, now: Time) {
    if a in t.attempts
    then y.createdAt == t.attempts[a].createdAt && (y == t.attempts[a] || !IsTerminal(y.status) || y.completedAt == now)
    else y.createdAt == now && (IsTerminal(y.status) ==> y.completedAt == now)
  }

  lemma StampedTransitive(t: Tables, t1: Tables, t2: Tables, now: Time)
    requires Stamped(t, t1, now) && Stamped(t1, t2, now) && t.attempts.Keys <= t1.attempts.Keys
    ensures Stamped(t, t2, now)
  {
  }

  lemma StampedIsDated(t: Tables, t': Tables, before: Time, now: Time)
    requires AllDated(t, before) && Stamped(t, t', now) && before <= now
    ensures AllDated(t', now)
  {
  }

  lemma CancelStamps(t: Tables, ps: set<Id>, now: Time)
    ensures Stamped(t, CancelJobs(t, ps, now), now) && Stamped(t, CancelPipelines(t, ps, now), now)
  {
  }

  lemma CompleteStamps(t: Tables, a: Id, record: Attempt, now: Time)
    requires Located(t, a) && record.createdAt == t.attempts[a].createdAt && record.completedAt == now
    ensures Stamped(t, Complete(t, a, record, now), now)
  {
    var t1 := Settle(t, a, record);
    var p := PipelineOf(t, a);
    assert Stamped(t, t1, now) && t.attempts.Keys == t1.attempts.Keys;
    CancelStamps(WithStatus(t1, p, Failed), {p}, now);
    assert Stamped(t1, UpdateTables(t1, p, now), now) by {
      hide Settle, CancelJobs, AnyFailed, AllSucceeded;
    }
    hide Stamped, Settle, UpdateTables;
    StampedTransitive(t, t1, Complete(t, a, record, now), now);
  }

  lemma SweepOneStamps(t: Tables, a: Id, now: Time)
    ensures Stamped(t, SweepOne(t, a, now), now)
  {
    if Expired(t, a, now) {
      if Exhausted(t, a, now) {
        CompleteStamps(t, a, ExhaustedRecord(t.attempts[a], now), now);
      }
      hide Complete;
    }
  }

  lemma {:induction false} SweepStamps(t: Tables, order: seq<Id>, now: Time)
    ensures Stamped(t, Sweep(t, order, now), now)
  {
    if order != [] {
      var t1 := Sweep(t, order[..|order| - 1], now);
      SweepStamps(t, order[..|order| - 1], now);
      SweepNewAttempts(t, order[..|order| - 1], now);
      SweepOneStamps(t1, order[|order| - 1], now);
      hide Stamped, SweepOne;
      StampedTransitive(t, t1, Sweep(t, order, now), now);
    }
  }

  lemma ScheduleStamps(s: State, order: seq<Id>, grant: Option<Grant>, a: Id, token: string, now: Time)
    requires Coherent(s.tables) && Enabled(s, ScheduleStep(order, grant, a, token, now))
    ensures Stamped(s.tables, Schedule(s, order, grant, a, token, now).tables, now)
  {
    SweepStamps(s.tables, order, now);
    SweepNewAttempts(s.tables, order, now);
    hide Sweep, Coherent, GrantFits, AllIssued;
    var t1 := SweepState(s, order, now).tables;
    CoherentUnused(s.tables, a);
    PlaceStamps(SweepState(s, order, now), grant, a, token, now);
    hide Stamped, Place;
    StampedTransitive(s.tables, t1, Schedule(s, order, grant, a, token, now).tables, now);
  }

  lemma CoherentUnused(t: Tables, a: Id)
    requires Coherent(t) && a !in t.issued
    ensures a !in t.attempts
  {
  }

  lemma PlaceStamps(s: State, grant: Option<Grant>, a: Id, token: string, now: Time)
    requires a !in s.tables.attempts
    ensures Stamped(s.tables, Place(s, grant, a, token, now).tables, now)
  {
  }

  lemma StepStamps(s: State, step: Step)
    requires Coherent(s.tables) && Enabled(s, step)
    ensures Stamped(s.tables, Apply(s, step).tables, step.now)
  {
    hide Coherent, Stamped, Submit, Schedule, Finish, Cancel, Beat, Reconcile, RecordCheck, Ensure, Observe, Register,
         WorkerBeat, FreshIds, IdsFor, Classify, SameRevision, GrantFits;
    match step
    case SubmitStep(input, p, ids, pick, now) => SubmitStamps(s, input, p, ids, pick, now);
    case ScheduleStep(order, grant, a, token, now) => ScheduleStamps(s, order, grant, a, token, now);
    case BeatStep(a, token, now) => BeatStamps(s, a, token, now);
    case FinishStep(a, token, report, now) => FinishStamps(s, a, token, report, now);
    case CancelStep(j, now) => CancelStepStamps(s, j, now);
    case ReconcileStep(order, now) => ReconcileStamps(s, order, now);
    case CheckStep(p, check, state, now) => CheckStamps(s, p, check, state, now);
    case _ =>
      QuietStep(s, step);
      SameStamps(s.tables, step.now);
  }

  lemma SameStamps(t: Tables, now: Time)
    ensures Stamped(t, t, now)
  {
  }

  lemma CheckStamps(s: State, p: Id, check: int, state: Status, now: Time)
    ensures Stamped(s.tables, RecordCheck(s, p, check, state).tables, now)
  {
  }

  lemma BeatStamps(s: State, a: Id, token: string, now: Time)
    ensures Stamped(s.tables, Beat(s, a, token, now).tables, now)
  {
  }

  lemma CancelStepStamps(s: State, j: Id, now: Time)
    ensures Stamped(s.tables, Cancel(s, j, now).tables, now)
  {
    CancelTables(s, j, now);
    SameStamps(s.tables, now);
    if MayCancel(s.tables, j) {
      CancelStamps(s.tables, {s.tables.jobs[j].pipelineID}, now);
    }
    hide Stamped, Cancel, CancelPipelines;
  }

  lemma FinishStamps(s: State, a: Id, token: string, report: Report, now: Time)
    ensures Stamped(s.tables, Finish(s, a, token, report, now).tables, now)
  {
    SameStamps(s.tables, now);
    if LeaseHeld(s.tables, a, token, now) {
      var record := CommittedRecord(s.tables.attempts[a], report, now);
      CommitTables(s, a, record, now);
      CompleteStamps(s.tables, a, record, now);
    }
    hide Stamped, Commit, Complete;
  }

  lemma ReconcileStamps(s: State, order: seq<Id>, now: Time)
    ensures Stamped(s.tables, Reconcile(s, order, now).tables, now)
  {
    SweepStamps(s.tables, order, now);
    hide Sweep, Prunable;
  }

  lemma SubmitStamps(s: State, input: Submission, p: Id, ids: seq<Id>, pick: Id, now: Time)
    requires IdsFor(input, ids)
    ensures Stamped(s.tables, Submit(s, input, p, ids, pick, now).tables, now)
  {
    hide Stamped, Accept, IdsFor, Late, Overflows, Repeats;
    SameStamps(s.tables, now);
    if Classify(s, input, now) == Fresh {
      SubmitIsAccept(s, input, p, ids, pick, now);
      AcceptStamps(s, input, p, ids, now);
    } else {
      SubmitLeavesTables(s, input, p, ids, pick, now);
    }
    hide Submit, Classify;
  }

  lemma AcceptStamps(s: State, input: Submission, p: Id, ids: seq<Id>, now: Time)
    requires IdsFor(input, ids) && WellFormed(input)
    ensures Stamped(s.tables, Accept(s, input, p, ids, now).tables, now)
  {
    AcceptTables(s, input, p, ids, now);
    AdvanceTables(s, input, now);
    SameStamps(s.tables, now);
    CancelStamps(s.tables, Superseded(s.tables, input), now);
    hide Accept, Advance, CancelPipelines, NewJobs, GenerationOf;
  }

  // ---- Runs with a clock that never turns back ----

  predicate Monotone(steps: seq<Step>) {
    forall i, k :: 0 <= i < k < |steps| ==> steps[i].now <= steps[k].now
  }

  lemma ScheduleStaysCausal(s: State, order: seq<Id>, grant: Option<Grant>, a: Id, token: string, before: Time,
                            now: Time)
    requires Coherent(s.tables) && Enabled(s, ScheduleStep(order, grant, a, token, now))
    requires Causal(s.tables) && AllDated(s.tables, before) && before <= now
    ensures Causal(Schedule(s, order, grant, a, token, now).tables)
  {
    hide Coherent, Causal, AllDated, Stamped, Evolves, Sweep, IsGrant;
    SweepKeeps(s.tables, order, now);
    SweepEvolves(s.tables, order, now);
    SweepNewAttempts(s.tables, order, now);
    SweepsIssueNothing(s.tables, order, now);
    SweepStamps(s.tables, order, now);
    var s1 := SweepState(s, order, now);
    StampedIsDated(s.tables, s1.tables, before, now);
    StaysCausal(s.tables, s1.tables);
    if grant.Some? {
      GrantIsRunnable(s1, grant.value, now);
      hide Runnable, Lease;
      LeaseStaysCausal(s1.tables, grant.value.job, grant.value.worker, a, token, s.config.leaseTTL, now);
    }
  }

  lemma StepStaysCausal(s: State, step: Step, before: Time)
    requires Coherent(s.tables) && Enabled(s, step) && before <= step.now
    requires Causal(s.tables) && AllDated(s.tables, before)
    ensures Causal(Apply(s, step).tables) && AllDated(Apply(s, step).tables, step.now)
  {
    hide Coherent, Causal, AllDated, Stamped, Evolves, Schedule, Enabled;
    StepStamps(s, step);
    StampedIsDated(s.tables, Apply(s, step).tables, before, step.now);
    if step.ScheduleStep? {
      ScheduleStaysCausal(s, step.order, step.grant, step.a, step.token, before, step.now);
    } else {
      StepKeepsCoherent(s, step);
      StepEvolves(s, step);
      OnlySchedulingLeases(s, step);
      StaysCausal(s.tables, Apply(s, step).tables);
      hide Apply;
    }
  }

  // In every reachable state each need of an attempted job was satisfied by an attempt of the same pipeline
  // that had succeeded no later than the needing attempt was created.
  lemma {:induction false} NeedsSucceedFirst(states: seq<State>, steps: seq<Step>, i: nat)
    requires Run(states, steps) && Monotone(steps) && 0 < i < |states|
    ensures Causal(states[i].tables) && AllDated(states[i].tables, steps[i - 1].now)
  {
    hide Coherent, Causal, AllDated, Apply, Enabled;
    if i > 1 {
      NeedsSucceedFirst(states, steps, i - 1);
    } else {
      EmptyIsCausal(states[0].config, steps[0].now);
    }
    var before := if i > 1 then steps[i - 2].now else steps[0].now;
    CoherentThroughout(states, steps, i - 1);
    assert Taken(states, steps, i - 1);
    StepStaysCausal(states[i - 1], steps[i - 1], before);
  }

  lemma EmptyIsCausal(c: Config, now: Time)
    ensures Causal(Init(c).tables) && AllDated(Init(c).tables, now)
  {
  }
}
