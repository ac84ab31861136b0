// Conservation: every job ever admitted is either unfinished or counted once as completed, failed
// or cancelled, whatever became of its pipeline and even after its record was pruned.

module Counters {
  import opened Domain
  import opened Ordering
  import opened TableModel
  import opened Model
  import opened Coherence
  import opened Steps
  import opened Evolution
  import Planner

  function Ended(tally: Tally): nat {
    tally.completed + tally.failed + tally.cancelled
  }

  // Admitted jobs that are neither counted as ended nor unfinished.
  ghost function Missing(t: Tables): int {
    t.sequence - Ended(t.tally) - |Unfinished(t)|
  }

  lemma SameUnfinished(t: Tables, t': Tables)
    requires t'.sequence == t.sequence && t'.tally == t.tally
    requires forall j ::
      (j in t'.jobs && !IsTerminal(t'.jobs[j].status)) <==> (j in t.jobs && !IsTerminal(t.jobs[j].status))
    ensures Missing(t') == Missing(t)
  {
    assert Unfinished(t') == Unfinished(t);
  }

  lemma CancelConserves(t: Tables, ps: set<Id>, now: Time)
    ensures Missing(CancelJobs(t, ps, now)) == Missing(t)
  {
    var t' := CancelJobs(t, ps, now);
    assert Unfinished(t') == Unfinished(t) - DoomedJobs(t, ps);
    assert DoomedJobs(t, ps) <= Unfinished(t);
  }

  lemma CancelPipelinesConserves(t: Tables, ps: set<Id>, now: Time)
    ensures Missing(CancelPipelines(t, ps, now)) == Missing(t)
  {
    SameUnfinished(t, MarkCancelled(t, ps));
    CancelConserves(MarkCancelled(t, ps), ps, now);
    hide CancelJobs;
  }

  lemma SettleConserves(t: Tables, a: Id, record: Attempt)
    requires Located(t, a) && !IsTerminal(t.jobs[t.attempts[a].jobID].status) && IsTerminal(record.status)
    ensures Missing(Settle(t, a, record)) == Missing(t)
  {
    assert Unfinished(Settle(t, a, record)) == Unfinished(t) - {t.attempts[a].jobID};
    assert t.attempts[a].jobID in Unfinished(t);
  }

  lemma StatusConserves(t: Tables, p: Id, status: Status)
    requires p in t.pipelines
    ensures Missing(WithStatus(t, p, status)) == Missing(t)
  {
    SameUnfinished(t, WithStatus(t, p, status));
  }

  lemma CompleteConserves(t: Tables, a: Id, record: Attempt, now: Time)
    requires Located(t, a) && !IsTerminal(t.jobs[t.attempts[a].jobID].status) && IsTerminal(record.status)
    ensures Missing(Complete(t, a, record, now)) == Missing(t)
  {
    SettleConserves(t, a, record);
    var t1 := Settle(t, a, record);
    var p := PipelineOf(t, a);
    StatusConserves(t1, p, Failed);
    StatusConserves(t1, p, Succeeded);
    StatusConserves(t1, p, Running);
    CancelConserves(WithStatus(t1, p, Failed), {p}, now);
    hide Missing, Settle, WithStatus, CancelJobs, AnyFailed, AllSucceeded;
  }

  lemma MoveConserves(t: Tables, a: Id, record: Attempt, status: Status)
    requires Located(t, a) && !IsTerminal(t.jobs[t.attempts[a].jobID].status) && !IsTerminal(status)
    ensures Missing(Move(t, a, record, status)) == Missing(t)
  {
    SameUnfinished(t, Move(t, a, record, status));
  }

  lemma RecordConserves(t: Tables, a: Id, record: Attempt)
    ensures Missing(WithAttempt(t, a, record)) == Missing(t)
  {
    SameUnfinished(t, WithAttempt(t, a, record));
  }

  lemma SweepOneConserves(t: Tables, a: Id, now: Time)
    requires Coherent(t)
    ensures Missing(SweepOne(t, a, now)) == Missing(t)
  {
    if Expired(t, a, now) {
      ActiveIsLast(t, a);
      hide Coherent, Missing;
      if Exhausted(t, a, now) {
        CompleteConserves(t, a, ExhaustedRecord(t.attempts[a], now), now);
      } else {
        MoveConserves(t, a, LostRecord(t.attempts[a], now), Queued);
      }
      hide Complete, Move;
    }
  }

  lemma {:induction false} SweepConserves(t: Tables, order: seq<Id>, now: Time)
    requires Coherent(t)
    ensures Missing(Sweep(t, order, now)) == Missing(t)
  {
    if order != [] {
      SweepConserves(t, order[..|order| - 1], now);
      SweepKeeps(t, order[..|order| - 1], now);
      SweepOneConserves(Sweep(t, order[..|order| - 1], now), order[|order| - 1], now);
      hide SweepOne, Missing, Coherent;
    }
  }

  lemma LeaseConserves(t: Tables, j: Id, w: Id, a: Id, token: string, ttl: int, now: Time)
    requires Runnable(t, j) && t.jobs[j].pipelineID in t.pipelines
    ensures Missing(Lease(t, j, w, a, token, ttl, now)) == Missing(t)
  {
    SameUnfinished(t, Lease(t, j, w, a, token, ttl, now));
  }

  // Exactly the given jobs joined, all of them QUEUED.
  ghost predicate Joined(t: Tables, t': Tables, ids: seq<Id>) {
    && (forall k :: k in t'.jobs <==> k in t.jobs || k in ids)
    && (forall k :: k in t.jobs ==> t'.jobs[k] == t.jobs[k])
    && (forall k :: k in ids ==> k in t'.jobs && t'.jobs[k].status == Queued && k !in t.jobs)
  }

  lemma CreateJoins(t: Tables, input: Submission, order: seq<string>, p: Id, ids: seq<Id>, generation: int, now: Time)
    requires AllIssued(t) && MayCreate(t, input, order, p, ids)
    ensures Joined(t, Create(t, input, order, p, ids, generation, now), ids)
  {
    var t' := Create(t, input, order, p, ids, generation, now);
    CreateAdds(t, input, order, p, ids, generation, now);
    hide Create, Created;
    CreatedJoins(t, t', input, order, p, ids, generation, now);
  }

  lemma CreatedJoins(t: Tables, t': Tables, input: Submission, order: seq<string>, p: Id, ids: seq<Id>, generation: int,
                     now: Time)
    requires AllIssued(t) && MayCreate(t, input, order, p, ids)
    requires Created(t, t', input, order, p, ids, generation, now)
    ensures Joined(t, t', ids)
  {
    hide NewPipeline, NewJob, FreshIds, AllIssued;
    forall k | k in ids ensures k in t'.jobs && t'.jobs[k].status == Queued && k !in t.jobs {
      JoinsQueued(t, t', input, order, p, ids, generation, now, k);
    }
  }

  lemma JoinsQueued(t: Tables, t': Tables, input: Submission, order: seq<string>, p: Id, ids: seq<Id>, generation: int,
                    now: Time, k: Id)
    requires AllIssued(t) && MayCreate(t, input, order, p, ids) && Created(t, t', input, order, p, ids, generation, now)
    requires k in ids
    ensures k in t'.jobs && t'.jobs[k].status == Queued && k !in t.jobs
  {
    var i := IndexOf(ids, k);
    assert t'.jobs[ids[i]] == NewJob(input, p, order[i], t.sequence + 1 + i, now);
  }

  lemma JoinedUnfinished(t: Tables, t': Tables, ids: seq<Id>)
    requires Distinct(ids) && Joined(t, t', ids)
    ensures |Unfinished(t')| == |Unfinished(t)| + |ids|
  {
    hide Unfinished, Listed, Joined;
    CountListed(ids);
    forall k ensures k in Unfinished(t') <==> k in Unfinished(t) || k in Listed(ids)
             ensures !(k in Unfinished(t) && k in Listed(ids)) {
      JoinedAt(t, t', ids, k);
    }
    assert Unfinished(t') == Unfinished(t) + Listed(ids) && Unfinished(t) !! Listed(ids);
  }

  lemma JoinedAt(t: Tables, t': Tables, ids: seq<Id>, k: Id)
    requires Joined(t, t', ids)
    ensures k in Unfinished(t') <==> k in Unfinished(t) || k in Listed(ids)
    ensures !(k in Unfinished(t) && k in Listed(ids))
  {
  }

  ghost function Listed(ids: seq<Id>): set<Id> {
    set j | j in ids
  }

  lemma CountListed(ids: seq<Id>)
    requires Distinct(ids)
    ensures |Listed(ids)| == |ids|
  {
    EnumerationSize(ids, Listed(ids));
  }

  lemma CreateConserves(t: Tables, input: Submission, order: seq<string>, p: Id, ids: seq<Id>, generation: int,
                        now: Time)
    requires AllIssued(t) && MayCreate(t, input, order, p, ids)
    ensures Missing(Create(t, input, order, p, ids, generation, now)) == Missing(t)
  {
    hide Unfinished, NewJobs, NewPipeline, Joined, AllIssued;
    CreateJoins(t, input, order, p, ids, generation, now);
    JoinedUnfinished(t, Create(t, input, order, p, ids, generation, now), ids);
  }

  // A pruned pipeline takes no unfinished job with it.
  lemma DropConserves(t: Tables, ps: set<Id>)
    requires Coherent(t) && forall p :: p in ps ==> p in t.pipelines && IsTerminal(t.pipelines[p].status)
    ensures Missing(Drop(t, ps)) == Missing(t)
  {
    forall j | j in t.jobs && !IsTerminal(t.jobs[j].status) ensures t.jobs[j].pipelineID !in ps {
      UnfinishedPipeline(t, j);
    }
    hide Coherent;
    SameUnfinished(t, Drop(t, ps));
  }

  // ---- Steps ----

  lemma AcceptConserves(s: State, input: Submission, p: Id, ids: seq<Id>, now: Time)
    requires Coherent(s.tables) && IdsFor(input, ids) && FreshIds(s.tables, p, ids) && WellFormed(input)
    ensures Missing(Accept(s, input, p, ids, now).tables) == Missing(s.tables)
  {
    hide Coherent, Missing, Create, GenerationOf, Superseded, Evolves, AllIssued;
    AcceptTables(s, input, p, ids, now);
    AdvanceTables(s, input, now);
    AdvanceEvolves(s, input, now);
    hide Advance, Accept, CancelPipelines;
    CancelPipelinesConserves(s.tables, Superseded(s.tables, input), now);
    if !input.closed {
      CreateConserves(Advance(s, input, now).tables, input, Planner.Plan(input.spec).value, p, ids,
                      GenerationOf(s, input), now);
    }
  }

  lemma ScheduleConserves(s: State, order: seq<Id>, grant: Option<Grant>, a: Id, token: string, now: Time)
    requires Coherent(s.tables) && GrantFits(SweepState(s, order, now), grant, now)
    ensures Missing(Schedule(s, order, grant, a, token, now).tables) == Missing(s.tables)
  {
    SweepConserves(s.tables, order, now);
    SweepKeeps(s.tables, order, now);
    var s1 := SweepState(s, order, now);
    if grant.Some? {
      GrantIsRunnable(s1, grant.value, now);
      hide Coherent, Lease, IsGrant, Runnable, Missing, Sweep;
      LeaseConserves(s1.tables, grant.value.job, grant.value.worker, a, token, s.config.leaseTTL, now);
    }
  }

  lemma BeatConserves(s: State, a: Id, token: string, now: Time)
    requires Coherent(s.tables)
    ensures Missing(Beat(s, a, token, now).tables) == Missing(s.tables)
  {
    if LeaseHeld(s.tables, a, token, now) {
      ActiveIsLast(s.tables, a);
      hide Coherent, Missing;
      var record := RenewedRecord(s.tables.attempts[a], s.config.leaseTTL, now);
      MoveConserves(s.tables, a, record, Running);
      RecordConserves(s.tables, a, record);
    }
  }

  lemma FinishConserves(s: State, a: Id, token: string, report: Report, now: Time)
    requires Coherent(s.tables)
    ensures Missing(Finish(s, a, token, report, now).tables) == Missing(s.tables)
  {
    hide Coherent, Missing, Commit, Complete;
    if LeaseHeld(s.tables, a, token, now) {
      ActiveIsLast(s.tables, a);
      var record := CommittedRecord(s.tables.attempts[a], report, now);
      CommitTables(s, a, record, now);
      CompleteConserves(s.tables, a, record, now);
    }
  }

  lemma ReconcileConserves(s: State, order: seq<Id>, now: Time)
    requires Coherent(s.tables)
    ensures Missing(Reconcile(s, order, now).tables) == Missing(s.tables)
  {
    SweepConserves(s.tables, order, now);
    SweepKeeps(s.tables, order, now);
    var s2 := AgePreviews(SweepState(s, order, now), now);
    hide Coherent, Missing, Sweep, Drop;
    DropConserves(s2.tables, set p | p in s2.tables.pipelines && Prunable(s2, p, now));
  }

  lemma CheckConserves(s: State, p: Id, check: int, state: Status)
    ensures Missing(RecordCheck(s, p, check, state).tables) == Missing(s.tables)
  {
    SameUnfinished(s.tables, RecordCheck(s, p, check, state).tables);
  }

  lemma CancelStepConserves(s: State, j: Id, now: Time)
    ensures Missing(Cancel(s, j, now).tables) == Missing(s.tables)
  {
    hide Missing, CancelPipelines, KeyOf;
    if MayCancel(s.tables, j) {
      CancelPipelinesConserves(s.tables, {s.tables.jobs[j].pipelineID}, now);
    }
  }

  lemma SubmitConserves(s: State, input: Submission, p: Id, ids: seq<Id>, pick: Id, now: Time)
    requires Coherent(s.tables) && IdsFor(input, ids) && FreshIds(s.tables, p, ids)
    ensures Missing(Submit(s, input, p, ids, pick, now).tables) == Missing(s.tables)
  {
    hide Coherent, Accept, Missing, IdsFor, FreshIds, Late, Overflows, Repeats;
    if Classify(s, input, now) == Fresh {
      AcceptConserves(s, input, p, ids, now);
    }
  }

  lemma StepConserves(s: State, step: Step)
    requires Coherent(s.tables) && Enabled(s, step)
    ensures Missing(Apply(s, step).tables) == Missing(s.tables)
  {
    hide Coherent, Missing, Submit, Schedule, Beat, Finish, Cancel, Reconcile, Ensure, Observe, Register, WorkerBeat,
         RecordCheck, GrantFits, FreshIds, IdsFor, SameRevision, Classify;
    match step
    case SubmitStep(input, p, ids, pick, now) => SubmitConserves(s, input, p, ids, pick, now);
    case ScheduleStep(order, grant, a, token, now) => ScheduleConserves(s, order, grant, a, token, now);
    case BeatStep(a, token, now) => BeatConserves(s, a, token, now);
    case FinishStep(a, token, report, now) => FinishConserves(s, a, token, report, now);
    case CancelStep(j, now) => CancelStepConserves(s, j, now);
    case ReconcileStep(order, now) => ReconcileConserves(s, order, now);
    case CheckStep(p, check, state, now) => CheckConserves(s, p, check, state);
    case _ => QuietStep(s, step);
  }

  // In every reachable state: admitted == completed + failed + cancelled + unfinished.
  lemma {:induction false} NothingIsLost(states: seq<State>, steps: seq<Step>, i: nat)
    requires Run(states, steps) && i < |states|
    ensures var t := states[i].tables;
      t.sequence == t.tally.completed + t.tally.failed + t.tally.cancelled + |Unfinished(t)|
  {
    hide Apply, Enabled, Coherent;
    if i > 0 {
      NothingIsLost(states, steps, i - 1);
      CoherentThroughout(states, steps, i - 1);
      assert Taken(states, steps, i - 1);
      StepConserves(states[i - 1], steps[i - 1]);
    } else {
      assert Unfinished(states[0].tables) == {};
    }
  }

  // ---- Admission numbers ----

  // Jobs carry distinct numbers, none above the last one given out.
  ghost predicate Numbered(t: Tables) {
    && (forall j :: j in t.jobs ==> 1 <= t.jobs[j].sequence <= t.sequence)
    && forall j, k :: j in t.jobs && k in t.jobs && j != k ==> t.jobs[j].sequence != t.jobs[k].sequence
  }

  lemma NoNewJobsStaysNumbered(t: Tables, t': Tables)
    requires Numbered(t) && t'.jobs.Keys <= t.jobs.Keys && t'.sequence == t.sequence && Evolves(t, t')
    ensures Numbered(t')
  {
    hide NoReturn, Rank;
    forall j | j in t'.jobs ensures t'.jobs[j].sequence == t.jobs[j].sequence {
      assert JobEvolves(t.jobs[j], t'.jobs[j]);
    }
    hide Evolves;
  }

  // The new jobs are numbered in plan order, on from the last number given out.
  lemma CreateNumbers(t: Tables, input: Submission, order: seq<string>, p: Id, ids: seq<Id>, generation: int, now: Time)
    requires AllIssued(t) && MayCreate(t, input, order, p, ids)
    ensures var t' := Create(t, input, order, p, ids, generation, now);
      && t'.sequence == t.sequence + |ids|
      && forall i :: 0 <= i < |ids| ==> ids[i] in t'.jobs && t'.jobs[ids[i]].sequence == t.sequence + 1 + i
  {
    var t' := Create(t, input, order, p, ids, generation, now);
    CreateAdds(t, input, order, p, ids, generation, now);
    hide NewPipeline;
    forall i | 0 <= i < |ids| ensures ids[i] in t'.jobs && t'.jobs[ids[i]].sequence == t.sequence + 1 + i {
      assert t'.jobs[ids[i]] == NewJob(input, p, order[i], t.sequence + 1 + i, now);
    }
  }

  lemma CreateStaysNumbered(t: Tables, input: Submission, order: seq<string>, p: Id, ids: seq<Id>, generation: int,
                            now: Time)
    requires Numbered(t) && AllIssued(t) && MayCreate(t, input, order, p, ids)
    ensures Numbered(Create(t, input, order, p, ids, generation, now))
  {
    hide Numbered, AllIssued, Joined;
    CreateJoins(t, input, order, p, ids, generation, now);
    CreateNumbers(t, input, order, p, ids, generation, now);
    hide Create, MayCreate;
    JoinedStaysNumbered(t, Create(t, input, order, p, ids, generation, now), ids);
  }

  lemma JoinedStaysNumbered(t: Tables, t': Tables, ids: seq<Id>)
    requires Numbered(t) && Joined(t, t', ids) && t'.sequence == t.sequence + |ids|
    requires forall i :: 0 <= i < |ids| ==> ids[i] in t'.jobs && t'.jobs[ids[i]].sequence == t.sequence + 1 + i
    ensures Numbered(t')
  {
    forall j | j in ids ensures t'.jobs[j].sequence == t.sequence + 1 + IndexOf(ids, j) {
      assert ids[IndexOf(ids, j)] == j;
    }
  }

  lemma AcceptStaysNumbered(s: State, input: Submission, p: Id, ids: seq<Id>, now: Time)
    requires Coherent(s.tables) && Numbered(s.tables) && IdsFor(input, ids) && FreshIds(s.tables, p, ids)
    requires WellFormed(input)
    ensures Numbered(Accept(s, input, p, ids, now).tables)
  {
    hide Coherent, Evolves, Advance, Accept, Create, GenerationOf, Numbered;
    AcceptTables(s, input, p, ids, now);
    AdvanceEvolves(s, input, now);
    AdvanceAddsNoJobs(s, input, now);
    NoNewJobsStaysNumbered(s.tables, Advance(s, input, now).tables);
    if !input.closed {
      CreateStaysNumbered(Advance(s, input, now).tables, input, Planner.Plan(input.spec).value, p, ids,
                          GenerationOf(s, input), now);
    }
  }

  lemma AdvanceAddsNoJobs(s: State, input: Submission, now: Time)
    ensures var t' := Advance(s, input, now).tables;
      t'.jobs.Keys == s.tables.jobs.Keys && t'.sequence == s.tables.sequence
  {
    AdvanceTables(s, input, now);
    hide Advance, Superseded;
  }

  lemma StepStaysNumbered(s: State, step: Step)
    requires Coherent(s.tables) && Numbered(s.tables) && Enabled(s, step)
    ensures Numbered(Apply(s, step).tables)
  {
    hide Coherent, Evolves, Numbered, Submit, Accept, FreshIds, IdsFor, SameRevision, Late, Overflows, Repeats;
    if step.SubmitStep? {
      if Classify(s, step.input, step.now) == Fresh {
        SubmitIsAccept(s, step.input, step.p, step.ids, step.pick, step.now);
        AcceptStaysNumbered(s, step.input, step.p, step.ids, step.now);
      } else {
        SubmitLeavesTables(s, step.input, step.p, step.ids, step.pick, step.now);
      }
    } else {
      hide Apply, Enabled;
      OnlySubmissionsAsk(s, step);
      StepEvolves(s, step);
      NoNewJobsStaysNumbered(s.tables, Apply(s, step).tables);
    }
  }

  lemma {:induction false} NumberedThroughout(states: seq<State>, steps: seq<Step>, i: nat)
    requires Run(states, steps) && i < |states|
    ensures Numbered(states[i].tables)
  {
    hide Apply, Enabled, Coherent, Numbered;
    if i > 0 {
      NumberedThroughout(states, steps, i - 1);
      CoherentThroughout(states, steps, i - 1);
      assert Taken(states, steps, i - 1);
      StepStaysNumbered(states[i - 1], steps[i - 1]);
    } else {
      EmptyIsNumbered(states[0].config);
    }
  }

  lemma EmptyIsNumbered(c: Config)
    ensures Numbered(Init(c).tables)
  {
  }
}
