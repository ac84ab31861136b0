// What a heartbeat is good for: the lease it leaves behind, and how long that lease lasts.

module Renewal {
  import opened Domain
  import opened Ordering
  import opened TableModel
  import opened Model
  import opened Coherence
  import opened Steps
  import opened Expiry
  import opened Evolution

  // The caller holds the lease: the attempt is under way with that token, and its lease is not over.
  ghost predicate Held(t: Tables, a: Id, token: string, now: Time) {
    && a in t.attempts && t.attempts[a].jobID in t.jobs
    && (t.attempts[a].status == Leased || t.attempts[a].status == Running)
    && t.attempts[a].token == token && !Lapsed(t, a, now)
  }

  lemma HeldIsHeld(t: Tables, a: Id, token: string, now: Time)
    requires Coherent(t)
    ensures Held(t, a, token, now) <==> LeaseHeld(t, a, token, now)
  {
    if a in t.attempts {
      assert AttemptRefs(t, a);
      assert JobRefs(t, t.attempts[a].jobID);
    }
    hide Coherent;
  }

  // A heartbeat under a held lease: the attempt and its job are RUNNING, started now if they were not, and the
  // lease lasts for another term from now. Nothing else changes, and the answer is the new record.
  lemma BeatRenews(s: State, a: Id, token: string, now: Time)
    requires Coherent(s.tables) && Held(s.tables, a, token, now)
    ensures var s', record, j := Beat(s, a, token, now), s.tables.attempts[a], s.tables.attempts[a].jobID;
      && s' == s.(tables := s.tables.(attempts := s'.tables.attempts, jobs := s'.tables.jobs))
      && s'.tables.jobs == s.tables.jobs[j := s.tables.jobs[j].(status := Running)]
      && s'.tables.attempts == s.tables.attempts[a := record.(
           status := Running, startedAt := if record.status == Leased then now else record.startedAt,
           leaseExpires := now + s.config.leaseTTL)]
      && BeatAnswer(s, a, token, now) == Success(s'.tables.attempts[a])
  {
    HeldIsHeld(s.tables, a, token, now);
    ActiveIsLast(s.tables, a);
    hide Coherent, Lapsed, LeaseHeld;
  }

  // Any other heartbeat is refused and changes nothing.
  lemma BeatIsRefused(s: State, a: Id, token: string, now: Time)
    requires Coherent(s.tables) && !Held(s.tables, a, token, now)
    ensures Beat(s, a, token, now) == s
    ensures BeatAnswer(s, a, token, now) == Failure(if a !in s.tables.attempts then NotFound else StaleLease)
  {
    HeldIsHeld(s.tables, a, token, now);
    hide Coherent, Held, LeaseHeld;
  }

  // Until the term is up or the attempt is out of time, the lease that a heartbeat left is still held, whatever
  // else changed meanwhile: the next heartbeat is accepted, a report is committed, and a sweep leaves it alone
  // unless its pipeline fails by another lease.
  lemma RenewedLasts(s: State, a: Id, token: string, now: Time, later: State, at: Time, order: seq<Id>,
                     report: Report)
    requires Coherent(s.tables) && Held(s.tables, a, token, now) && Coherent(later.tables)
    requires a in later.tables.attempts
    requires later.tables.attempts[a] == Beat(s, a, token, now).tables.attempts[a]
    requires at < now + s.config.leaseTTL && later.tables.attempts[a].jobID in later.tables.jobs
    requires !OutOfTime(later.tables, a, at)
    requires Enumerates(order, later.tables.attempts.Keys)
    ensures Held(later.tables, a, token, at)
    ensures BeatAnswer(later, a, token, at).Success? && FinishAnswer(later, a, token, report, at).Success?
    ensures var p := later.tables.jobs[later.tables.attempts[a].jobID].pipelineID;
      !Failing(later.tables, p, at) ==>
        var swept := Sweep(later.tables, order, at);
        a in swept.attempts && swept.attempts[a] == later.tables.attempts[a]
  {
    BeatRenews(s, a, token, now);
    hide Beat, BeatAnswer, FinishAnswer;
    assert Held(later.tables, a, token, at) by {
      hide Coherent;
    }
    BeatRenews(later, a, token, at);
    HeldIsHeld(later.tables, a, token, at);
    if !Failing(later.tables, later.tables.jobs[later.tables.attempts[a].jobID].pipelineID, at) {
      HeldIsKept(later.tables, order, a, at);
    }
    hide Coherent, Held, Sweep, Failing, Lapsed;
    HeldReports(later, a, token, report, at);
  }

  lemma HeldReports(s: State, a: Id, token: string, report: Report, now: Time)
    requires LeaseHeld(s.tables, a, token, now)
    ensures FinishAnswer(s, a, token, report, now).Success?
  {
  }

  // ---- How a lease comes to its end ----

  // What a step may make of the status of an attempt that is under way.
  ghost predicate StatusMoves(t: Tables, t': Tables, step: Step, a: Id)
    requires a in t.attempts
  {
    a in t'.attempts ==>
      && (t'.attempts[a].status == Lost ==> (step.ScheduleStep? || step.ReconcileStep?) && Lapsed(t, a, step.now))
      && (t'.attempts[a].status == Succeeded ==> step.FinishStep? && step.a == a)
  }

  lemma CancelMoves(t: Tables, ps: set<Id>, step: Step, a: Id)
    requires a in t.attempts && IsActive(t.attempts[a].status)
    ensures StatusMoves(t, CancelPipelines(t, ps, step.now), step, a)
  {
    hide DoomedJobs;
  }

  lemma CompleteMoves(t: Tables, b: Id, record: Attempt, now: Time, a: Id)
    requires Located(t, b) && a in t.attempts && IsActive(t.attempts[a].status) && a != b
    ensures var t' := Complete(t, b, record, now);
      a in t'.attempts && (IsActive(t'.attempts[a].status) || t'.attempts[a].status == Cancelled)
  {
    hide DoomedJobs, AnyFailed, AllSucceeded;
  }

  lemma SweepMoves(t: Tables, order: seq<Id>, step: Step, a: Id)
    requires Coherent(t) && Enumerates(order, t.attempts.Keys)
    requires a in t.attempts && IsActive(t.attempts[a].status) && (step.ScheduleStep? || step.ReconcileStep?)
    ensures StatusMoves(t, Sweep(t, order, step.now), step, a)
  {
    SweepEnds(t, order, step.now);
    hide Coherent, Sweep, Lapsed, GivenUp;
    assert Ends(t, Sweep(t, order, step.now), a, step.now);
  }

  lemma SubmitMoves(s: State, step: Step, a: Id)
    requires step.SubmitStep? && Enabled(s, step)
    requires a in s.tables.attempts && IsActive(s.tables.attempts[a].status)
    ensures StatusMoves(s.tables, Apply(s, step).tables, step, a)
  {
    var SubmitStep(input, p, ids, pick, now) := step;
    hide CancelPipelines, Superseded, StatusMoves, Late, Overflows, Repeats;
    if Classify(s, input, now) == Fresh {
      SubmitIsAccept(s, input, p, ids, pick, now);
      AcceptMoves(s, step, a);
      hide Accept, Advance, Classify, Enabled, Submit;
    } else {
      SubmitLeavesTables(s, input, p, ids, pick, now);
      SameMoves(s.tables, step, a);
    }
    hide Classify, Enabled;
  }

  lemma AcceptMoves(s: State, step: Step, a: Id)
    requires step.SubmitStep? && IdsFor(step.input, step.ids) && WellFormed(step.input)
    requires a in s.tables.attempts && IsActive(s.tables.attempts[a].status)
    ensures StatusMoves(s.tables, Accept(s, step.input, step.p, step.ids, step.now).tables, step, a)
  {
    var SubmitStep(input, p, ids, pick, now) := step;
    AcceptTables(s, input, p, ids, now);
    AdvanceTables(s, input, now);
    CancelMoves(s.tables, Superseded(s.tables, input), step, a);
    SameMoves(s.tables, step, a);
    hide Accept, Advance, CancelPipelines, Superseded, StatusMoves, WellFormed;
    MovesAlike(s.tables, Advance(s, input, now).tables, Accept(s, input, p, ids, now).tables, step, a);
  }

  lemma SameMoves(t: Tables, step: Step, a: Id)
    requires a in t.attempts && IsActive(t.attempts[a].status)
    ensures StatusMoves(t, t, step, a)
  {
  }

  // Only the attempts matter.
  lemma MovesAlike(t: Tables, t1: Tables, t': Tables, step: Step, a: Id)
    requires a in t.attempts && t'.attempts == t1.attempts && StatusMoves(t, t1, step, a)
    ensures StatusMoves(t, t', step, a)
  {
    hide Lapsed;
  }

  lemma ScheduleMoves(s: State, step: Step, a: Id)
    requires Coherent(s.tables) && step.ScheduleStep? && Enabled(s, step)
    requires a in s.tables.attempts && IsActive(s.tables.attempts[a].status)
    ensures StatusMoves(s.tables, Apply(s, step).tables, step, a)
  {
    SweepMoves(s.tables, step.order, step, a);
    IsIssued(s.tables, a);
    hide Coherent, Sweep, Lapsed, GrantFits;
  }

  lemma IsIssued(t: Tables, a: Id)
    requires Coherent(t) && a in t.attempts
    ensures a in t.issued
  {
  }

  lemma ReconcileMoves(s: State, step: Step, a: Id)
    requires Coherent(s.tables) && step.ReconcileStep? && Enabled(s, step)
    requires a in s.tables.attempts && IsActive(s.tables.attempts[a].status)
    ensures StatusMoves(s.tables, Apply(s, step).tables, step, a)
  {
    SweepMoves(s.tables, step.order, step, a);
    hide Coherent, Sweep, Lapsed, Prunable, Gone;
  }

  lemma FinishMoves(s: State, step: Step, a: Id)
    requires Coherent(s.tables) && step.FinishStep?
    requires a in s.tables.attempts && IsActive(s.tables.attempts[a].status)
    ensures StatusMoves(s.tables, Finish(s, step.a, step.token, step.report, step.now).tables, step, a)
  {
    var FinishStep(b, token, report, now) := step;
    hide Coherent, Commit, Lapsed;
    if LeaseHeld(s.tables, b, token, now) {
      var record := CommittedRecord(s.tables.attempts[b], report, now);
      CommitTables(s, b, record, now);
      hide Complete, LeaseHeld;
      if b == a {
        OwnFinish(s.tables, a, record, now);
      } else {
        CompleteMoves(s.tables, b, record, now, a);
      }
    }
  }

  lemma OwnFinish(t: Tables, a: Id, record: Attempt, now: Time)
    requires Located(t, a) && (record.status == Succeeded || record.status == Failed)
    ensures var t' := Complete(t, a, record, now); a in t'.attempts && t'.attempts[a] == record
  {
    hide DoomedJobs, AnyFailed, AllSucceeded;
  }

  lemma StepMoves(s: State, step: Step, a: Id)
    requires Coherent(s.tables) && Enabled(s, step)
    requires a in s.tables.attempts && IsActive(s.tables.attempts[a].status)
    ensures StatusMoves(s.tables, Apply(s, step).tables, step, a)
  {
    hide Coherent, Enabled, StatusMoves, Submit, Schedule, Beat, Finish, Cancel, Reconcile, Ensure, Observe, Register,
         WorkerBeat, RecordCheck;
    match step
    case SubmitStep(_, _, _, _, _) => SubmitMoves(s, step, a);
    case ScheduleStep(_, _, _, _, _) => ScheduleMoves(s, step, a);
    case BeatStep(b, token, now) => BeatMoves(s, step, a);
    case FinishStep(_, _, _, _) => FinishMoves(s, step, a);
    case CancelStep(j, now) =>
      CancelTables(s, j, now);
      CancelMoves(s.tables, {if j in s.tables.jobs then s.tables.jobs[j].pipelineID else ""}, step, a);
      SameMoves(s.tables, step, a);
    case ReconcileStep(_, _) => ReconcileMoves(s, step, a);
    case CheckStep(p, check, state, now) => CheckMoves(s, step, a);
    case _ =>
      QuietStep(s, step);
      SameMoves(s.tables, step, a);
  }

  lemma BeatMoves(s: State, step: Step, a: Id)
    requires step.BeatStep? && a in s.tables.attempts && IsActive(s.tables.attempts[a].status)
    ensures StatusMoves(s.tables, Beat(s, step.a, step.token, step.now).tables, step, a)
  {
    hide LeaseHeld, Lapsed;
  }

  lemma CheckMoves(s: State, step: Step, a: Id)
    requires step.CheckStep? && a in s.tables.attempts && IsActive(s.tables.attempts[a].status)
    ensures StatusMoves(s.tables, RecordCheck(s, step.p, step.check, step.state).tables, step, a)
  {
    hide Lapsed;
  }

  ghost predicate UnderWay(t: Tables, a: Id) {
    a in t.attempts && (t.attempts[a].status == Leased || t.attempts[a].status == Running)
  }

  // The pipeline is over, or over and pruned.
  ghost predicate PipelineOver(t: Tables, p: Id) {
    p in t.issued && (p in t.pipelines ==> IsTerminal(t.pipelines[p].status))
  }

  // While its pipeline is there, so is an attempt.
  lemma StaysWithPipeline(t: Tables, t': Tables, a: Id)
    requires Coherent(t) && Coherent(t') && Evolves(t, t') && a in t.attempts
    ensures t.attempts[a].jobID in t.jobs && t.jobs[t.attempts[a].jobID].pipelineID in t.pipelines
    ensures t.jobs[t.attempts[a].jobID].pipelineID in t'.pipelines ==> a in t'.attempts
  {
    assert AttemptRefs(t, a);
    var j := t.attempts[a].jobID;
    assert JobRefs(t, j);
    var p := t.jobs[j].pipelineID;
    if p in t'.pipelines {
      assert PipelineRefs(t, p) && Has(t, p, j);
      assert PipelineRefs(t', p) && PipelineEvolves(t.pipelines[p], t'.pipelines[p]);
      assert Has(t', p, j);
      assert JobRefs(t', j) && JobEvolves(t.jobs[j], t'.jobs[j]);
      assert t'.jobs[j].attemptIDs[t.attempts[a].number - 1] == a;
    }
  }

  // An attempt that was FAILED or CANCELLED took its pipeline with it.
  lemma EndsWithPipeline(t: Tables, t': Tables, a: Id)
    requires Coherent(t) && Coherent(t') && Evolves(t, t') && a in t.attempts && a in t'.attempts
    requires t'.attempts[a].status == Failed || t'.attempts[a].status == Cancelled
    ensures t.attempts[a].jobID in t.jobs && PipelineOver(t', t.jobs[t.attempts[a].jobID].pipelineID)
  {
    assert AttemptRefs(t, a) && AttemptRefs(t', a) && AttemptOk(t', a);
    assert AttemptEvolves(t.attempts[a], t'.attempts[a]);
    var j := t.attempts[a].jobID;
    assert JobEvolves(t.jobs[j], t'.jobs[j]);
    assert JobRefs(t', j);
    var p := t.jobs[j].pipelineID;
    assert PipelineFits(t', p) && j in Board(t', p);
    hide NoReturn, Rank;
  }

  // A lease that is not over ends only with a report of its own attempt, or with its pipeline: no step takes it
  // away from a worker that keeps it alive.
  lemma LeaseEndsOnlySo(s: State, step: Step, a: Id)
    requires Coherent(s.tables) && Enabled(s, step) && UnderWay(s.tables, a) && !Lapsed(s.tables, a, step.now)
    ensures s.tables.attempts[a].jobID in s.tables.jobs
    ensures var t', p := Apply(s, step).tables, s.tables.jobs[s.tables.attempts[a].jobID].pipelineID;
      UnderWay(t', a) || PipelineOver(t', p) || (step.FinishStep? && step.a == a)
  {
    hide Enabled, Apply, Lapsed;
    var t, t' := s.tables, Apply(s, step).tables;
    StepMoves(s, step, a);
    StepKeepsCoherent(s, step);
    StepEvolves(s, step);
    ActiveIsLast(t, a);
    CoherentIssued(t);
    StaysWithPipeline(t, t', a);
    if a in t'.attempts {
      assert AttemptOk(t', a);
      if t'.attempts[a].status == Failed || t'.attempts[a].status == Cancelled {
        EndsWithPipeline(t, t', a);
      } else {
        KnownStatus(t', a);
      }
    }
    hide Coherent, Evolves, StatusMoves;
  }

  lemma KnownStatus(t: Tables, a: Id)
    requires Coherent(t) && a in t.attempts
    ensures IsActive(t.attempts[a].status) || IsTerminal(t.attempts[a].status)
  {
    assert AttemptOk(t, a) && JobFits(t.jobs[t.attempts[a].jobID]);
  }

  // The steps from i on find the lease in force and bring no report of the attempt.
  ghost predicate KeptAlive(states: seq<State>, steps: seq<Step>, i: nat, k: nat, a: Id)
    requires |states| == |steps| + 1
  {
    i <= k < |states| && forall m {:trigger steps[m]} :: i <= m < k ==>
      !Lapsed(states[m].tables, a, steps[m].now) && !(steps[m].FinishStep? && steps[m].a == a)
  }

  // However long a worker keeps its lease alive by heartbeats in time, the attempt stays under way, unless its
  // pipeline comes to its end.
  lemma {:induction false} KeptAliveStaysUnderWay(states: seq<State>, steps: seq<Step>, i: nat, k: nat, a: Id)
    requires Run(states, steps) && KeptAlive(states, steps, i, k, a) && UnderWay(states[i].tables, a)
    ensures states[i].tables.attempts[a].jobID in states[i].tables.jobs
    ensures UnderWay(states[k].tables, a)
      || PipelineOver(states[k].tables, states[i].tables.jobs[states[i].tables.attempts[a].jobID].pipelineID)
  {
    CoherentThroughout(states, steps, i);
    ActiveIsLast(states[i].tables, a);
    if i < k {
      KeptAliveStaysUnderWay(states, steps, i, k - 1, a);
      assert Taken(states, steps, k - 1);
      CoherentThroughout(states, steps, k - 1);
      StepEvolves(states[k - 1], steps[k - 1]);
      RunEvolves(states, steps, i, k - 1);
      hide Run, Coherent, Evolves;
      var p := states[i].tables.jobs[states[i].tables.attempts[a].jobID].pipelineID;
      if PipelineOver(states[k - 1].tables, p) {
        OverStaysOver(states[k - 1].tables, states[k].tables, p);
      } else {
        SamePipeline(states[i].tables, states[k - 1].tables, a);
        assert steps[k - 1] == steps[k - 1];
        LeaseEndsOnlySo(states[k - 1], steps[k - 1], a);
      }
    }
  }

  lemma OverStaysOver(t: Tables, t': Tables, p: Id)
    requires Coherent(t) && Evolves(t, t') && PipelineOver(t, p)
    ensures PipelineOver(t', p)
  {
    if p in t.pipelines && p in t'.pipelines {
      assert PipelineEvolves(t.pipelines[p], t'.pipelines[p]);
    }
    hide Coherent, Rank;
  }

  lemma SamePipeline(t: Tables, t': Tables, a: Id)
    requires Coherent(t) && Coherent(t') && Evolves(t, t') && a in t.attempts && a in t'.attempts
    ensures t.attempts[a].jobID in t.jobs && t'.attempts[a].jobID in t'.jobs
    ensures t'.jobs[t'.attempts[a].jobID].pipelineID == t.jobs[t.attempts[a].jobID].pipelineID
  {
    assert AttemptRefs(t, a) && AttemptRefs(t', a);
    assert AttemptEvolves(t.attempts[a], t'.attempts[a]);
    assert JobEvolves(t.jobs[t.attempts[a].jobID], t'.jobs[t.attempts[a].jobID]);
    hide Coherent, Rank;
  }
}
