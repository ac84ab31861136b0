// Leases over runs: what a lease token can still do, and what it can no longer do.

module Leases {
  import opened Domain
  import opened TableModel
  import opened Model
  import opened Coherence
  import opened Steps
  import opened Evolution

  // ---- One completion ----

  // The guards inside the completion proper, on top of those Finish has already checked: the attempt is
  // active under this token and lease, in time, and its job was not cancelled.
  ghost predicate CompletionPasses(t: Tables, a: Id, token: string, now: Time) {
    LeaseHeld(t, a, token, now) && t.jobs[t.attempts[a].jobID].status != Cancelled
  }

  // A result is committed with its metadata and its transition together, or nothing changes at all. The
  // completion inside Finish never refuses what Finish let through.
  lemma FinishIsAtomic(s: State, a: Id, token: string, report: Report, now: Time)
    requires Coherent(s.tables)
    ensures var s' := Finish(s, a, token, report, now);
      var answer := FinishAnswer(s, a, token, report, now);
      && (LeaseHeld(s.tables, a, token, now) <==> CompletionPasses(s.tables, a, token, now))
      && (s' != s ==> LeaseHeld(s.tables, a, token, now))
      && (LeaseHeld(s.tables, a, token, now) ==> answer == Success(CommittedRecord(s.tables.attempts[a], report, now)))
      && (LeaseHeld(s.tables, a, token, now) ==>
            var j := s.tables.attempts[a].jobID;
            && a in s'.tables.attempts && j in s'.tables.jobs
            && s'.tables.attempts[a] == answer.value && s'.tables.jobs[j].status == Wanted(report))
      && (answer.Failure? ==> s' == s)
  {
    hide Coherent, Commit, Complete, TimedOut;
    if LeaseHeld(s.tables, a, token, now) {
      ActiveIsLast(s.tables, a);
      var record := CommittedRecord(s.tables.attempts[a], report, now);
      CommitTables(s, a, record, now);
      CompleteSettles(s.tables, a, record, now);
    }
  }

  // What completion does to the attempt and its job is not undone by the pipeline's own transition.
  lemma CompleteSettles(t: Tables, a: Id, record: Attempt, now: Time)
    requires Located(t, a) && IsTerminal(record.status) && record.jobID == t.attempts[a].jobID
    ensures var t' := Complete(t, a, record, now);
      var j := t.attempts[a].jobID;
      a in t'.attempts && j in t'.jobs && t'.attempts[a] == record && t'.jobs[j].status == record.status
  {
    var t1 := Settle(t, a, record);
    UpdateKeepsEnded(t1, PipelineOf(t, a), now, a);
    hide UpdateTables;
  }

  lemma UpdateKeepsEnded(t: Tables, p: Id, now: Time, a: Id)
    requires p in t.pipelines && a in t.attempts && t.attempts[a].jobID in t.jobs && IsTerminal(t.attempts[a].status)
    requires IsTerminal(t.jobs[t.attempts[a].jobID].status)
    ensures var t' := UpdateTables(t, p, now);
      && a in t'.attempts && t'.attempts[a] == t.attempts[a]
      && t.attempts[a].jobID in t'.jobs && t'.jobs[t.attempts[a].jobID] == t.jobs[t.attempts[a].jobID]
  {
    hide AnyFailed, AllSucceeded;
  }

  // ---- Fences ----

  // An attempt that ended stays as it is until it is pruned: no heartbeat renews it, no completion changes
  // anything, and the only completion still answered is a replay of the very result it ended with.
  lemma EndedIsFenced(states: seq<State>, steps: seq<Step>, i: nat, k: nat, a: Id, token: string, report: Report,
                      now: Time)
    requires Run(states, steps) && i <= k < |states|
    requires a in states[i].tables.attempts && IsTerminal(states[i].tables.attempts[a].status)
    requires a in states[k].tables.attempts
    ensures var s := states[k];
      var record := states[i].tables.attempts[a];
      && s.tables.attempts[a] == record
      && BeatAnswer(s, a, token, now) == Failure(StaleLease) && Beat(s, a, token, now) == s
      && Finish(s, a, token, report, now) == s
      && FinishAnswer(s, a, token, report, now) ==
           if record.token != token then Failure(StaleLease)
           else if Matches(record, report) then Success(record) else Failure(Conflict)
  {
    hide Run, NoReturn, Rank, Commit, Renew;
    RunEvolves(states, steps, i, k);
    assert AttemptEvolves(states[i].tables.attempts[a], states[k].tables.attempts[a]);
  }

  // A committed result, reported again at any later time while the attempt is retained, gets the same record back.
  lemma ReplayReturnsTheSame(states: seq<State>, steps: seq<Step>, i: nat, k: nat, now: Time)
    requires Run(states, steps) && i < k < |states| && steps[i].FinishStep?
    requires LeaseHeld(states[i].tables, steps[i].a, steps[i].token, steps[i].now)
    requires steps[i].a in states[k].tables.attempts
    ensures var step := steps[i];
      && FinishAnswer(states[k], step.a, step.token, step.report, now)
           == FinishAnswer(states[i], step.a, step.token, step.report, step.now)
      && Finish(states[k], step.a, step.token, step.report, now) == states[k]
  {
    var step := steps[i];
    assert Taken(states, steps, i);
    CoherentThroughout(states, steps, i);
    hide Run, Coherent;
    FinishIsAtomic(states[i], step.a, step.token, step.report, step.now);
    hide Finish, LeaseHeld;
    EndedIsFenced(states, steps, i + 1, k, step.a, step.token, step.report, now);
  }

  // Once a job has a later attempt, an earlier one is LOST: it can neither heartbeat nor commit, ever.
  lemma RetryFencesOff(states: seq<State>, steps: seq<Step>, i: nat, k: nat, a: Id, b: Id, token: string,
                       report: Report, now: Time)
    requires Run(states, steps) && i <= k < |states|
    requires a in states[i].tables.attempts && b in states[i].tables.attempts && a in states[k].tables.attempts
    requires states[i].tables.attempts[a].jobID == states[i].tables.attempts[b].jobID
    requires states[i].tables.attempts[a].number < states[i].tables.attempts[b].number
    ensures states[k].tables.attempts[a] == states[i].tables.attempts[a] && states[k].tables.attempts[a].status == Lost
    ensures BeatAnswer(states[k], a, token, now) == Failure(StaleLease)
    ensures FinishAnswer(states[k], a, token, report, now).Failure?
    ensures Finish(states[k], a, token, report, now) == states[k]
  {
    CoherentThroughout(states, steps, i);
    EarlierIsLost(states[i].tables, a, b);
    hide Coherent, Run, Finish, Beat;
    EndedIsFenced(states, steps, i, k, a, token, report, now);
  }

  lemma EarlierIsLost(t: Tables, a: Id, b: Id)
    requires Coherent(t) && a in t.attempts && b in t.attempts
    requires t.attempts[a].jobID == t.attempts[b].jobID && t.attempts[a].number < t.attempts[b].number
    ensures t.attempts[a].status == Lost
  {
    assert AttemptRefs(t, b) && AttemptOk(t, a);
  }

  // At most one attempt of a job ever carries a result.
  lemma OneResult(t: Tables, a: Id, b: Id)
    requires Coherent(t) && a in t.attempts && b in t.attempts && t.attempts[a].jobID == t.attempts[b].jobID
    requires t.attempts[a].status == Succeeded || t.attempts[a].status == Failed
    requires t.attempts[b].status == Succeeded || t.attempts[b].status == Failed
    ensures a == b
  {
    assert AttemptRefs(t, a) && AttemptRefs(t, b) && AttemptOk(t, a) && AttemptOk(t, b);
  }

  // ---- How often a job can change ----

  ghost predicate Kept(states: seq<State>, i: nat, k: nat, j: Id) {
    k < |states| && forall m {:trigger states[m]} :: i <= m <= k ==> j in states[m].tables.jobs
  }

  ghost function Changes(states: seq<State>, i: nat, k: nat, j: Id): nat
    requires Kept(states, i, k, j)
    decreases k
  {
    if k <= i then 0
    else Changes(states, i, k - 1, j) + if states[k].tables.jobs[j] == states[k - 1].tables.jobs[j] then 0 else 1
  }

  lemma JobRanked(t: Tables, j: Id)
    requires Coherent(t) && j in t.jobs
    ensures 0 <= Rank(t.jobs[j]) <= 3 * RetryLimit(t.jobs[j].spec)
    ensures |t.jobs[j].attemptIDs| <= RetryLimit(t.jobs[j].spec)
  {
    assert JobFits(t.jobs[j]);
    UnfinishedHasRank(t.jobs[j]);
  }

  lemma {:induction false} ChangesUseUpRank(states: seq<State>, steps: seq<Step>, i: nat, k: nat, j: Id)
    requires Run(states, steps) && i <= k && Kept(states, i, k, j)
    ensures Changes(states, i, k, j) <= Rank(states[i].tables.jobs[j]) - Rank(states[k].tables.jobs[j])
  {
    hide Run;
    if i < k {
      ChangesUseUpRank(states, steps, i, k - 1, j);
      RunEvolves(states, steps, k - 1, k);
      assert JobEvolves(states[k - 1].tables.jobs[j], states[k].tables.jobs[j]);
    }
    hide Evolves;
  }

  // In any run a job changes at most three times per attempt it is allowed, and is attempted no more often
  // than it is allowed.
  lemma JobsComeToAnEnd(states: seq<State>, steps: seq<Step>, i: nat, k: nat, j: Id)
    requires Run(states, steps) && i <= k && Kept(states, i, k, j)
    ensures var limit := RetryLimit(states[i].tables.jobs[j].spec);
      Changes(states, i, k, j) <= 3 * limit && |states[k].tables.jobs[j].attemptIDs| <= limit
  {
    ChangesUseUpRank(states, steps, i, k, j);
    CoherentThroughout(states, steps, i);
    CoherentThroughout(states, steps, k);
    RunEvolves(states, steps, i, k);
    hide Run, Coherent, Rank;
    JobRanked(states[i].tables, j);
    JobRanked(states[k].tables, j);
    assert JobEvolves(states[i].tables.jobs[j], states[k].tables.jobs[j]);
  }
}
