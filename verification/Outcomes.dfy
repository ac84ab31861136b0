// What a worker's report and a cancellation make of the tables, record by record.

module Outcomes {
  import opened Domain
  import opened TableModel
  import opened Model
  import opened Coherence
  import opened Steps
  import opened Confluence
  import opened Expiry
  import opened Renewal

  // The job is one of the pipeline's and not over.
  ghost predicate Pending(t: Tables, p: Id, j: Id) {
    j in t.jobs && t.jobs[j].pipelineID == p && !IsTerminal(t.jobs[j].status)
  }

  // Every pending job of the pipeline but those in x is CANCELLED, and its running attempt with it; no other job or
  // attempt changes, but for those in x and y.
  ghost predicate Halts(t: Tables, t': Tables, p: Id, x: set<Id>, y: set<Id>, now: Time) {
    && t'.jobs.Keys == t.jobs.Keys && t'.attempts.Keys == t.attempts.Keys
    && (forall j :: j in t.jobs && j !in x ==>
          t'.jobs[j] == if Pending(t, p, j) then t.jobs[j].(status := Cancelled) else t.jobs[j])
    && (forall b :: b in t.attempts && b !in y ==>
          t'.attempts[b] == if IsActive(t.attempts[b].status) && Pending(t, p, t.attempts[b].jobID)
                            then t.attempts[b].(status := Cancelled, completedAt := now) else t.attempts[b])
  }

  // ---- Reports ----

  // The record of an attempt under the report it came back with.
  function Reporting(record: Attempt, report: Report, now: Time): Attempt {
    record.(status := if report.success then Succeeded else Failed, completedAt := now, message := report.message,
            digest := report.digest, logKey := report.logKey, artefacts := report.artefacts)
  }

  // The pipeline needs nothing but this job.
  ghost predicate LastToSucceed(t: Tables, p: Id, j: Id) {
    forall k :: k in t.jobs && t.jobs[k].pipelineID == p && k != j ==> t.jobs[k].status == Succeeded
  }

  // The tables after a report of attempt a of job j in pipeline p: attempt and job end together; with the last
  // success the pipeline is SUCCEEDED, with a failure it is FAILED and all that is pending halts, and otherwise it
  // runs on.
  ghost predicate Settled(t: Tables, t': Tables, a: Id, j: Id, p: Id, report: Report, now: Time) {
    && a in t.attempts && j in t.jobs && p in t.pipelines
    && a in t'.attempts && t'.attempts[a] == Reporting(t.attempts[a], report, now)
    && j in t'.jobs && t'.jobs[j] == t.jobs[j].(status := if report.success then Succeeded else Failed)
    && t'.pipelines == t.pipelines[p := t.pipelines[p].(
         status := if !report.success then Failed else if LastToSucceed(t, p, j) then Succeeded else Running)]
    && (if report.success then t'.jobs == t.jobs[j := t'.jobs[j]] && t'.attempts == t.attempts[a := t'.attempts[a]]
        else Halts(t, t', p, {j}, {a}, now))
    && t'.tally == (if report.success then t.tally.(completed := t.tally.completed + 1)
                    else t.tally.(failed := t.tally.failed + 1,
                                  cancelled := t.tally.cancelled + |set k | k in t.jobs && Pending(t, p, k) && k != j|))
    && t'.sequence == t.sequence && t'.issued == t.issued
  }

  // The pipeline succeeds exactly with the last success it needed.
  lemma SuccessSettles(t: Tables, a: Id, report: Report, now: Time)
    requires Coherent(t) && Located(t, a) && IsActive(t.attempts[a].status)
    ensures var j := t.attempts[a].jobID;
      var p := t.jobs[j].pipelineID;
      var t1 := Settle(t, a, CommittedRecord(t.attempts[a], report, now));
      && (AnyFailed(t1, p) <==> !report.success)
      && (report.success ==> (AllSucceeded(t1, p) <==> LastToSucceed(t, p, j)))
  {
    var j := t.attempts[a].jobID;
    var p := t.jobs[j].pipelineID;
    var t1 := Settle(t, a, CommittedRecord(t.attempts[a], report, now));
    ActiveIsLast(t, a);
    PipelineSumsUpJobs(t, p);
    hide Coherent;
    forall k ensures Has(t1, p, k) <==> Has(t, p, k) {
    }
    if report.success {
      forall k | Has(t1, p, k) ensures t1.jobs[k].status != Failed {
        assert Has(t, p, k);
      }
    } else {
      assert Has(t1, p, j);
    }
  }

  lemma SettlesSuccess(t: Tables, a: Id, report: Report, now: Time)
    requires Coherent(t) && Located(t, a) && IsActive(t.attempts[a].status) && report.success
    ensures Settled(t, Complete(t, a, CommittedRecord(t.attempts[a], report, now), now), a, t.attempts[a].jobID,
                    t.jobs[t.attempts[a].jobID].pipelineID, report, now)
  {
    var record := CommittedRecord(t.attempts[a], report, now);
    var j := t.attempts[a].jobID;
    var p := t.jobs[j].pipelineID;
    var t1 := Settle(t, a, record);
    SuccessSettles(t, a, report, now);
    hide Coherent;
    hide AnyFailed, AllSucceeded, LastToSucceed;
  }

  lemma SettlesFailure(t: Tables, a: Id, report: Report, now: Time)
    requires Coherent(t) && Located(t, a) && IsActive(t.attempts[a].status) && !report.success
    ensures Settled(t, Complete(t, a, CommittedRecord(t.attempts[a], report, now), now), a, t.attempts[a].jobID,
                    t.jobs[t.attempts[a].jobID].pipelineID, report, now)
  {
    var record := CommittedRecord(t.attempts[a], report, now);
    hide Coherent, Complete, CancelJobs, Settle, Settled;
    CompleteFailedTables(t, a, record, now);
    forall b | b in t.attempts && IsActive(t.attempts[b].status)
      ensures b == a || t.attempts[b].jobID != t.attempts[a].jobID
    {
      if t.attempts[b].jobID == t.attempts[a].jobID {
        OneActiveAttempt(t, a, b);
      }
    }
    FailureSettles(t, a, report, now);
  }

  lemma FailureSettles(t: Tables, a: Id, report: Report, now: Time)
    requires Located(t, a) && !report.success
    requires forall b :: b in t.attempts && IsActive(t.attempts[b].status) ==>
      b == a || t.attempts[b].jobID != t.attempts[a].jobID
    ensures var p := t.jobs[t.attempts[a].jobID].pipelineID;
      var t1 := Settle(t, a, CommittedRecord(t.attempts[a], report, now));
      Settled(t, CancelJobs(WithStatus(t1, p, Failed), {p}, now), a, t.attempts[a].jobID, p, report, now)
  {
    var record := CommittedRecord(t.attempts[a], report, now);
    hide CancelJobs, Halts, Settle, LastToSucceed;
    FailureHalts(t, a, record, now);
    FailureCounts(t, a, record, now);
  }

  // Fail-fast, given that the attempt is its job's only one under way.
  lemma FailureHalts(t: Tables, a: Id, record: Attempt, now: Time)
    requires Located(t, a) && record.status == Failed && record.jobID == t.attempts[a].jobID
    requires forall b :: b in t.attempts && IsActive(t.attempts[b].status) ==>
      b == a || t.attempts[b].jobID != t.attempts[a].jobID
    ensures var j := t.attempts[a].jobID;
      var p := t.jobs[j].pipelineID;
      var t' := CancelJobs(WithStatus(Settle(t, a, record), p, Failed), {p}, now);
      && Halts(t, t', p, {j}, {a}, now) && a in t'.attempts && t'.attempts[a] == record
      && j in t'.jobs && t'.jobs[j] == t.jobs[j].(status := Failed)
  {
    var j := t.attempts[a].jobID;
    var p := t.jobs[j].pipelineID;
    var t' := CancelJobs(WithStatus(Settle(t, a, record), p, Failed), {p}, now);
    FailureKeys(t, a, record, now);
    hide CancelJobs, Settle;
    forall k | k in t.jobs
      ensures k in t'.jobs && t'.jobs[k] == if k == j then t.jobs[k].(status := Failed)
                                            else if Pending(t, p, k) then t.jobs[k].(status := Cancelled)
                                            else t.jobs[k]
    {
      FailureJob(t, a, record, now, k);
    }
    forall b | b in t.attempts && b != a
      ensures b in t'.attempts
      ensures t'.attempts[b] == if IsActive(t.attempts[b].status) && Pending(t, p, t.attempts[b].jobID)
                                then t.attempts[b].(status := Cancelled, completedAt := now) else t.attempts[b]
    {
      FailureAttempt(t, a, record, now, b);
    }
    hide Pending;
  }

  lemma FailureKeys(t: Tables, a: Id, record: Attempt, now: Time)
    requires Located(t, a) && IsTerminal(record.status)
    ensures var t' := CancelJobs(WithStatus(Settle(t, a, record), t.jobs[t.attempts[a].jobID].pipelineID, Failed),
                                 {t.jobs[t.attempts[a].jobID].pipelineID}, now);
      t'.jobs.Keys == t.jobs.Keys && t'.attempts.Keys == t.attempts.Keys && t'.attempts[a] == record
  {
    hide DoomedJobs, Doomed;
  }

  lemma FailureJob(t: Tables, a: Id, record: Attempt, now: Time, k: Id)
    requires Located(t, a) && record.status == Failed && k in t.jobs
    ensures var j := t.attempts[a].jobID;
      var p := t.jobs[j].pipelineID;
      var t' := CancelJobs(WithStatus(Settle(t, a, record), p, Failed), {p}, now);
      k in t'.jobs && t'.jobs[k] == if k == j then t.jobs[k].(status := Failed)
                                    else if Pending(t, p, k) then t.jobs[k].(status := Cancelled) else t.jobs[k]
  {
    hide DoomedJobs;
  }

  lemma FailureAttempt(t: Tables, a: Id, record: Attempt, now: Time, b: Id)
    requires Located(t, a) && record.status == Failed && b in t.attempts && b != a
    requires IsActive(t.attempts[b].status) ==> t.attempts[b].jobID != t.attempts[a].jobID
    ensures var p := t.jobs[t.attempts[a].jobID].pipelineID;
      var t' := CancelJobs(WithStatus(Settle(t, a, record), p, Failed), {p}, now);
      b in t'.attempts
      && t'.attempts[b] == if IsActive(t.attempts[b].status) && Pending(t, p, t.attempts[b].jobID)
                           then t.attempts[b].(status := Cancelled, completedAt := now) else t.attempts[b]
  {
    hide DoomedJobs;
  }

  lemma FailureCounts(t: Tables, a: Id, record: Attempt, now: Time)
    requires Located(t, a) && record.status == Failed
    ensures var j := t.attempts[a].jobID;
      var p := t.jobs[j].pipelineID;
      var t' := CancelJobs(WithStatus(Settle(t, a, record), p, Failed), {p}, now);
      && t'.pipelines == t.pipelines[p := t.pipelines[p].(status := Failed)]
      && t'.sequence == t.sequence && t'.issued == t.issued
      && t'.tally == t.tally.(failed := t.tally.failed + 1,
                              cancelled := t.tally.cancelled + |set k | k in t.jobs && Pending(t, p, k) && k != j|)
  {
    var j := t.attempts[a].jobID;
    var p := t.jobs[j].pipelineID;
    var t2 := WithStatus(Settle(t, a, record), p, Failed);
    assert DoomedJobs(t2, {p}) == set k | k in t.jobs && Pending(t, p, k) && k != j;
    hide DoomedJobs, Pending;
  }

  // A report under a held lease is taken over whole, and the pipeline follows; besides the tables only the preview of
  // a pipeline that succeeds may change.
  lemma ReportIsCommitted(s: State, a: Id, token: string, report: Report, now: Time)
    requires Coherent(s.tables) && Held(s.tables, a, token, now)
    ensures var s', j := Finish(s, a, token, report, now), s.tables.attempts[a].jobID;
      var p := s.tables.jobs[j].pipelineID;
      && Settled(s.tables, s'.tables, a, j, p, report, now)
      && FinishAnswer(s, a, token, report, now) == Success(Reporting(s.tables.attempts[a], report, now))
      && s' == s.(tables := s'.tables, previews := s'.previews,
                  metrics := s.metrics.(previewsCreated := s'.metrics.previewsCreated))
  {
    hide Coherent, Held, Commit, Complete, Settled, TimedOut;
    HeldIsHeld(s.tables, a, token, now);
    CommitTables(s, a, CommittedRecord(s.tables.attempts[a], report, now), now);
    if report.success {
      SettlesSuccess(s.tables, a, report, now);
    } else {
      SettlesFailure(s.tables, a, report, now);
    }
  }

  // The attempt came to its end before.
  ghost predicate Ended(t: Tables, a: Id) {
    && a in t.attempts
    && (t.attempts[a].status == Succeeded || t.attempts[a].status == Failed || t.attempts[a].status == Cancelled
        || t.attempts[a].status == Lost)
  }

  // Any other report changes nothing. It is answered with the record if it says what the attempt ended with, is a
  // conflict if it says anything else of an attempt that ended, and is stale otherwise.
  lemma ReportIsRefused(s: State, a: Id, token: string, report: Report, now: Time)
    requires Coherent(s.tables) && !Held(s.tables, a, token, now)
    ensures Finish(s, a, token, report, now) == s
    ensures FinishAnswer(s, a, token, report, now) ==
      if a !in s.tables.attempts then Failure(NotFound)
      else if s.tables.attempts[a].token != token || !Ended(s.tables, a) then Failure(StaleLease)
      else if Reporting(s.tables.attempts[a], report, s.tables.attempts[a].completedAt) == s.tables.attempts[a]
      then Success(s.tables.attempts[a])
      else Failure(Conflict)
  {
    HeldIsHeld(s.tables, a, token, now);
    hide Coherent, Held, LeaseHeld, Commit;
  }

  // ---- Cancelling ----

  // A job that is not over takes its whole pipeline with it: the pipeline and every pending job are CANCELLED, with
  // the attempts under way, and the preview of its pull request is to be deleted. Any other cancellation changes
  // nothing.
  lemma CancelStops(s: State, j: Id, now: Time)
    requires Coherent(s.tables)
    ensures j !in s.tables.jobs || IsTerminal(s.tables.jobs[j].status) ==> Cancel(s, j, now) == s
    ensures j in s.tables.jobs && !IsTerminal(s.tables.jobs[j].status) ==>
      var s', p := Cancel(s, j, now), s.tables.jobs[j].pipelineID;
      && p in s.tables.pipelines
      && s' == s.(tables := s'.tables, previews := s'.previews)
      && s'.tables.pipelines == s.tables.pipelines[p := s.tables.pipelines[p].(status := Cancelled)]
      && Halts(s.tables, s'.tables, p, {}, {}, now) && s'.tables.sequence == s.tables.sequence
      && s'.tables.tally == s.tables.tally.(cancelled := s.tables.tally.cancelled
                                              + |set k | k in s.tables.jobs && Pending(s.tables, p, k)|)
      && (var q := s.tables.pipelines[p]; var key := PRKey(Lower(q.repo), q.pr);
          s'.previews == if q.pr <= 0 || key !in s.previews || s.previews[key].desired == Deleting then s.previews
                         else s.previews[key := s.previews[key].(desired := Deleting, updatedAt := now,
                                                                 generation := s.previews[key].generation + 1)])
  {
    hide Coherent, CancelPipelines, Halts, Pending, Lower;
    if j in s.tables.jobs && !IsTerminal(s.tables.jobs[j].status) {
      UnfinishedPipeline(s.tables, j);
      CancelHalts(s.tables, s.tables.jobs[j].pipelineID, now);
    }
  }

  lemma CancelHalts(t: Tables, p: Id, now: Time)
    requires p in t.pipelines
    ensures var t' := CancelPipelines(t, {p}, now);
      && t'.pipelines == t.pipelines[p := t.pipelines[p].(status := Cancelled)]
      && Halts(t, t', p, {}, {}, now) && t'.sequence == t.sequence && t'.issued == t.issued
      && t'.tally == t.tally.(cancelled := t.tally.cancelled + |set k | k in t.jobs && Pending(t, p, k)|)
  {
    var t1 := MarkCancelled(t, {p});
    assert t1 == t.(pipelines := t.pipelines[p := t.pipelines[p].(status := Cancelled)]);
    hide MarkCancelled;
    CancelJobsHalts(t, t1, p, now);
    hide CancelJobs, Halts, Pending;
  }

  lemma CancelJobsHalts(t: Tables, t1: Tables, p: Id, now: Time)
    requires t1.jobs == t.jobs && t1.attempts == t.attempts && t1.tally == t.tally
    ensures var t' := CancelJobs(t1, {p}, now);
      && t'.pipelines == t1.pipelines && t'.sequence == t1.sequence && t'.issued == t1.issued
      && Halts(t, t', p, {}, {}, now)
      && t'.tally == t.tally.(cancelled := t.tally.cancelled + |set k | k in t.jobs && Pending(t, p, k)|)
  {
    assert forall k :: Doomed(t1, {p}, k) <==> Pending(t, p, k);
    assert DoomedJobs(t1, {p}) == set k | k in t.jobs && Pending(t, p, k);
    hide DoomedJobs, Doomed, Pending;
  }
}
