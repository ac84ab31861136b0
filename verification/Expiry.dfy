// What the expiry sweep does to every lease, read off the records' own fields.

module Expiry {
  import opened Domain
  import opened Ordering
  import opened TableModel
  import opened Coherence
  import opened Confluence
  import Capacity

  // The attempt has run for as long as its job may: 900 seconds unless the job says otherwise.
  ghost predicate OutOfTime(t: Tables, a: Id, now: Time)
    requires a in t.attempts && t.attempts[a].jobID in t.jobs
  {
    var spec := t.jobs[t.attempts[a].jobID].spec;
    now - t.attempts[a].createdAt >= (if spec.timeoutSeconds <= 0 then 900 else spec.timeoutSeconds) * 1_000_000_000
  }

  // A lease that is over: its end has come, or its attempt is out of time.
  ghost predicate Lapsed(t: Tables, a: Id, now: Time) {
    && a in t.attempts && t.attempts[a].jobID in t.jobs
    && (t.attempts[a].status == Leased || t.attempts[a].status == Running)
    && (now >= t.attempts[a].leaseExpires || OutOfTime(t, a, now))
  }

  // Such a lease of an attempt that will not be followed by another: out of time, or the last one allowed, the
  // third unless the job says otherwise.
  ghost predicate GivenUp(t: Tables, a: Id, now: Time) {
    && Lapsed(t, a, now)
    && var spec := t.jobs[t.attempts[a].jobID].spec;
    OutOfTime(t, a, now) || t.attempts[a].number >= (if spec.maxAttempts <= 0 then 3 else spec.maxAttempts)
  }

  ghost predicate Failing(t: Tables, p: Id, now: Time) {
    exists a :: GivenUp(t, a, now) && t.jobs[t.attempts[a].jobID].pipelineID == p
  }

  // ---- The same in the sweep's own terms ----

  lemma LapsedIsExpired(t: Tables, a: Id, now: Time)
    requires Coherent(t)
    ensures Lapsed(t, a, now) <==> Expired(t, a, now)
    ensures GivenUp(t, a, now) <==> Condemned(t, a, now)
  {
    if a in t.attempts {
      assert AttemptRefs(t, a);
      assert JobRefs(t, t.attempts[a].jobID);
    }
    hide Coherent;
  }

  lemma FailingIsFated(t: Tables, p: Id, now: Time)
    requires Coherent(t)
    ensures Failing(t, p, now) <==> Fated(t, p, now)
  {
    hide Coherent, Exhausted, OutOfTime;
    forall a ensures GivenUp(t, a, now) <==> Condemned(t, a, now) {
      LapsedIsExpired(t, a, now);
    }
    if Failing(t, p, now) {
      var a :| GivenUp(t, a, now) && t.jobs[t.attempts[a].jobID].pipelineID == p;
      LapsedIsExpired(t, a, now);
      assert Condemned(t, a, now) && PipelineOf(t, a) == p;
    }
  }

  // ---- How an active attempt may end ----

  // The record of an attempt that was active: as it was, or over in one of three ways.
  ghost predicate Ends(t: Tables, t': Tables, a: Id, now: Time)
    requires a in t.attempts
  {
    && a in t'.attempts
    && (t'.attempts[a] == t.attempts[a]
        || (t'.attempts[a] == t.attempts[a].(status := Lost, completedAt := now)
            && Lapsed(t, a, now) && !GivenUp(t, a, now))
        || (t'.attempts[a] == t.attempts[a].(status := Failed, completedAt := now,
                                             message := "attempt timeout or retry limit exceeded")
            && GivenUp(t, a, now))
        || t'.attempts[a] == t.attempts[a].(status := Cancelled, completedAt := now))
  }

  // The leases that were taken back: their attempts are LOST or FAILED.
  ghost function TakenBack(t: Tables, t': Tables): set<Id> {
    set a | a in t.attempts && a in t'.attempts && IsActive(t.attempts[a].status)
      && (t'.attempts[a].status == Lost || t'.attempts[a].status == Failed)
  }

  // One round on one active attempt.
  lemma RoundEnds(t: Tables, x: Id, now: Time, a: Id)
    requires Coherent(t) && a in t.attempts
    ensures var t' := SweepOne(t, x, now);
      && Ends(t, t', a, now)
      && (!IsActive(t.attempts[a].status) ==> t'.attempts[a] == t.attempts[a])
      && (a in TakenBack(t, t') <==> a == x && Expired(t, x, now))
  {
    LapsedIsExpired(t, a, now);
    hide Lapsed, GivenUp, Coherent, Complete;
    if Expired(t, x, now) {
      ActiveIsLast(t, x);
      if Exhausted(t, x, now) {
        var record := ExhaustedRecord(t.attempts[x], now);
        FailsAttempt(t, x, record, now, a);
        CancelledWhen(t, x, record, now, a);
      }
    }
  }

  // What fail-fast does to another attempt is to cancel it now, or nothing.
  lemma CancelledWhen(t: Tables, x: Id, record: Attempt, now: Time, a: Id)
    requires Coherent(t) && Located(t, x) && a in t.attempts && record.status == Failed
    requires IsActive(t.attempts[x].status)
    ensures var t' := Complete(t, x, record, now);
      a in t'.attempts && if a == x then t'.attempts[a] == record
                          else t'.attempts[a] == t.attempts[a] || t'.attempts[a] == CancelledRecord(t.attempts[a], now)
  {
    CompleteFailedTables(t, x, record, now);
    hide Coherent, Complete, DoomedJobs;
  }

  // What is left of the records after some rounds.
  ghost predicate EndsSoFar(t: Tables, t': Tables, now: Time) {
    && t'.attempts.Keys == t.attempts.Keys
    && (forall a {:trigger Ends(t, t', a, now)} :: a in t.attempts ==> Ends(t, t', a, now))
    && (forall a :: a in t.attempts && !IsActive(t.attempts[a].status) ==> t'.attempts[a] == t.attempts[a])
  }

  // Jobs keep what their attempts are judged by.
  lemma JudgedAlike(t: Tables, t1: Tables, done: set<Id>, a: Id, now: Time)
    requires Coherent(t) && SweptTo(t, t1, done, now) && a in t.attempts && t1.attempts[a] == t.attempts[a]
    ensures Lapsed(t1, a, now) <==> Lapsed(t, a, now)
    ensures GivenUp(t1, a, now) <==> GivenUp(t, a, now)
  {
    assert AttemptRefs(t, a);
    assert JobSwept(t, t1, done, t.attempts[a].jobID, now);
    hide Coherent, Condemns, Dropped;
  }

  lemma OneMoreRound(t: Tables, t1: Tables, done: set<Id>, x: Id, now: Time)
    requires Coherent(t) && Coherent(t1) && SweptTo(t, t1, done, now) && EndsSoFar(t, t1, now)
    ensures EndsSoFar(t, SweepOne(t1, x, now), now)
  {
    hide Coherent, SweptTo, SweepOne, Expired, Lapsed, GivenUp;
    var t2 := SweepOne(t1, x, now);
    Capacity.SweepOneNewAttempts(t1, x, now);
    forall a | a in t.attempts
      ensures Ends(t, t2, a, now) && (!IsActive(t.attempts[a].status) ==> t2.attempts[a] == t.attempts[a])
    {
      assert Ends(t, t1, a, now);
      RoundEnds(t1, x, now, a);
      if t1.attempts[a] == t.attempts[a] {
        JudgedAlike(t, t1, done, a, now);
      }
    }
  }

  // One more lease is taken back exactly if the round finds one that expired.
  lemma OneMoreTakenBack(t: Tables, t1: Tables, x: Id, now: Time)
    requires Coherent(t1) && EndsSoFar(t, t1, now) && EndsSoFar(t, SweepOne(t1, x, now), now)
    ensures |TakenBack(t, SweepOne(t1, x, now))| == |TakenBack(t, t1)| + if Expired(t1, x, now) then 1 else 0
  {
    hide Coherent, SweepOne, Expired, Ends, EndsSoFar;
    var t2 := SweepOne(t1, x, now);
    forall a | a in t.attempts
      ensures a in TakenBack(t, t2) <==> a in TakenBack(t, t1) || (a == x && Expired(t1, x, now))
    {
      TakenBackAt(t, t1, x, now, a);
    }
    if Expired(t1, x, now) {
      ExpiredIsActive(t1, x, now);
      NotYetTakenBack(t, t1, x, now);
      hide TakenBack;
      assert TakenBack(t, t2) == TakenBack(t, t1) + {x} by {
        TakenBackIsThere(t, t1);
        TakenBackIsThere(t, t2);
      }
    } else {
      assert TakenBack(t, t2) == TakenBack(t, t1);
    }
  }

  lemma TakenBackIsThere(t: Tables, t': Tables)
    ensures TakenBack(t, t') <= t.attempts.Keys
  {
  }

  lemma TakenBackAt(t: Tables, t1: Tables, x: Id, now: Time, a: Id)
    requires Coherent(t1) && EndsSoFar(t, t1, now) && EndsSoFar(t, SweepOne(t1, x, now), now) && a in t.attempts
    ensures a in TakenBack(t, SweepOne(t1, x, now)) <==> a in TakenBack(t, t1) || (a == x && Expired(t1, x, now))
  {
    assert Ends(t, t1, a, now);
    hide Coherent, SweepOne, Expired, Ends, TakenBack;
    assert a in t1.attempts;
    RoundEnds(t1, x, now, a);
    if Expired(t1, x, now) {
      ExpiredIsActive(t1, x, now);
    }
    TakenBackCases(t, t1, SweepOne(t1, x, now), now, a);
  }

  lemma TakenBackCases(t: Tables, t1: Tables, t2: Tables, now: Time, a: Id)
    requires a in t.attempts && a in t1.attempts && Ends(t, t1, a, now) && Ends(t1, t2, a, now)
    requires !IsActive(t.attempts[a].status) ==> t1.attempts[a] == t.attempts[a]
    requires !IsActive(t1.attempts[a].status) ==> t2.attempts[a] == t1.attempts[a]
    ensures a in TakenBack(t, t2) <==> a in TakenBack(t, t1) || a in TakenBack(t1, t2)
  {
    hide Lapsed, GivenUp;
  }

  lemma NotYetTakenBack(t: Tables, t1: Tables, x: Id, now: Time)
    requires EndsSoFar(t, t1, now) && x in t1.attempts && IsActive(t1.attempts[x].status)
    ensures x in t.attempts && x !in TakenBack(t, t1)
  {
    hide Ends;
  }

  lemma ExpiredIsActive(t: Tables, x: Id, now: Time)
    requires Expired(t, x, now)
    ensures x in t.attempts && IsActive(t.attempts[x].status)
  {
  }

  lemma {:induction false} SweepEnds(t: Tables, order: seq<Id>, now: Time)
    requires Coherent(t) && Distinct(order)
    ensures EndsSoFar(t, Sweep(t, order, now), now)
    ensures |TakenBack(t, Sweep(t, order, now))| == Swept(t, order, now)
  {
    if order == [] {
      assert TakenBack(t, t) == {};
    } else {
      var before, x := order[..|order| - 1], order[|order| - 1];
      SweepEnds(t, before, now);
      SweepSweeps(t, before, now);
      SweepKeeps(t, before, now);
      var t1 := Sweep(t, before, now);
      OneMoreRound(t, t1, Elements(before), x, now);
      OneMoreTakenBack(t, t1, x, now);
      hide Coherent, SweptTo, SweepOne, Expired, EndsSoFar, TakenBack;
    }
  }

  // ---- What the sweep does ----

  // A lease that is over goes back unless its pipeline fails: the attempt is LOST and its job waits again.
  lemma LapsedIsRetried(t: Tables, order: seq<Id>, a: Id, now: Time)
    requires Coherent(t) && Enumerates(order, t.attempts.Keys)
    requires Lapsed(t, a, now) && !Failing(t, t.jobs[t.attempts[a].jobID].pipelineID, now)
    ensures var t', j := Sweep(t, order, now), t.attempts[a].jobID;
      && a in t'.attempts && t'.attempts[a] == t.attempts[a].(status := Lost, completedAt := now)
      && j in t'.jobs && t'.jobs[j] == t.jobs[j].(status := Queued)
  {
    var p := t.jobs[t.attempts[a].jobID].pipelineID;
    assert Elements(order) == t.attempts.Keys;
    SweepSweeps(t, order, now);
    LapsedIsExpired(t, a, now);
    FailingIsFated(t, p, now);
    NotFatedNotCondemned(t, t.attempts.Keys, p, now);
    ActiveIsLast(t, a);
    var t' := Sweep(t, order, now);
    assert AttemptSwept(t, t', t.attempts.Keys, a, now) && JobSwept(t, t', t.attempts.Keys, t.attempts[a].jobID, now);
    hide Coherent, Sweep, SweptTo, Condemns, Failing, Expired;
    assert Dropped(t, t.attempts.Keys, t.attempts[a].jobID, now);
  }

  // A lease that is not over is left alone unless its pipeline fails.
  lemma HeldIsKept(t: Tables, order: seq<Id>, a: Id, now: Time)
    requires Coherent(t) && Enumerates(order, t.attempts.Keys) && a in t.attempts && t.attempts[a].jobID in t.jobs
    requires t.attempts[a].status == Leased || t.attempts[a].status == Running
    requires !Lapsed(t, a, now) && !Failing(t, t.jobs[t.attempts[a].jobID].pipelineID, now)
    ensures var t', j := Sweep(t, order, now), t.attempts[a].jobID;
      && a in t'.attempts && t'.attempts[a] == t.attempts[a] && j in t'.jobs && t'.jobs[j] == t.jobs[j]
  {
    var p, j := t.jobs[t.attempts[a].jobID].pipelineID, t.attempts[a].jobID;
    assert Elements(order) == t.attempts.Keys;
    SweepSweeps(t, order, now);
    LapsedIsExpired(t, a, now);
    FailingIsFated(t, p, now);
    NotFatedNotCondemned(t, t.attempts.Keys, p, now);
    ActiveIsLast(t, a);
    NobodyElseDrops(t, a, now);
    var t' := Sweep(t, order, now);
    assert AttemptSwept(t, t', t.attempts.Keys, a, now) && JobSwept(t, t', t.attempts.Keys, j, now);
    hide Coherent, Sweep, SweptTo, Condemns, Failing, Expired, Lapsed, Dropped;
  }

  lemma NobodyElseDrops(t: Tables, a: Id, now: Time)
    requires Coherent(t) && a in t.attempts && IsActive(t.attempts[a].status) && !Expired(t, a, now)
    ensures !Dropped(t, t.attempts.Keys, t.attempts[a].jobID, now)
  {
    hide Coherent;
    forall b | Expired(t, b, now) ensures t.attempts[b].jobID != t.attempts[a].jobID {
      if t.attempts[b].jobID == t.attempts[a].jobID {
        OneActiveAttempt(t, a, b);
      }
    }
  }

  // ---- A pipeline that fails ----

  // The sweep lets no job succeed.
  lemma NothingSucceeds(t: Tables, t': Tables, j: Id, now: Time)
    requires Coherent(t) && Coherent(t') && EndsSoFar(t, t', now) && j in t.jobs && j in t'.jobs
    requires t'.jobs[j].attemptIDs == t.jobs[j].attemptIDs && t'.jobs[j].status == Succeeded
    ensures t.jobs[j].status == Succeeded
  {
    assert JobRefs(t', j) && JobFits(t'.jobs[j]) && JobRefs(t, j);
    var ids := t.jobs[j].attemptIDs;
    var a := ids[|ids| - 1];
    assert AttemptOk(t', a) && AttemptOk(t, a);
    hide Coherent, Lapsed, GivenUp;
    assert Ends(t, t', a, now);
  }

  // An attempt that ended FAILED was given up, and so did its job.
  lemma FailedIsGivenUp(t: Tables, t': Tables, a: Id, now: Time)
    requires Coherent(t) && Coherent(t') && EndsSoFar(t, t', now) && a in t.attempts && IsActive(t.attempts[a].status)
    requires t'.attempts[a].status == Failed
    ensures GivenUp(t, a, now) && t.attempts[a].jobID in t'.jobs && t'.jobs[t.attempts[a].jobID].status == Failed
    ensures t'.attempts[a] == t.attempts[a].(status := Failed, completedAt := now,
                                             message := "attempt timeout or retry limit exceeded")
  {
    hide Lapsed, GivenUp;
    assert Ends(t, t', a, now);
    assert AttemptRefs(t', a) && AttemptOk(t', a);
    hide Coherent;
  }

  // The last attempt of a job that the sweep failed was given up.
  lemma FailedLast(t: Tables, t': Tables, j: Id, now: Time) returns (a: Id)
    requires Coherent(t) && Coherent(t') && EndsSoFar(t, t', now) && j in t.jobs && j in t'.jobs
    requires t'.jobs[j].attemptIDs == t.jobs[j].attemptIDs && t'.jobs[j].status == Failed
    requires t.jobs[j].status != Failed
    ensures a in t.attempts && IsActive(t.attempts[a].status) && t.attempts[a].jobID == j
    ensures t'.attempts[a].status == Failed
  {
    assert JobRefs(t', j) && JobFits(t'.jobs[j]) && JobRefs(t, j);
    var ids := t.jobs[j].attemptIDs;
    a := ids[|ids| - 1];
    assert AttemptOk(t', a) && AttemptOk(t, a);
    hide Coherent, Ends;
  }

  // In a pipeline that fails one attempt that was given up is FAILED, with its job; every other job that was
  // not over is CANCELLED, and every other lease ends with it.
  ghost predicate FailsBy(t: Tables, t': Tables, p: Id, a: Id, now: Time) {
    && GivenUp(t, a, now) && t.jobs[t.attempts[a].jobID].pipelineID == p && a in t'.attempts
    && t'.attempts[a] == t.attempts[a].(status := Failed, completedAt := now,
                                        message := "attempt timeout or retry limit exceeded")
    && (forall k :: k in t.jobs && t.jobs[k].pipelineID == p ==>
          k in t'.jobs
          && t'.jobs[k] == if IsTerminal(t.jobs[k].status) then t.jobs[k]
                           else if k == t.attempts[a].jobID then t.jobs[k].(status := Failed)
                           else t.jobs[k].(status := Cancelled))
    && (forall b :: b in t.attempts && IsActive(t.attempts[b].status) && Has(t, p, t.attempts[b].jobID) && b != a ==>
          b in t'.attempts
          && (t'.attempts[b] == t.attempts[b].(status := Lost, completedAt := now)
              || t'.attempts[b] == t.attempts[b].(status := Cancelled, completedAt := now)))
  }

  lemma FailingIsRunning(t: Tables, p: Id, now: Time)
    requires Coherent(t) && Failing(t, p, now)
    ensures p in t.pipelines && t.pipelines[p].status == Running
  {
    var a :| GivenUp(t, a, now) && t.jobs[t.attempts[a].jobID].pipelineID == p;
    ActiveIsLast(t, a);
    hide Coherent, Failing;
  }

  lemma SomeJobFails(t: Tables, order: seq<Id>, p: Id, now: Time)
    requires Coherent(t) && Enumerates(order, t.attempts.Keys) && Failing(t, p, now)
    ensures exists j :: FailedAlone(Board(Sweep(t, order, now), p), j)
  {
    FailingIsRunning(t, p, now);
    FailingIsFated(t, p, now);
    SweepDecides(t, order, now);
    hide Coherent, Sweep, Fated, Failing, Survives, Expired;
    assert p in FatedPipelines(t, now);
  }

  lemma FailedJobBefore(t: Tables, t': Tables, p: Id, j: Id, now: Time)
    requires Coherent(t) && SweptTo(t, t', t.attempts.Keys, now) && Failing(t, p, now)
    requires j in Board(t', p) && Board(t', p)[j] == Failed
    ensures j in t.jobs && j in t'.jobs && t'.jobs[j].attemptIDs == t.jobs[j].attemptIDs
    ensures t.jobs[j].status != Failed && t'.jobs[j].status == Failed && t.jobs[j].pipelineID == p
  {
    FailingIsRunning(t, p, now);
    PipelineSumsUpJobs(t, p);
    hide Coherent, Failing, Condemns, Dropped, TallySwept;
    assert JobSwept(t, t', t.attempts.Keys, j, now);
    assert !AnyFailed(t, p);
    assert !Has(t, p, j) || t.jobs[j].status != Failed;
  }

  // What becomes of each job of the pipeline.
  lemma JobOfFailing(t: Tables, t': Tables, p: Id, j: Id, k: Id, now: Time)
    requires Coherent(t) && Coherent(t') && EndsSoFar(t, t', now) && SweptTo(t, t', t.attempts.Keys, now)
    requires p in Condemns(t, t.attempts.Keys, now) && FailedAlone(Board(t', p), j)
    requires j in t.jobs && t.jobs[j].status != Failed && Has(t, p, k)
    ensures k in t'.jobs
    ensures t'.jobs[k] == if IsTerminal(t.jobs[k].status) then t.jobs[k]
                          else if k == j then t.jobs[k].(status := Failed) else t.jobs[k].(status := Cancelled)
  {
    assert JobSwept(t, t', t.attempts.Keys, k, now);
    hide Condemns, Dropped, SweptTo;
    assert JobFits(t'.jobs[k]);
    assert k in Board(t', p) && Board(t', p)[k] == t'.jobs[k].status;
    hide Board;
    if t'.jobs[k].status == Succeeded {
      NothingSucceeds(t, t', k, now);
    }
    hide Coherent;
  }

  // What becomes of each other lease of the pipeline.
  lemma AttemptOfFailing(t: Tables, t': Tables, p: Id, a: Id, b: Id, now: Time)
    requires Coherent(t) && Coherent(t') && EndsSoFar(t, t', now) && SweptTo(t, t', t.attempts.Keys, now)
    requires p in Condemns(t, t.attempts.Keys, now) && a in t.attempts && IsActive(t.attempts[a].status)
    requires FailedAlone(Board(t', p), t.attempts[a].jobID)
    requires b in t.attempts && IsActive(t.attempts[b].status) && Has(t, p, t.attempts[b].jobID) && b != a
    ensures b in t'.attempts
    ensures t'.attempts[b] == t.attempts[b].(status := Lost, completedAt := now)
      || t'.attempts[b] == t.attempts[b].(status := Cancelled, completedAt := now)
  {
    assert AttemptSwept(t, t', t.attempts.Keys, b, now);
    assert JobSwept(t, t', t.attempts.Keys, t.attempts[b].jobID, now);
    hide Condemns, Dropped, SweptTo, Lapsed, GivenUp;
    assert Ends(t, t', b, now);
    if t'.attempts[b].status == Failed {
      FailedIsGivenUp(t, t', b, now);
      assert t.attempts[b].jobID in Board(t', p) && Board(t', p)[t.attempts[b].jobID] == Failed;
      OneActiveAttempt(t, a, b);
    }
    hide Coherent;
  }

  lemma FailsByAttempt(t: Tables, t': Tables, p: Id, a: Id, now: Time)
    requires Coherent(t) && Coherent(t') && EndsSoFar(t, t', now) && SweptTo(t, t', t.attempts.Keys, now)
    requires p in Condemns(t, t.attempts.Keys, now) && a in t.attempts && IsActive(t.attempts[a].status)
    requires t.attempts[a].jobID in t.jobs && FailedAlone(Board(t', p), t.attempts[a].jobID)
    requires t.jobs[t.attempts[a].jobID].status != Failed && t.jobs[t.attempts[a].jobID].pipelineID == p
    requires t'.attempts[a].status == Failed
    ensures FailsBy(t, t', p, a, now)
  {
    hide EndsSoFar, SweptTo, Coherent, Condemns, FailedAlone, GivenUp, Board;
    FailedIsGivenUp(t, t', a, now);
    forall k | k in t.jobs && t.jobs[k].pipelineID == p
      ensures k in t'.jobs
        && t'.jobs[k] == if IsTerminal(t.jobs[k].status) then t.jobs[k]
                         else if k == t.attempts[a].jobID then t.jobs[k].(status := Failed)
                         else t.jobs[k].(status := Cancelled)
    {
      assert Has(t, p, k);
      JobOfFailing(t, t', p, t.attempts[a].jobID, k, now);
    }
    forall b | b in t.attempts && IsActive(t.attempts[b].status) && Has(t, p, t.attempts[b].jobID) && b != a
      ensures b in t'.attempts
        && (t'.attempts[b] == t.attempts[b].(status := Lost, completedAt := now)
            || t'.attempts[b] == t.attempts[b].(status := Cancelled, completedAt := now))
    {
      AttemptOfFailing(t, t', p, a, b, now);
    }
    SameAttempts(t, t', now);
  }

  lemma SameAttempts(t: Tables, t': Tables, now: Time)
    requires EndsSoFar(t, t', now)
    ensures t'.attempts.Keys == t.attempts.Keys
  {
  }

  lemma FailingFails(t: Tables, order: seq<Id>, p: Id, now: Time) returns (a: Id)
    requires Coherent(t) && Enumerates(order, t.attempts.Keys) && Failing(t, p, now)
    ensures FailsBy(t, Sweep(t, order, now), p, a, now)
  {
    var t' := Sweep(t, order, now);
    SomeJobFails(t, order, p, now);
    SweepKeeps(t, order, now);
    SweepEnds(t, order, now);
    SweepSweeps(t, order, now);
    assert Elements(order) == t.attempts.Keys;
    FailingIsFated(t, p, now);
    FailingIsRunning(t, p, now);
    AllCondemns(t, now);
    assert p in Condemns(t, t.attempts.Keys, now);
    hide Sweep, EndsSoFar, SweptTo, Coherent, Failing, Condemns, Fated, FailsBy, Elements, FatedPipelines;
    var j :| FailedAlone(Board(t', p), j);
    FailedJobBefore(t, t', p, j, now);
    a := FailedLast(t, t', j, now);
    FailsByAttempt(t, t', p, a, now);
  }

  // ---- The sweep as a whole ----

  ghost function FailingPipelines(t: Tables, now: Time): set<Id> {
    set p | p in t.pipelines && Failing(t, p, now)
  }

  // Exactly the pipelines with a lease that is given up fail, in each of them one job is counted failed, and the
  // rest that was unfinished cancelled.
  ghost predicate PipelinesFail(t: Tables, t': Tables, now: Time) {
    var failed := FailingPipelines(t, now);
    && t'.pipelines.Keys == t.pipelines.Keys
    && (forall p :: p in t.pipelines ==>
          t'.pipelines[p] == if p in failed then t.pipelines[p].(status := Failed) else t.pipelines[p])
    && (forall p :: p in failed ==> FailsSomehow(t, t', p, now))
    && t'.tally.completed == t.tally.completed && t'.tally.failed == t.tally.failed + |failed|
    && t'.tally.cancelled + |failed| == t.tally.cancelled
         + |set j | j in t.jobs && t.jobs[j].pipelineID in failed && !IsTerminal(t.jobs[j].status)|
  }

  // Everywhere else a lease that is over goes back, and all others stay.
  ghost predicate LeasesGoBack(t: Tables, t': Tables, now: Time) {
    var failed := FailingPipelines(t, now);
    && (forall a :: a in t.attempts && !(Located(t, a) && t.jobs[t.attempts[a].jobID].pipelineID in failed) ==>
          a in t'.attempts && t'.attempts[a] == if Lapsed(t, a, now)
                                                then t.attempts[a].(status := Lost, completedAt := now)
                                                else t.attempts[a])
    && (forall a :: Lapsed(t, a, now) && t.jobs[t.attempts[a].jobID].pipelineID !in failed ==>
          && t.attempts[a].jobID in t'.jobs
          && t'.jobs[t.attempts[a].jobID] == t.jobs[t.attempts[a].jobID].(status := Queued))
    && (forall j :: j in t.jobs && t.jobs[j].pipelineID !in failed
                    && (forall a :: Lapsed(t, a, now) ==> t.attempts[a].jobID != j) ==>
          j in t'.jobs && t'.jobs[j] == t.jobs[j])
  }

  // Whatever order the sweep ranges in: it fails the pipelines with a lease that is given up; any other lease that is
  // over goes back; a lease that is not over stays unless its pipeline fails; and the sweep reports as many leases as
  // it took back.
  lemma SweepByTheFields(t: Tables, order: seq<Id>, now: Time)
    requires Coherent(t) && Enumerates(order, t.attempts.Keys)
    ensures var t' := Sweep(t, order, now);
      && PipelinesFail(t, t', now) && LeasesGoBack(t, t', now)
      && Swept(t, order, now) == |set a | a in t.attempts && a in t'.attempts
           && (t.attempts[a].status == Leased || t.attempts[a].status == Running)
           && (t'.attempts[a].status == Lost || t'.attempts[a].status == Failed)|
  {
    hide Sweep, Swept, Coherent, FailsSomehow, FailingPipelines, Lapsed, Located, LeasesGoBack;
    ByPipelines(t, order, now);
    ByFailing(t, order, now);
    ByLeases(t, order, now);
    ByCount(t, order, now);
  }

  lemma ByPipelines(t: Tables, order: seq<Id>, now: Time)
    requires Coherent(t) && Enumerates(order, t.attempts.Keys)
    ensures var t', failed := Sweep(t, order, now), FailingPipelines(t, now);
      && t'.pipelines.Keys == t.pipelines.Keys
      && (forall p :: p in t.pipelines ==>
            t'.pipelines[p] == if p in failed then t.pipelines[p].(status := Failed) else t.pipelines[p])
      && t'.tally.completed == t.tally.completed && t'.tally.failed == t.tally.failed + |failed|
      && t'.tally.cancelled + |failed| == t.tally.cancelled
           + |set j | j in t.jobs && t.jobs[j].pipelineID in failed && !IsTerminal(t.jobs[j].status)|
  {
    var failed := FailingPipelines(t, now);
    SweepDecides(t, order, now);
    FailingAreFated(t, now);
    hide Sweep, Coherent, Survives, Expired, Board, FailedAlone, FailingPipelines, Fated;
    assert DoomedJobs(t, failed)
      == set j | j in t.jobs && t.jobs[j].pipelineID in failed && !IsTerminal(t.jobs[j].status);
  }

  lemma ByFailing(t: Tables, order: seq<Id>, now: Time)
    requires Coherent(t) && Enumerates(order, t.attempts.Keys)
    ensures forall p :: p in FailingPipelines(t, now) ==> FailsSomehow(t, Sweep(t, order, now), p, now)
  {
    hide Sweep, Coherent, FailsBy, FailingPipelines;
    forall p | p in FailingPipelines(t, now) ensures FailsSomehow(t, Sweep(t, order, now), p, now) {
      FailingPipelinesFail(t, p, now);
      var a := FailingFails(t, order, p, now);
    }
  }

  lemma ByLeases(t: Tables, order: seq<Id>, now: Time)
    requires Coherent(t) && Enumerates(order, t.attempts.Keys)
    ensures LeasesGoBack(t, Sweep(t, order, now), now)
  {
    var t', failed := Sweep(t, order, now), FailingPipelines(t, now);
    LapsedIsThere(t, now);
    hide Sweep, Coherent, FailingPipelines, Lapsed;
    forall a | a in t.attempts && !(Located(t, a) && t.jobs[t.attempts[a].jobID].pipelineID in failed)
      ensures a in t'.attempts
      ensures t'.attempts[a] == if Lapsed(t, a, now) then t.attempts[a].(status := Lost, completedAt := now)
                                else t.attempts[a]
      ensures Lapsed(t, a, now) ==>
        t.attempts[a].jobID in t'.jobs
        && t'.jobs[t.attempts[a].jobID] == t.jobs[t.attempts[a].jobID].(status := Queued)
    {
      OutsideFailing(t, order, a, now);
    }
    forall j | j in t.jobs && t.jobs[j].pipelineID !in failed
               && (forall a :: Lapsed(t, a, now) ==> t.attempts[a].jobID != j)
      ensures j in t'.jobs && t'.jobs[j] == t.jobs[j]
    {
      IdleIsKept(t, order, j, now);
    }
  }

  lemma ByCount(t: Tables, order: seq<Id>, now: Time)
    requires Coherent(t) && Enumerates(order, t.attempts.Keys)
    ensures var t' := Sweep(t, order, now);
      Swept(t, order, now) == |set a | a in t.attempts && a in t'.attempts
        && (t.attempts[a].status == Leased || t.attempts[a].status == Running)
        && (t'.attempts[a].status == Lost || t'.attempts[a].status == Failed)|
  {
    hide Sweep, Swept, Coherent, EndsSoFar;
    SweepEnds(t, order, now);
    TakenBackReads(t, Sweep(t, order, now));
    hide TakenBack;
  }

  lemma TakenBackReads(t: Tables, t': Tables)
    ensures TakenBack(t, t') == set a | a in t.attempts && a in t'.attempts
      && (t.attempts[a].status == Leased || t.attempts[a].status == Running)
      && (t'.attempts[a].status == Lost || t'.attempts[a].status == Failed)
  {
  }

  // A job whose lease is not over, or that has none, stays as it is unless its pipeline fails.
  lemma IdleIsKept(t: Tables, order: seq<Id>, j: Id, now: Time)
    requires Coherent(t) && Enumerates(order, t.attempts.Keys) && j in t.jobs
    requires t.jobs[j].pipelineID !in FailingPipelines(t, now)
    requires forall a :: Lapsed(t, a, now) ==> t.attempts[a].jobID != j
    ensures var t' := Sweep(t, order, now); j in t'.jobs && t'.jobs[j] == t.jobs[j]
  {
    assert Elements(order) == t.attempts.Keys;
    SweepSweeps(t, order, now);
    assert JobRefs(t, j);
    FailingIsFated(t, t.jobs[j].pipelineID, now);
    NotFatedNotCondemned(t, t.attempts.Keys, t.jobs[j].pipelineID, now);
    forall a | Expired(t, a, now) ensures t.attempts[a].jobID != j {
      LapsedIsExpired(t, a, now);
    }
    hide Coherent, Sweep, Condemns, Lapsed, Expired, Failing;
    assert JobSwept(t, Sweep(t, order, now), t.attempts.Keys, j, now);
    assert !Dropped(t, t.attempts.Keys, j, now) by {
      ExpiredAreThere(t, now);
    }
    hide SweptTo, Dropped;
  }

  lemma ExpiredAreThere(t: Tables, now: Time)
    ensures forall a :: Expired(t, a, now) ==> a in t.attempts
  {
  }

  lemma LapsedIsThere(t: Tables, now: Time)
    ensures forall a :: Lapsed(t, a, now) ==> a in t.attempts && t.attempts[a].jobID in t.jobs
  {
  }

  ghost predicate FailsSomehow(t: Tables, t': Tables, p: Id, now: Time) {
    exists a :: FailsBy(t, t', p, a, now)
  }

  lemma FailingPipelinesFail(t: Tables, p: Id, now: Time)
    requires p in FailingPipelines(t, now)
    ensures Failing(t, p, now)
  {
  }

  lemma FailingAreFated(t: Tables, now: Time)
    requires Coherent(t)
    ensures FailingPipelines(t, now) == FatedPipelines(t, now)
    ensures forall p :: p in t.pipelines ==> (p in FailingPipelines(t, now) <==> Fated(t, p, now))
  {
    hide Coherent, Failing, Fated;
    forall p | p in t.pipelines ensures Failing(t, p, now) <==> Fated(t, p, now) {
      FailingIsFated(t, p, now);
    }
  }

  lemma OutsideFailing(t: Tables, order: seq<Id>, a: Id, now: Time)
    requires Coherent(t) && Enumerates(order, t.attempts.Keys) && a in t.attempts
    requires !(Located(t, a) && t.jobs[t.attempts[a].jobID].pipelineID in FailingPipelines(t, now))
    ensures var t' := Sweep(t, order, now);
      && a in t'.attempts
      && t'.attempts[a] == (if Lapsed(t, a, now) then t.attempts[a].(status := Lost, completedAt := now)
                            else t.attempts[a])
      && (Lapsed(t, a, now) ==>
            t.attempts[a].jobID in t'.jobs
            && t'.jobs[t.attempts[a].jobID] == t.jobs[t.attempts[a].jobID].(status := Queued))
  {
    assert AttemptRefs(t, a);
    assert JobRefs(t, t.attempts[a].jobID);
    SweepEnds(t, order, now);
    hide Coherent, Sweep, Failing, Ends;
    if Lapsed(t, a, now) {
      LapsedIsRetried(t, order, a, now);
    } else if IsActive(t.attempts[a].status) {
      HeldIsKept(t, order, a, now);
    }
    hide Lapsed;
  }
}
