// The expiry sweep ranges over a map in arbitrary order. What it decides does not depend on that order:
// which pipelines fail, which attempts stay active, how many jobs are counted failed and cancelled.

module Confluence {
  import opened Domain
  import opened Ordering
  import opened TableModel
  import opened Coherence

  // An expired attempt that may not be retried.
  ghost predicate Condemned(t: Tables, a: Id, now: Time) {
    Expired(t, a, now) && Exhausted(t, a, now)
  }

  // The pipelines that the given attempts condemn.
  ghost function Condemns(t: Tables, done: set<Id>, now: Time): set<Id> {
    set a | a in done && Condemned(t, a, now) :: PipelineOf(t, a)
  }

  // The job loses its lease to one of the given attempts.
  ghost predicate Dropped(t: Tables, done: set<Id>, j: Id, now: Time) {
    exists a :: a in done && Expired(t, a, now) && t.attempts[a].jobID == j
  }

  ghost predicate AttemptSwept(t: Tables, t': Tables, done: set<Id>, a: Id, now: Time) {
    && a in t.attempts && a in t'.attempts
    && SameButEnd(t.attempts[a], t'.attempts[a])
    && (!IsActive(t.attempts[a].status) ==> t'.attempts[a] == t.attempts[a])
    && (IsActive(t.attempts[a].status) ==> Located(t, a) && ActiveSwept(t, t', done, a, now))
  }

  ghost predicate ActiveSwept(t: Tables, t': Tables, done: set<Id>, a: Id, now: Time)
    requires Located(t, a) && a in t'.attempts
  {
    if PipelineOf(t, a) in Condemns(t, done, now) then IsTerminal(t'.attempts[a].status)
    else if a in done && Expired(t, a, now) then t'.attempts[a] == LostRecord(t.attempts[a], now)
    else t'.attempts[a] == t.attempts[a]
  }

  predicate SameButEnd(x: Attempt, y: Attempt) {
    y == x.(status := y.status, completedAt := y.completedAt, message := y.message)
  }

  ghost predicate JobSwept(t: Tables, t': Tables, done: set<Id>, j: Id, now: Time) {
    && j in t.jobs && j in t'.jobs
    && if IsTerminal(t.jobs[j].status) then t'.jobs[j] == t.jobs[j]
       else if t.jobs[j].pipelineID in Condemns(t, done, now)
       then t'.jobs[j] == t.jobs[j].(status := t'.jobs[j].status) && IsTerminal(t'.jobs[j].status)
       else if Dropped(t, done, j, now) then t'.jobs[j] == t.jobs[j].(status := Queued)
       else t'.jobs[j] == t.jobs[j]
  }

  ghost predicate PipelineSwept(t: Tables, t': Tables, done: set<Id>, p: Id, now: Time) {
    && p in t.pipelines && p in t'.pipelines
    && t'.pipelines[p] == if p in Condemns(t, done, now) then t.pipelines[p].(status := Failed) else t.pipelines[p]
  }

  ghost predicate TallySwept(t: Tables, t': Tables, done: set<Id>, now: Time) {
    var failed := Condemns(t, done, now);
    && t'.tally.completed == t.tally.completed
    && t'.tally.failed == t.tally.failed + |failed|
    && t'.tally.cancelled == t.tally.cancelled + |DoomedJobs(t, failed)| - |failed|
  }

  // What a sweep has made of t after looking at the attempts in done, in whatever order.
  ghost predicate SweptTo(t: Tables, t': Tables, done: set<Id>, now: Time) {
    && t'.pipelines.Keys == t.pipelines.Keys && t'.jobs.Keys == t.jobs.Keys && t'.attempts.Keys == t.attempts.Keys
    && (forall a {:trigger AttemptSwept(t, t', done, a, now)} :: a in t.attempts ==> AttemptSwept(t, t', done, a, now))
    && (forall j {:trigger JobSwept(t, t', done, j, now)} :: j in t.jobs ==> JobSwept(t, t', done, j, now))
    && (forall p {:trigger PipelineSwept(t, t', done, p, now)} :: p in t.pipelines ==>
          PipelineSwept(t, t', done, p, now))
    && TallySwept(t, t', done, now)
  }

  // ---- One more attempt ----

  // An attempt not yet looked at is still expired exactly if its pipeline was not condemned meanwhile.
  lemma StillExpired(t: Tables, t': Tables, done: set<Id>, a: Id, now: Time)
    requires Coherent(t) && SweptTo(t, t', done, now) && a !in done
    ensures Expired(t', a, now) <==> Expired(t, a, now) && PipelineOf(t, a) !in Condemns(t, done, now)
    ensures Expired(t', a, now) ==>
      t'.attempts[a] == t.attempts[a] && PipelineOf(t', a) == PipelineOf(t, a)
        && (Exhausted(t', a, now) <==> Exhausted(t, a, now))
  {
    hide Coherent, TallySwept, Condemns, Dropped;
    if a in t.attempts {
      assert AttemptSwept(t, t', done, a, now);
      if IsActive(t.attempts[a].status) {
        ActiveIsLast(t, a);
        assert JobSwept(t, t', done, t.attempts[a].jobID, now);
        hide SweptTo;
        StillExpiredAt(t, t', done, a, now);
      }
    }
  }

  lemma StillExpiredAt(t: Tables, t': Tables, done: set<Id>, a: Id, now: Time)
    requires AttemptSwept(t, t', done, a, now) && IsActive(t.attempts[a].status) && a !in done
    requires JobSwept(t, t', done, t.attempts[a].jobID, now)
    requires !IsTerminal(t.jobs[t.attempts[a].jobID].status) && t'.pipelines.Keys == t.pipelines.Keys
    ensures Expired(t', a, now) <==> Expired(t, a, now) && PipelineOf(t, a) !in Condemns(t, done, now)
    ensures Expired(t', a, now) ==>
      t'.attempts[a] == t.attempts[a] && PipelineOf(t', a) == PipelineOf(t, a)
        && (Exhausted(t', a, now) <==> Exhausted(t, a, now))
  {
    hide Condemns, Dropped;
  }

  // One more attempt that condemns nothing leaves the condemned pipelines as they were.
  lemma NoMoreCondemned(t: Tables, done: set<Id>, a: Id, now: Time)
    requires Condemned(t, a, now) ==> PipelineOf(t, a) in Condemns(t, done, now)
    ensures Condemns(t, done + {a}, now) == Condemns(t, done, now)
  {
  }

  lemma OneMoreCondemned(t: Tables, done: set<Id>, a: Id, now: Time)
    requires Condemned(t, a, now)
    ensures Condemns(t, done + {a}, now) == Condemns(t, done, now) + {PipelineOf(t, a)}
  {
  }

  // Nothing happens at an attempt that is no longer expired.
  lemma SkipStep(t: Tables, t': Tables, done: set<Id>, a: Id, now: Time)
    requires Coherent(t) && SweptTo(t, t', done, now) && a !in done && !Expired(t', a, now)
    ensures SweptTo(t, t', done + {a}, now)
  {
    hide Coherent, Condemns, SweptTo, Expired;
    StillExpired(t, t', done, a, now);
    NoMoreCondemned(t, done, a, now);
    SkipSweeps(t, t', done, a, now);
  }

  lemma SkipSweeps(t: Tables, t': Tables, done: set<Id>, a: Id, now: Time)
    requires SweptTo(t, t', done, now) && Condemns(t, done + {a}, now) == Condemns(t, done, now)
    requires Expired(t, a, now) ==> PipelineOf(t, a) in Condemns(t, done, now)
    ensures SweptTo(t, t', done + {a}, now)
  {
    hide Condemns, DoomedJobs;
    SkipSweepsJobs(t, t', done, a, now);
    hide Expired, JobSwept;
    forall b | b in t.attempts ensures AttemptSwept(t, t', done + {a}, b, now) {
      assert AttemptSwept(t, t', done, b, now);
    }
    forall p | p in t.pipelines ensures PipelineSwept(t, t', done + {a}, p, now) {
      assert PipelineSwept(t, t', done, p, now);
    }
  }

  lemma SkipSweepsJobs(t: Tables, t': Tables, done: set<Id>, a: Id, now: Time)
    requires SweptTo(t, t', done, now) && Condemns(t, done + {a}, now) == Condemns(t, done, now)
    requires Expired(t, a, now) ==> PipelineOf(t, a) in Condemns(t, done, now)
    ensures forall j {:trigger JobSwept(t, t', done + {a}, j, now)} :: j in t.jobs ==>
      JobSwept(t, t', done + {a}, j, now)
  {
    hide Condemns, DoomedJobs, AttemptSwept, PipelineSwept, TallySwept, TimedOut;
    forall j | j in t.jobs ensures JobSwept(t, t', done + {a}, j, now) {
      assert JobSwept(t, t', done, j, now);
      if Expired(t, a, now) && t.attempts[a].jobID == j {
      } else {
        assert Dropped(t, done + {a}, j, now) <==> Dropped(t, done, j, now);
      }
    }
  }

  // The step taken at an expired attempt that may be retried.
  ghost predicate Loses(t: Tables, t': Tables, t2: Tables, done: set<Id>, a: Id, now: Time) {
    && Located(t, a) && a !in done && IsActive(t.attempts[a].status) && !IsTerminal(t.jobs[t.attempts[a].jobID].status)
    && Expired(t, a, now) && PipelineOf(t, a) !in Condemns(t, done, now)
    && Condemns(t, done + {a}, now) == Condemns(t, done, now)
    && t.attempts[a].jobID in t'.jobs
    && t2 == t'.(attempts := t2.attempts, jobs := t2.jobs)
    && t2.attempts == t'.attempts[a := LostRecord(t.attempts[a], now)]
    && t2.jobs == t'.jobs[t.attempts[a].jobID := t'.jobs[t.attempts[a].jobID].(status := Queued)]
  }

  lemma LoseStep(t: Tables, t': Tables, done: set<Id>, a: Id, now: Time)
    requires Coherent(t) && Coherent(t') && SweptTo(t, t', done, now) && a !in done
    requires Expired(t', a, now) && !Exhausted(t', a, now)
    ensures SweptTo(t, SweepOne(t', a, now), done + {a}, now)
  {
    StillExpired(t, t', done, a, now);
    NoMoreCondemned(t, done, a, now);
    ActiveIsLast(t, a);
    ActiveIsLast(t', a);
    var t2 := SweepOne(t', a, now);
    hide Coherent, Condemns, SweptTo;
    assert Loses(t, t', t2, done, a, now);
    hide SweepOne;
    LoseSweeps(t, t', t2, done, a, now);
  }

  lemma LoseSweeps(t: Tables, t': Tables, t2: Tables, done: set<Id>, a: Id, now: Time)
    requires SweptTo(t, t', done, now) && Loses(t, t', t2, done, a, now)
    ensures SweptTo(t, t2, done + {a}, now)
  {
    hide Condemns, Expired, DoomedJobs, Dropped, JobSwept, AttemptSwept, PipelineSwept;
    LoseSweepsJobs(t, t', t2, done, a, now);
    forall b | b in t.attempts ensures AttemptSwept(t, t2, done + {a}, b, now) {
      assert AttemptSwept(t, t', done, b, now);
      LoseSweepsAttempt(t, t', t2, done, a, b, now);
    }
    forall p | p in t.pipelines ensures PipelineSwept(t, t2, done + {a}, p, now) {
      assert PipelineSwept(t, t', done, p, now);
      LoseSweepsPipeline(t, t', t2, done, a, p, now);
    }
  }

  lemma LoseSweepsAttempt(t: Tables, t': Tables, t2: Tables, done: set<Id>, a: Id, b: Id, now: Time)
    requires Loses(t, t', t2, done, a, now) && AttemptSwept(t, t', done, b, now)
    ensures AttemptSwept(t, t2, done + {a}, b, now)
  {
    hide Condemns, Expired;
  }

  lemma LoseSweepsPipeline(t: Tables, t': Tables, t2: Tables, done: set<Id>, a: Id, p: Id, now: Time)
    requires Loses(t, t', t2, done, a, now) && PipelineSwept(t, t', done, p, now)
    ensures PipelineSwept(t, t2, done + {a}, p, now)
  {
    hide Condemns, Expired;
  }

  lemma LoseSweepsJobs(t: Tables, t': Tables, t2: Tables, done: set<Id>, a: Id, now: Time)
    requires SweptTo(t, t', done, now) && Loses(t, t', t2, done, a, now)
    ensures forall j {:trigger JobSwept(t, t2, done + {a}, j, now)} :: j in t.jobs ==>
      JobSwept(t, t2, done + {a}, j, now)
  {
    hide Condemns, Expired, AttemptSwept, PipelineSwept, TallySwept;
    forall k | k in t.jobs ensures JobSwept(t, t2, done + {a}, k, now) {
      assert JobSwept(t, t', done, k, now);
      if k != t.attempts[a].jobID {
        assert Dropped(t, done + {a}, k, now) <==> Dropped(t, done, k, now);
      } else {
        assert Dropped(t, done + {a}, k, now);
      }
    }
  }

  // The step taken at a condemned attempt: its pipeline fails, whatever else is left in it is cancelled.
  ghost predicate Fails(t: Tables, t': Tables, t2: Tables, done: set<Id>, a: Id, now: Time) {
    && Located(t, a) && a !in done && IsActive(t.attempts[a].status) && !IsTerminal(t.jobs[t.attempts[a].jobID].status)
    && PipelineOf(t, a) !in Condemns(t, done, now)
    && Condemns(t, done + {a}, now) == Condemns(t, done, now) + {PipelineOf(t, a)}
    && t.attempts[a].jobID in t'.jobs && PipelineOf(t, a) in t'.pipelines
    && t2.pipelines == t'.pipelines[PipelineOf(t, a) := t'.pipelines[PipelineOf(t, a)].(status := Failed)]
    && t2.jobs.Keys == t'.jobs.Keys && t2.attempts.Keys == t'.attempts.Keys
    && (forall k :: k in t'.jobs ==> t2.jobs[k] == FailedJob(t', PipelineOf(t, a), t.attempts[a].jobID, k))
    && (forall b :: b in t'.attempts ==> FailedAttempt(t', t2, PipelineOf(t, a), a, b))
  }

  ghost function FailedJob(t: Tables, p: Id, j: Id, k: Id): Job
    requires k in t.jobs
  {
    if k == j then t.jobs[k].(status := Failed)
    else if t.jobs[k].pipelineID == p && !IsTerminal(t.jobs[k].status) then t.jobs[k].(status := Cancelled)
    else t.jobs[k]
  }

  ghost predicate FailedAttempt(t: Tables, t2: Tables, p: Id, a: Id, b: Id) {
    && b in t.attempts && b in t2.attempts && SameButEnd(t.attempts[b], t2.attempts[b])
    && if b == a then t2.attempts[b].status == Failed
       else if IsActive(t.attempts[b].status) && Located(t, b) && PipelineOf(t, b) == p
       then t2.attempts[b].status == Cancelled
       else t2.attempts[b] == t.attempts[b]
  }

  lemma FailSweeps(t: Tables, t': Tables, t2: Tables, done: set<Id>, a: Id, now: Time)
    requires Coherent(t) && SweptTo(t, t', done, now) && Fails(t, t', t2, done, a, now)
    ensures forall b {:trigger AttemptSwept(t, t2, done + {a}, b, now)} :: b in t.attempts ==>
      AttemptSwept(t, t2, done + {a}, b, now)
  {
    hide Condemns, Expired, TallySwept, PipelineSwept, Dropped, Coherent;
    forall b | b in t.attempts ensures AttemptSwept(t, t2, done + {a}, b, now) {
      FailSweepsOne(t, t', t2, done, a, b, now);
    }
  }

  lemma FailSweepsOne(t: Tables, t': Tables, t2: Tables, done: set<Id>, a: Id, b: Id, now: Time)
    requires Coherent(t) && SweptTo(t, t', done, now) && Fails(t, t', t2, done, a, now) && b in t.attempts
    ensures AttemptSwept(t, t2, done + {a}, b, now)
  {
    hide Condemns, Expired, TallySwept, PipelineSwept, Dropped, Coherent, FailedJob, ActiveSwept;
    assert AttemptSwept(t, t', done, b, now);
    assert FailedAttempt(t', t2, PipelineOf(t, a), a, b);
    if IsActive(t.attempts[b].status) {
      assert JobSwept(t, t', done, t.attempts[b].jobID, now);
      hide SweptTo, Fails;
      FailSweepsActive(t, t', t2, done, a, b, now);
    }
  }

  lemma FailSweepsActive(t: Tables, t': Tables, t2: Tables, done: set<Id>, a: Id, b: Id, now: Time)
    requires Fails(t, t', t2, done, a, now) && b in t.attempts && IsActive(t.attempts[b].status)
    requires AttemptSwept(t, t', done, b, now) && JobSwept(t, t', done, t.attempts[b].jobID, now)
    requires t.jobs[t.attempts[b].jobID].pipelineID in t'.pipelines
    requires FailedAttempt(t', t2, PipelineOf(t, a), a, b)
    ensures AttemptSwept(t, t2, done + {a}, b, now)
  {
    hide Condemns, Expired, Dropped, FailedJob;
  }

  lemma FailSweepsJobs(t: Tables, t': Tables, t2: Tables, done: set<Id>, a: Id, now: Time)
    requires SweptTo(t, t', done, now) && Fails(t, t', t2, done, a, now)
    ensures forall j {:trigger JobSwept(t, t2, done + {a}, j, now)} :: j in t.jobs ==>
      JobSwept(t, t2, done + {a}, j, now)
    ensures forall p {:trigger PipelineSwept(t, t2, done + {a}, p, now)} :: p in t.pipelines ==>
      PipelineSwept(t, t2, done + {a}, p, now)
  {
    hide Condemns, Expired, TallySwept, AttemptSwept, JobSwept, PipelineSwept, Fails;
    forall k | k in t.jobs ensures JobSwept(t, t2, done + {a}, k, now) {
      FailSweepsJob(t, t', t2, done, a, k, now);
    }
    forall p | p in t.pipelines ensures PipelineSwept(t, t2, done + {a}, p, now) {
      assert PipelineSwept(t, t', done, p, now);
      FailSweepsPipeline(t, t', t2, done, a, p, now);
    }
  }

  lemma FailSweepsJob(t: Tables, t': Tables, t2: Tables, done: set<Id>, a: Id, k: Id, now: Time)
    requires SweptTo(t, t', done, now) && Fails(t, t', t2, done, a, now) && k in t.jobs
    ensures JobSwept(t, t2, done + {a}, k, now)
  {
    hide Condemns, Expired, TallySwept, AttemptSwept, PipelineSwept;
    assert JobSwept(t, t', done, k, now);
    assert t2.jobs[k] == FailedJob(t', PipelineOf(t, a), t.attempts[a].jobID, k);
    if k != t.attempts[a].jobID {
      assert Dropped(t, done + {a}, k, now) <==> Dropped(t, done, k, now);
    }
  }

  lemma FailSweepsPipeline(t: Tables, t': Tables, t2: Tables, done: set<Id>, a: Id, p: Id, now: Time)
    requires Fails(t, t', t2, done, a, now) && p in t.pipelines && PipelineSwept(t, t', done, p, now)
    ensures PipelineSwept(t, t2, done + {a}, p, now)
  {
    hide Condemns;
  }

  // In an untouched pipeline the same jobs are unfinished as at the start.
  lemma DoomedAsBefore(t: Tables, t': Tables, done: set<Id>, p: Id, now: Time)
    requires SweptTo(t, t', done, now) && p !in Condemns(t, done, now)
    ensures DoomedJobs(t', {p}) == DoomedJobs(t, {p})
  {
    hide Condemns, Dropped, TallySwept, AttemptSwept, PipelineSwept;
    forall j ensures Doomed(t', {p}, j) <==> Doomed(t, {p}, j) {
      if j in t.jobs {
        assert JobSwept(t, t', done, j, now);
      }
    }
  }

  lemma DoomedSplit(t: Tables, ps: set<Id>, p: Id)
    requires p !in ps
    ensures |DoomedJobs(t, ps + {p})| == |DoomedJobs(t, ps)| + |DoomedJobs(t, {p})|
  {
    assert DoomedJobs(t, ps + {p}) == DoomedJobs(t, ps) + DoomedJobs(t, {p});
    assert DoomedJobs(t, ps) !! DoomedJobs(t, {p});
  }

  lemma FailedDoomed(t: Tables, a: Id, record: Attempt)
    requires Located(t, a) && !IsTerminal(t.jobs[t.attempts[a].jobID].status) && record.status == Failed
    ensures var p := PipelineOf(t, a);
      |DoomedJobs(WithStatus(Settle(t, a, record), p, Failed), {p})| == |DoomedJobs(t, {p})| - 1
  {
    var p := PipelineOf(t, a);
    var j := t.attempts[a].jobID;
    assert DoomedJobs(WithStatus(Settle(t, a, record), p, Failed), {p}) == DoomedJobs(t, {p}) - {j};
    assert j in DoomedJobs(t, {p});
  }

  lemma CompleteFailedTables(t: Tables, a: Id, record: Attempt, now: Time)
    requires Coherent(t) && Located(t, a) && record.status == Failed
    ensures var p := PipelineOf(t, a);
      Complete(t, a, record, now) == CancelJobs(WithStatus(Settle(t, a, record), p, Failed), {p}, now)
  {
    var p := PipelineOf(t, a);
    var t1 := Settle(t, a, record);
    assert Has(t1, p, t.attempts[a].jobID);
    assert AnyFailed(t1, p);
    hide CancelJobs, Settle, Coherent;
  }

  lemma CompleteTally(t: Tables, a: Id, record: Attempt, now: Time)
    requires Coherent(t) && Located(t, a) && record.status == Failed && !IsTerminal(t.jobs[t.attempts[a].jobID].status)
    ensures var t2 := Complete(t, a, record, now);
      && t2.tally.completed == t.tally.completed && t2.tally.failed == t.tally.failed + 1
      && t2.tally.cancelled == t.tally.cancelled + |DoomedJobs(t, {PipelineOf(t, a)})| - 1
  {
    CompleteFailedTables(t, a, record, now);
    FailedDoomed(t, a, record);
    hide Coherent, Complete, DoomedJobs;
  }

  lemma CompleteFails(t: Tables, a: Id, record: Attempt, now: Time)
    requires Coherent(t) && a in t.attempts && IsActive(t.attempts[a].status)
    requires record.status == Failed && SameButEnd(t.attempts[a], record)
    ensures Located(t, a)
    ensures var p, j, t2 := PipelineOf(t, a), t.attempts[a].jobID, Complete(t, a, record, now);
      && t2.pipelines == t.pipelines[p := t.pipelines[p].(status := Failed)]
      && t2.jobs.Keys == t.jobs.Keys && t2.attempts.Keys == t.attempts.Keys
      && (forall k :: k in t.jobs ==> t2.jobs[k] == FailedJob(t, p, j, k))
      && (forall b :: b in t.attempts ==> FailedAttempt(t, t2, p, a, b))
  {
    hide Coherent, Complete, FailedAttempt;
    ActiveIsLast(t, a);
    CompleteFailedTables(t, a, record, now);
    forall b | b in t.attempts ensures FailedAttempt(t, Complete(t, a, record, now), PipelineOf(t, a), a, b) {
      FailsAttempt(t, a, record, now, b);
    }
  }

  lemma FailsAttempt(t: Tables, a: Id, record: Attempt, now: Time, b: Id)
    requires Coherent(t) && Located(t, a) && IsActive(t.attempts[a].status) && b in t.attempts
    requires record.status == Failed && SameButEnd(t.attempts[a], record)
    ensures FailedAttempt(t, Complete(t, a, record, now), PipelineOf(t, a), a, b)
  {
    hide Coherent, Complete, FailedAttempt, CancelJobs, Settle;
    CompleteFailedTables(t, a, record, now);
    if IsActive(t.attempts[b].status) {
      ActiveIsLast(t, b);
      if t.attempts[b].jobID == t.attempts[a].jobID {
        OneActiveAttempt(t, a, b);
      }
    }
    CancelledBeside(t, a, record, now, b);
  }

  lemma CancelledBeside(t: Tables, a: Id, record: Attempt, now: Time, b: Id)
    requires Located(t, a) && b in t.attempts && record.status == Failed && SameButEnd(t.attempts[a], record)
    requires IsActive(t.attempts[b].status) ==> Located(t, b) && !IsTerminal(t.jobs[t.attempts[b].jobID].status)
    requires IsActive(t.attempts[b].status) && b != a ==> t.attempts[b].jobID != t.attempts[a].jobID
    ensures var p := PipelineOf(t, a);
      FailedAttempt(t, CancelJobs(WithStatus(Settle(t, a, record), p, Failed), {p}, now), p, a, b)
  {
    hide DoomedJobs;
  }

  lemma FailStep(t: Tables, t': Tables, done: set<Id>, a: Id, now: Time)
    requires Coherent(t) && Coherent(t') && SweptTo(t, t', done, now) && a !in done
    requires Condemned(t', a, now)
    ensures SweptTo(t, SweepOne(t', a, now), done + {a}, now)
  {
    hide Coherent, Condemns, SweptTo, Complete;
    StillExpired(t, t', done, a, now);
    assert PipelineOf(t, a) !in Condemns(t, done, now);
    OneMoreCondemned(t, done, a, now);
    ActiveIsLast(t, a);
    var record := ExhaustedRecord(t'.attempts[a], now);
    var t2 := Complete(t', a, record, now);
    assert SweepOne(t', a, now) == t2;
    ActiveIsLast(t', a);
    hide SweepOne, Condemned, Expired, Exhausted;
    FailedStep(t, t', t2, done, a, record, now);
  }

  lemma FailedStep(t: Tables, t': Tables, t2: Tables, done: set<Id>, a: Id, record: Attempt, now: Time)
    requires Coherent(t') && SweptTo(t, t', done, now) && Coherent(t)
    requires Located(t, a) && Located(t', a) && a !in done && IsActive(t.attempts[a].status)
    requires IsActive(t'.attempts[a].status)
    requires !IsTerminal(t.jobs[t.attempts[a].jobID].status) && !IsTerminal(t'.jobs[t'.attempts[a].jobID].status)
    requires t'.attempts[a] == t.attempts[a] && PipelineOf(t', a) == PipelineOf(t, a)
    requires PipelineOf(t, a) !in Condemns(t, done, now)
    requires Condemns(t, done + {a}, now) == Condemns(t, done, now) + {PipelineOf(t, a)}
    requires record.status == Failed && SameButEnd(t'.attempts[a], record) && t2 == Complete(t', a, record, now)
    ensures SweptTo(t, t2, done + {a}, now)
  {
    hide Coherent, Condemns, SweptTo, Complete, DoomedJobs;
    CompleteFails(t', a, record, now);
    CompleteTally(t', a, record, now);
    assert Fails(t, t', t2, done, a, now);
    hide Fails;
    FailTally(t, t', t2, done, a, now);
    FailSweeps(t, t', t2, done, a, now);
    FailSweepsJobs(t, t', t2, done, a, now);
    FailKeys(t, t', t2, done, a, now);
  }

  lemma FailKeys(t: Tables, t': Tables, t2: Tables, done: set<Id>, a: Id, now: Time)
    requires SweptTo(t, t', done, now) && Fails(t, t', t2, done, a, now)
    requires TallySwept(t, t2, done + {a}, now)
    requires forall b {:trigger AttemptSwept(t, t2, done + {a}, b, now)} :: b in t.attempts ==>
      AttemptSwept(t, t2, done + {a}, b, now)
    requires forall j {:trigger JobSwept(t, t2, done + {a}, j, now)} :: j in t.jobs ==>
      JobSwept(t, t2, done + {a}, j, now)
    requires forall p {:trigger PipelineSwept(t, t2, done + {a}, p, now)} :: p in t.pipelines ==>
      PipelineSwept(t, t2, done + {a}, p, now)
    ensures SweptTo(t, t2, done + {a}, now)
  {
    hide AttemptSwept, JobSwept, PipelineSwept, TallySwept;
  }

  lemma FailTally(t: Tables, t': Tables, t2: Tables, done: set<Id>, a: Id, now: Time)
    requires SweptTo(t, t', done, now) && Located(t, a) && PipelineOf(t, a) !in Condemns(t, done, now)
    requires Condemns(t, done + {a}, now) == Condemns(t, done, now) + {PipelineOf(t, a)}
    requires t2.tally.completed == t'.tally.completed && t2.tally.failed == t'.tally.failed + 1
    requires t2.tally.cancelled == t'.tally.cancelled + |DoomedJobs(t', {PipelineOf(t, a)})| - 1
    ensures TallySwept(t, t2, done + {a}, now)
  {
    DoomedAsBefore(t, t', done, PipelineOf(t, a), now);
    DoomedSplit(t, Condemns(t, done, now), PipelineOf(t, a));
    hide Condemns, DoomedJobs, AttemptSwept, JobSwept, PipelineSwept;
  }

  // ---- The whole sweep ----

  function Elements(xs: seq<Id>): set<Id> {
    set x | x in xs
  }

  lemma StartSwept(t: Tables, now: Time)
    requires Coherent(t)
    ensures SweptTo(t, t, {}, now)
  {
    forall a | a in t.attempts ensures AttemptSwept(t, t, {}, a, now) {
      if IsActive(t.attempts[a].status) {
        ActiveIsLast(t, a);
      }
    }
    assert Condemns(t, {}, now) == {} && DoomedJobs(t, {}) == {};
  }

  lemma {:induction false} SweepSweeps(t: Tables, order: seq<Id>, now: Time)
    requires Coherent(t) && Distinct(order)
    ensures SweptTo(t, Sweep(t, order, now), Elements(order), now)
  {
    if order == [] {
      assert Elements(order) == {};
      StartSwept(t, now);
    } else {
      var before, a := order[..|order| - 1], order[|order| - 1];
      SweepSweeps(t, before, now);
      SweepKeeps(t, before, now);
      var t' := Sweep(t, before, now);
      assert Elements(order) == Elements(before) + {a};
      hide Coherent, SweptTo, Expired;
      if !Expired(t', a, now) {
        SkipStep(t, t', Elements(before), a, now);
      } else if Exhausted(t', a, now) {
        FailStep(t, t', Elements(before), a, now);
      } else {
        LoseStep(t, t', Elements(before), a, now);
      }
    }
  }

  // The attempt survives the sweep: it is active, not expired, and nothing condemns its pipeline.
  ghost predicate Survives(t: Tables, a: Id, now: Time) {
    && Located(t, a) && IsActive(t.attempts[a].status) && !Expired(t, a, now)
    && !Fated(t, PipelineOf(t, a), now)
  }

  // Some active attempt of the pipeline is expired and may not be retried.
  ghost predicate Fated(t: Tables, p: Id, now: Time) {
    exists a :: Condemned(t, a, now) && PipelineOf(t, a) == p
  }

  ghost function FatedPipelines(t: Tables, now: Time): set<Id> {
    set p | p in t.pipelines && Fated(t, p, now)
  }

  lemma AllCondemns(t: Tables, now: Time)
    ensures Condemns(t, t.attempts.Keys, now) == FatedPipelines(t, now)
  {
    forall p | p in FatedPipelines(t, now) ensures p in Condemns(t, t.attempts.Keys, now) {
      var a :| Condemned(t, a, now) && PipelineOf(t, a) == p;
      assert a in t.attempts.Keys;
    }
    hide Expired, Exhausted;
  }

  // What a sweep decides, whatever order it ranges in: a pipeline fails exactly if one of its active attempts
  // is expired and may not be retried, and then exactly one of its jobs is FAILED; exactly the surviving
  // attempts stay active, none of them expired; jobs are counted failed and cancelled accordingly.
  lemma SweepDecides(t: Tables, order: seq<Id>, now: Time)
    requires Coherent(t) && Enumerates(order, t.attempts.Keys)
    ensures var t' := Sweep(t, order, now);
      var failed := FatedPipelines(t, now);
      && t'.pipelines.Keys == t.pipelines.Keys
      && (forall p :: p in t.pipelines ==>
            t'.pipelines[p] == if Fated(t, p, now) then t.pipelines[p].(status := Failed) else t.pipelines[p])
      && (forall p :: p in failed ==> exists j :: FailedAlone(Board(t', p), j))
      && (forall a :: a in t'.attempts && IsActive(t'.attempts[a].status) <==> Survives(t, a, now))
      && (forall a :: Survives(t, a, now) ==> t'.attempts[a] == t.attempts[a])
      && (forall a :: !Expired(t', a, now))
      && t'.tally.completed == t.tally.completed && t'.tally.failed == t.tally.failed + |failed|
      && t'.tally.cancelled == t.tally.cancelled + |DoomedJobs(t, failed)| - |failed|
  {
    var t' := Sweep(t, order, now);
    SweepSweeps(t, order, now);
    SweepKeeps(t, order, now);
    assert Elements(order) == t.attempts.Keys;
    AllCondemns(t, now);
    hide Sweep, Coherent, SweptTo, Condemns, FatedPipelines, Expired, Survives, Fated;
    SweptPipelines(t, t', now);
    SweptActive(t, t', now);
    SweptTally(t, t', now);
  }

  lemma SweptTally(t: Tables, t': Tables, now: Time)
    requires SweptTo(t, t', t.attempts.Keys, now) && Condemns(t, t.attempts.Keys, now) == FatedPipelines(t, now)
    ensures var failed := FatedPipelines(t, now);
      && t'.tally.completed == t.tally.completed && t'.tally.failed == t.tally.failed + |failed|
      && t'.tally.cancelled == t.tally.cancelled + |DoomedJobs(t, failed)| - |failed|
  {
    hide Condemns, FatedPipelines, DoomedJobs;
  }

  lemma SweptPipelines(t: Tables, t': Tables, now: Time)
    requires Coherent(t') && SweptTo(t, t', t.attempts.Keys, now)
    requires Condemns(t, t.attempts.Keys, now) == FatedPipelines(t, now)
    ensures t'.pipelines.Keys == t.pipelines.Keys
    ensures forall p :: p in t.pipelines ==>
      t'.pipelines[p] == if Fated(t, p, now) then t.pipelines[p].(status := Failed) else t.pipelines[p]
    ensures forall p :: p in FatedPipelines(t, now) ==> exists j :: FailedAlone(Board(t', p), j)
  {
    hide Condemns, Fated;
    forall p | p in t.pipelines
      ensures t'.pipelines[p] == if Fated(t, p, now) then t.pipelines[p].(status := Failed) else t.pipelines[p]
      ensures Fated(t, p, now) ==> exists j :: FailedAlone(Board(t', p), j)
    {
      assert PipelineSwept(t, t', t.attempts.Keys, p, now);
      assert PipelineFits(t', p);
    }
  }

  lemma SweptActive(t: Tables, t': Tables, now: Time)
    requires Coherent(t) && Coherent(t') && SweptTo(t, t', t.attempts.Keys, now)
    requires Condemns(t, t.attempts.Keys, now) == FatedPipelines(t, now)
    ensures forall a :: a in t'.attempts && IsActive(t'.attempts[a].status) <==> Survives(t, a, now)
    ensures forall a :: Survives(t, a, now) ==> t'.attempts[a] == t.attempts[a]
    ensures forall a :: !Expired(t', a, now)
  {
    hide Condemns, TallySwept, PipelineSwept, Fated;
    forall a
      ensures a in t'.attempts && IsActive(t'.attempts[a].status) <==> Survives(t, a, now)
      ensures Survives(t, a, now) ==> t'.attempts[a] == t.attempts[a]
      ensures !Expired(t', a, now)
    {
      SweptAttempt(t, t', a, now);
    }
    hide Coherent, SweptTo;
  }

  lemma SweptAttempt(t: Tables, t': Tables, a: Id, now: Time)
    requires Coherent(t) && SweptTo(t, t', t.attempts.Keys, now)
    requires Condemns(t, t.attempts.Keys, now) == FatedPipelines(t, now)
    ensures a in t'.attempts && IsActive(t'.attempts[a].status) <==> Survives(t, a, now)
    ensures Survives(t, a, now) ==> t'.attempts[a] == t.attempts[a]
    ensures !Expired(t', a, now)
  {
    hide Condemns, TallySwept, PipelineSwept, Fated, Dropped;
    if a in t.attempts {
      assert AttemptSwept(t, t', t.attempts.Keys, a, now);
      if IsActive(t.attempts[a].status) {
        ActiveIsLast(t, a);
        assert JobSwept(t, t', t.attempts.Keys, t.attempts[a].jobID, now);
        assert PipelineOf(t, a) in FatedPipelines(t, now) <==> Fated(t, PipelineOf(t, a), now);
      }
    }
    hide Coherent;
  }

  // Two sweeps of the same tables in different orders differ at most in the labels inside failed pipelines.
  lemma SweepIsConfluent(t: Tables, order: seq<Id>, other: seq<Id>, now: Time)
    requires Coherent(t) && Enumerates(order, t.attempts.Keys) && Enumerates(other, t.attempts.Keys)
    ensures var x, y := Sweep(t, order, now), Sweep(t, other, now);
      && x.pipelines == y.pipelines && x.tally == y.tally
      && x.attempts.Keys == y.attempts.Keys && x.jobs.Keys == y.jobs.Keys
      && (forall a :: a in x.attempts && !(Located(t, a) && Fated(t, PipelineOf(t, a), now)) ==>
            x.attempts[a] == y.attempts[a])
      && (forall j :: j in x.jobs && !Fated(t, x.jobs[j].pipelineID, now) ==> x.jobs[j] == y.jobs[j])
      && (forall j :: j in x.jobs ==> (IsTerminal(x.jobs[j].status) <==> IsTerminal(y.jobs[j].status)))
  {
    hide Sweep, Coherent, Condemns, Fated;
    SweepSweeps(t, order, now);
    SweepSweeps(t, other, now);
    assert Elements(order) == t.attempts.Keys == Elements(other);
    AllCondemns(t, now);
    SweptAlike(t, Sweep(t, order, now), Sweep(t, other, now), t.attempts.Keys, now);
    forall j | j in t.jobs && !Fated(t, t.jobs[j].pipelineID, now)
      ensures t.jobs[j].pipelineID !in Condemns(t, t.attempts.Keys, now)
    {
    }
    hide SweptTo;
  }

  lemma SweptAlike(t: Tables, x: Tables, y: Tables, done: set<Id>, now: Time)
    requires SweptTo(t, x, done, now) && SweptTo(t, y, done, now)
    ensures x.pipelines == y.pipelines && x.tally == y.tally && x.attempts.Keys == y.attempts.Keys
    ensures x.jobs.Keys == y.jobs.Keys
    ensures forall a :: a in x.attempts && !(Located(t, a) && PipelineOf(t, a) in Condemns(t, done, now)) ==>
      x.attempts[a] == y.attempts[a]
    ensures forall j :: j in x.jobs ==>
      && x.jobs[j].pipelineID == t.jobs[j].pipelineID
      && (x.jobs[j].pipelineID !in Condemns(t, done, now) ==> x.jobs[j] == y.jobs[j])
      && (IsTerminal(x.jobs[j].status) <==> IsTerminal(y.jobs[j].status))
  {
    hide Condemns, Dropped, Expired, DoomedJobs;
    forall p | p in t.pipelines ensures x.pipelines[p] == y.pipelines[p] {
      assert PipelineSwept(t, x, done, p, now) && PipelineSwept(t, y, done, p, now);
    }
    forall a | a in t.attempts && !(Located(t, a) && PipelineOf(t, a) in Condemns(t, done, now))
      ensures x.attempts[a] == y.attempts[a]
    {
      assert AttemptSwept(t, x, done, a, now) && AttemptSwept(t, y, done, a, now);
    }
    forall j | j in t.jobs
      ensures x.jobs[j].pipelineID == t.jobs[j].pipelineID
      ensures x.jobs[j].pipelineID !in Condemns(t, done, now) ==> x.jobs[j] == y.jobs[j]
      ensures IsTerminal(x.jobs[j].status) <==> IsTerminal(y.jobs[j].status)
    {
      assert JobSwept(t, x, done, j, now) && JobSwept(t, y, done, j, now);
    }
  }

  // ---- The count of expired leases ----

  // A pipeline holds both an expired attempt that condemns it and one that could have been retried.
  ghost predicate Mixed(t: Tables, a: Id, b: Id, now: Time) {
    Condemned(t, a, now) && Expired(t, b, now) && !Condemned(t, b, now) && PipelineOf(t, a) == PipelineOf(t, b)
  }

  ghost predicate Counts(t: Tables, done: set<Id>, a: Id, now: Time) {
    Expired(t, a, now) && PipelineOf(t, a) !in Condemns(t, done, now)
  }

  lemma SweptCounts(t: Tables, before: seq<Id>, a: Id, now: Time)
    requires Coherent(t) && Distinct(before + [a])
    ensures Swept(t, before + [a], now) == Swept(t, before, now) + if Counts(t, Elements(before), a, now) then 1 else 0
  {
    var order := before + [a];
    assert order[..|order| - 1] == before;
    forall i, j | 0 <= i < j < |before| ensures before[i] != before[j] {
      assert order[i] != order[j];
    }
    assert forall i :: 0 <= i < |before| ==> order[i] == before[i] && order[i] != order[|before|];
    assert a !in before;
    SweepSweeps(t, before, now);
    hide SweptTo, Coherent, Expired, Condemns, Sweep;
    StillExpired(t, Sweep(t, before, now), Elements(before), a, now);
  }

  ghost function Outside(t: Tables, done: set<Id>, now: Time): set<Id> {
    set a | a in done && Expired(t, a, now) && !Fated(t, PipelineOf(t, a), now)
  }

  lemma UnmixedStep(t: Tables, done: set<Id>, a: Id, now: Time)
    requires a !in done && forall x, y :: !Mixed(t, x, y, now)
    ensures |Outside(t, done + {a}, now)| + |Condemns(t, done + {a}, now)|
      == |Outside(t, done, now)| + |Condemns(t, done, now)| + if Counts(t, done, a, now) then 1 else 0
  {
    hide Outside, Condemns, Mixed, Fated, Exhausted;
    if Expired(t, a, now) && !Condemned(t, a, now) {
      UnmixedOutside(t, done, a, now);
    } else {
      StaysInside(t, done, a, now);
      if Condemned(t, a, now) && PipelineOf(t, a) !in Condemns(t, done, now) {
        OneMoreCondemned(t, done, a, now);
      } else {
        NoMoreCondemned(t, done, a, now);
      }
    }
  }

  // Without mixed pipelines an attempt that is only lost is in a pipeline that does not fail.
  lemma UnmixedOutside(t: Tables, done: set<Id>, a: Id, now: Time)
    requires a !in done && (forall x, y :: !Mixed(t, x, y, now)) && Expired(t, a, now) && !Condemned(t, a, now)
    ensures |Outside(t, done + {a}, now)| == |Outside(t, done, now)| + 1
    ensures Condemns(t, done + {a}, now) == Condemns(t, done, now) && PipelineOf(t, a) !in Condemns(t, done, now)
  {
    hide Condemns;
    forall x | Condemned(t, x, now) ensures PipelineOf(t, x) != PipelineOf(t, a) {
      assert !Mixed(t, x, a, now);
    }
    NotFatedNotCondemned(t, done, PipelineOf(t, a), now);
    assert Outside(t, done + {a}, now) == Outside(t, done, now) + {a};
    NoMoreCondemned(t, done, a, now);
  }

  lemma StaysInside(t: Tables, done: set<Id>, a: Id, now: Time)
    requires a !in done && (Expired(t, a, now) ==> Condemned(t, a, now))
    ensures Outside(t, done + {a}, now) == Outside(t, done, now)
  {
    if Condemned(t, a, now) {
      assert Fated(t, PipelineOf(t, a), now);
    }
    hide Fated, Condemned;
  }

  lemma NotFatedNotCondemned(t: Tables, done: set<Id>, p: Id, now: Time)
    requires !Fated(t, p, now)
    ensures p !in Condemns(t, done, now)
  {
  }

  lemma {:induction false} UnmixedCount(t: Tables, order: seq<Id>, now: Time)
    requires Coherent(t) && Distinct(order) && forall x, y :: !Mixed(t, x, y, now)
    ensures Swept(t, order, now) == |Outside(t, Elements(order), now)| + |Condemns(t, Elements(order), now)|
  {
    hide Coherent, Mixed, Expired, Fated, Counts, Condemned;
    if order == [] {
      assert Elements(order) == {};
      assert Outside(t, {}, now) == {} && Condemns(t, {}, now) == {};
    } else {
      hide Outside, Condemns;
      var before, a := order[..|order| - 1], order[|order| - 1];
      assert order == before + [a] && Elements(order) == Elements(before) + {a};
      UnmixedCount(t, before, now);
      SweptCounts(t, before, a, now);
      UnmixedStep(t, Elements(before), a, now);
    }
  }

  lemma {:induction false} ListSet(x: set<Id>) returns (xs: seq<Id>)
    ensures Enumerates(xs, x)
  {
    if x == {} {
      xs := [];
    } else {
      var a :| a in x;
      xs := ListSet(x - {a});
      xs := xs + [a];
    }
  }

  lemma SwapFirst(t: Tables, a: Id, b: Id, now: Time)
    requires Coherent(t) && Mixed(t, a, b, now) && a != b
    ensures Swept(t, [a, b], now) == 1 && Swept(t, [b, a], now) == 2
  {
    hide Coherent, Swept, Expired, Exhausted, Condemns;
    FirstTwo(t, a, b, now);
    FirstTwo(t, b, a, now);
    CondemnsOfOne(t, a, now);
    CondemnsOfOne(t, b, now);
  }

  lemma FirstTwo(t: Tables, a: Id, b: Id, now: Time)
    requires Coherent(t) && a != b
    ensures Swept(t, [a, b], now) == (if Counts(t, {}, a, now) then 1 else 0) + if Counts(t, {a}, b, now) then 1 else 0
  {
    hide Coherent, Counts;
    assert Elements([]) == {} && Elements([a]) == {a};
    assert [] + [a] == [a] && [a] + [b] == [a, b];
    SweptCounts(t, [], a, now);
    SweptCounts(t, [a], b, now);
  }

  lemma CondemnsOfOne(t: Tables, a: Id, now: Time)
    ensures Condemns(t, {}, now) == {}
    ensures Condemns(t, {a}, now) == if Condemned(t, a, now) then {PipelineOf(t, a)} else {}
  {
    assert {} + {a} == {a};
    if Condemned(t, a, now) {
      OneMoreCondemned(t, {}, a, now);
    } else {
      NoMoreCondemned(t, {}, a, now);
    }
  }

  lemma {:induction false} SwapCounts(t: Tables, a: Id, b: Id, rest: seq<Id>, now: Time)
    requires Coherent(t) && Mixed(t, a, b, now) && a != b && a !in rest && b !in rest && Distinct(rest)
    ensures Swept(t, [a, b] + rest, now) + 1 == Swept(t, [b, a] + rest, now)
  {
    hide Coherent, Mixed, Counts, Swept;
    if rest == [] {
      assert [a, b] + rest == [a, b] && [b, a] + rest == [b, a];
      SwapFirst(t, a, b, now);
    } else {
      var before, x := rest[..|rest| - 1], rest[|rest| - 1];
      assert rest == before + [x];
      SwappedElements(a, b, before, x);
      SwappedElements(b, a, before, x);
      hide Distinct, Elements;
      SwapCounts(t, a, b, before, now);
      CountsAlike(t, [a, b] + before, [b, a] + before, x, now);
    }
  }

  lemma SwappedElements(a: Id, b: Id, before: seq<Id>, x: Id)
    requires Distinct(before + [x]) && a != b && a !in before + [x] && b !in before + [x]
    ensures Distinct(before) && a !in before && b !in before
    ensures [a, b] + (before + [x]) == ([a, b] + before) + [x] && Distinct(([a, b] + before) + [x])
    ensures Elements([a, b] + before) == {a, b} + Elements(before)
  {
    forall i, k | 0 <= i < k < |before| ensures before[i] != before[k] {
      assert (before + [x])[i] != (before + [x])[k];
    }
    var xs := ([a, b] + before) + [x];
    forall i, k | 0 <= i < k < |xs| ensures xs[i] != xs[k] {
      assert xs[k] in [b] + (before + [x]);
      if i >= 2 {
        assert (before + [x])[i - 2] != (before + [x])[k - 2];
      }
    }
  }

  // After the same attempts one more counts the same.
  lemma CountsAlike(t: Tables, xs: seq<Id>, ys: seq<Id>, x: Id, now: Time)
    requires Coherent(t) && Elements(xs) == Elements(ys) && Distinct(xs + [x]) && Distinct(ys + [x])
    ensures Swept(t, xs + [x], now) - Swept(t, xs, now) == Swept(t, ys + [x], now) - Swept(t, ys, now)
  {
    hide Coherent, Counts, Swept;
    SweptCounts(t, xs, x, now);
    SweptCounts(t, ys, x, now);
  }

  // The number of leases counted as expired is the one outcome that may depend on the order: it is the same
  // for all orders exactly if no pipeline holds both kinds of expired attempts.
  lemma ExpiryCountIsConfluent(t: Tables, now: Time)
    requires Coherent(t)
    ensures (forall x, y :: Enumerates(x, t.attempts.Keys) && Enumerates(y, t.attempts.Keys) ==>
               Swept(t, x, now) == Swept(t, y, now))
      <==> forall a, b :: !Mixed(t, a, b, now)
  {
    hide Coherent, Swept, Mixed;
    if forall a, b :: !Mixed(t, a, b, now) {
      forall x, y | Enumerates(x, t.attempts.Keys) && Enumerates(y, t.attempts.Keys)
        ensures Swept(t, x, now) == Swept(t, y, now)
      {
        assert Elements(x) == t.attempts.Keys == Elements(y);
        UnmixedCount(t, x, now);
        UnmixedCount(t, y, now);
      }
    } else {
      var a, b :| Mixed(t, a, b, now);
      var x, y := MixedCounts(t, a, b, now);
    }
  }

  lemma MixedCounts(t: Tables, a: Id, b: Id, now: Time) returns (x: seq<Id>, y: seq<Id>)
    requires Coherent(t) && Mixed(t, a, b, now)
    ensures Enumerates(x, t.attempts.Keys) && Enumerates(y, t.attempts.Keys) && Swept(t, x, now) != Swept(t, y, now)
  {
    hide Coherent, Swept;
    var rest := ListSet(t.attempts.Keys - {a, b});
    SwapCounts(t, a, b, rest, now);
    x, y := [a, b] + rest, [b, a] + rest;
  }
}
