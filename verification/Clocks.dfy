// Pull-request clocks, generations and previews: what fences late, duplicated and reordered events.

module Clocks {
  import opened Domain
  import opened TableModel
  import opened Model
  import opened Coherence
  import opened Steps
  import opened Evolution
  import Planner

  // A pull-request pipeline carries a generation its clock has reached; one at the clock's own generation is of
  // an open pull request at the clock's commit.
  ghost predicate PipelineTimed(s: State, p: Id) {
    && p in s.tables.pipelines
    && var q := s.tables.pipelines[p];
    && var k := KeyOf(q);
    if q.pr <= 0 then q.generation == 0
    else
      && k in s.prStates && 1 <= q.generation <= s.prStates[k].generation
      && (q.generation == s.prStates[k].generation ==> !s.prStates[k].closed && q.commit == s.prStates[k].commit)
  }

  // Two pipelines of one pull request never share a generation.
  ghost predicate Apart(t: Tables, p: Id, q: Id) {
    p in t.pipelines && q in t.pipelines && p != q && t.pipelines[p].pr > 0
      && KeyOf(t.pipelines[p]) == KeyOf(t.pipelines[q])
    ==> t.pipelines[p].generation != t.pipelines[q].generation
  }

  ghost predicate PreviewTimed(s: State, k: PRKey) {
    && k in s.previews && k in s.prStates
    && var v := s.previews[k];
    && v.pipelineID in s.tables.pipelines
    && var q := s.tables.pipelines[v.pipelineID];
    && PreviewKey(v.repo, v.pr) == k == KeyOf(q) && q.pr > 0 && q.status == Succeeded
    && q.generation <= v.generation <= s.prStates[k].generation + 1
    && (v.desired == Active || v.desired == Deleting)
    && (v.desired == Active ==> v.generation == q.generation == s.prStates[k].generation && !s.prStates[k].closed)
  }

  ghost predicate PreviewsTimed(s: State) {
    forall k {:trigger PreviewTimed(s, k)} :: k in s.previews ==> PreviewTimed(s, k)
  }

  ghost predicate PipelinesTimed(s: State) {
    && (forall p {:trigger PipelineTimed(s, p)} :: p in s.tables.pipelines ==> PipelineTimed(s, p))
    && (forall p, q {:trigger Apart(s.tables, p, q)} :: Apart(s.tables, p, q))
  }

  ghost predicate Timed(s: State) {
    && PipelinesTimed(s)
    && PreviewsTimed(s)
    && (forall k :: k in s.prStates ==> k.pr > 0 && s.prStates[k].generation >= 1)
  }

  // ---- Pipelines that only move towards their end stay timed ----

  // No pipeline appears, and those that stay only move forward.
  ghost predicate Onward(t: Tables, t': Tables) {
    && t'.pipelines.Keys <= t.pipelines.Keys
    && forall p :: p in t'.pipelines ==> PipelineEvolves(t.pipelines[p], t'.pipelines[p])
  }

  lemma OnwardStaysTimed(s: State, s': State)
    requires PipelinesTimed(s) && Onward(s.tables, s'.tables) && s'.prStates == s.prStates
    ensures PipelinesTimed(s')
  {
    hide Lower;
    forall p | p in s'.tables.pipelines ensures PipelineTimed(s', p) {
      assert PipelineTimed(s, p);
    }
    forall p, q ensures Apart(s'.tables, p, q) {
      assert Apart(s.tables, p, q);
    }
  }

  // A preview that kept its owner, and either kept its wish or is now being deleted.
  predicate PreviewFollows(v: Preview, w: Preview) {
    && w.repo == v.repo && w.pr == v.pr && w.pipelineID == v.pipelineID
    && ((w.desired == v.desired && w.generation == v.generation)
        || (v.desired != Deleting && w.desired == Deleting && w.generation == v.generation + 1))
  }

  lemma PreviewStaysTimed(s: State, s': State, k: PRKey)
    requires PreviewTimed(s, k) && k in s'.previews && PreviewFollows(s.previews[k], s'.previews[k])
    requires s'.prStates == s.prStates && Onward(s.tables, s'.tables)
    requires s.previews[k].pipelineID in s'.tables.pipelines
    ensures PreviewTimed(s', k)
  {
    hide Lower;
  }

  lemma OwnersStay(s: State, t': Tables)
    requires PreviewsTimed(s) && Onward(s.tables, t') && s.tables.pipelines.Keys == t'.pipelines.Keys
    ensures PreviewsTimed(WithTables(s, t'))
  {
    var s' := WithTables(s, t');
    forall k | k in s'.previews ensures PreviewTimed(s', k) {
      assert PreviewTimed(s, k);
      hide Lower, Onward;
      PreviewStaysTimed(s, s', k);
    }
  }

  lemma TablesStayTimed(s: State, t': Tables)
    requires Timed(s) && Onward(s.tables, t') && s.tables.pipelines.Keys == t'.pipelines.Keys
    ensures Timed(WithTables(s, t'))
  {
    OwnersStay(s, t');
    OnwardStaysTimed(s, WithTables(s, t'));
  }

  // ---- Activation ----

  lemma ActivateStaysTimed(s: State, p: Id, e: Environment, now: Time)
    requires Timed(s) && p in s.tables.pipelines && s.tables.pipelines[p].status == Succeeded
    ensures Timed(Activate(s, p, e, now))
  {
    var s' := Activate(s, p, e, now);
    if MayActivate(s, p) {
      assert PipelineTimed(s, p);
      hide Lower, BuiltImage;
      forall k | k in s'.previews ensures PreviewTimed(s', k) {
        if k != KeyOf(s.tables.pipelines[p]) {
          assert PreviewTimed(s, k);
        }
      }
      OnwardStaysTimed(s, s');
    }
  }

  lemma ActivateForStaysTimed(s: State, p: Id, j: Id, now: Time, late: bool)
    requires Timed(s) && p in s.tables.pipelines && s.tables.pipelines[p].status == Succeeded
    ensures Timed(ActivateFor(s, p, j, now, late))
  {
    hide Timed, Activate;
    if Wants(s.tables, p, j, now, late) {
      ActivateStaysTimed(s, p, s.tables.jobs[j].spec.environment.value, now);
    }
  }

  lemma {:induction false} ActivationStaysTimed(s: State, p: Id, jobs: seq<Id>, now: Time, late: bool)
    requires Timed(s) && p in s.tables.pipelines && s.tables.pipelines[p].status == Succeeded
    ensures Timed(ActivateJobs(s, p, jobs, now, late))
  {
    hide Timed, ActivateFor;
    if jobs != [] {
      ActivationStaysTimed(s, p, jobs[..|jobs| - 1], now, late);
      ActivationTouches(s, p, jobs[..|jobs| - 1], now, late);
      ActivateForStaysTimed(ActivateJobs(s, p, jobs[..|jobs| - 1], now, late), p, jobs[|jobs| - 1], now, late);
    }
  }

  lemma {:induction false} EnsureStaysTimed(s: State, order: seq<Id>, now: Time)
    requires Timed(s)
    ensures Timed(Ensure(s, order, now))
  {
    hide Timed, ActivateJobs;
    if order != [] {
      EnsureStaysTimed(s, order[..|order| - 1], now);
      var s1 := Ensure(s, order[..|order| - 1], now);
      var p := order[|order| - 1];
      if Lacking(s1, p) {
        ActivationStaysTimed(s1, p, s1.tables.pipelines[p].jobIDs, now, true);
      }
    }
  }

  // ---- The operations on tables go onward ----

  lemma UpdateOnward(t: Tables, p: Id, now: Time)
    requires p in t.pipelines && !IsTerminal(t.pipelines[p].status)
    ensures Onward(t, UpdateTables(t, p, now)) && UpdateTables(t, p, now).pipelines.Keys == t.pipelines.Keys
    ensures !AnyFailed(t, p) && AllSucceeded(t, p) ==> UpdateTables(t, p, now).pipelines[p].status == Succeeded
  {
    hide AnyFailed, AllSucceeded, Doomed;
  }

  lemma CommitStaysTimed(s: State, a: Id, record: Attempt, now: Time)
    requires Timed(s) && Coherent(s.tables) && a in s.tables.attempts && IsActive(s.tables.attempts[a].status)
    ensures Located(s.tables, a) && Timed(Commit(s, a, record, now))
  {
    hide Coherent, Timed;
    ActiveIsLast(s.tables, a);
    var p := PipelineOf(s.tables, a);
    var s1 := WithTables(s, Settle(s.tables, a, record));
    TablesStayTimed(s, s1.tables);
    hide Settle;
    UpdateOnward(s1.tables, p, now);
    var s2 := WithTables(s1, UpdateTables(s1.tables, p, now));
    TablesStayTimed(s1, s2.tables);
    if !AnyFailed(s1.tables, p) && AllSucceeded(s1.tables, p) {
      hide UpdateTables, ActivateJobs;
      ActivationStaysTimed(s2, p, s1.tables.pipelines[p].jobIDs, now, false);
    }
  }

  lemma SweepOneOnward(t: Tables, a: Id, now: Time)
    requires Coherent(t)
    ensures Onward(t, SweepOne(t, a, now)) && SweepOne(t, a, now).pipelines.Keys == t.pipelines.Keys
  {
    if Expired(t, a, now) {
      ActiveIsLast(t, a);
      hide Coherent;
      if Exhausted(t, a, now) {
        UpdateOnward(Settle(t, a, ExhaustedRecord(t.attempts[a], now)), PipelineOf(t, a), now);
        hide UpdateTables;
      }
    }
  }

  lemma {:induction false} SweepOnward(t: Tables, order: seq<Id>, now: Time)
    requires Coherent(t)
    ensures Onward(t, Sweep(t, order, now)) && Sweep(t, order, now).pipelines.Keys == t.pipelines.Keys
  {
    if order != [] {
      SweepOnward(t, order[..|order| - 1], now);
      SweepKeeps(t, order[..|order| - 1], now);
      hide Coherent;
      SweepOneOnward(Sweep(t, order[..|order| - 1], now), order[|order| - 1], now);
      hide SweepOne;
    }
  }

  // ---- Steps other than a submission ----

  lemma SweepStaysTimed(s: State, order: seq<Id>, now: Time)
    requires Timed(s) && Coherent(s.tables)
    ensures Timed(SweepState(s, order, now))
  {
    SweepOnward(s.tables, order, now);
    hide Timed, Coherent, Sweep, Onward;
    TablesStayTimed(s, Sweep(s.tables, order, now));
    TimedIgnoresCounters(WithTables(s, Sweep(s.tables, order, now)), SweepState(s, order, now));
  }

  lemma LeaseOnward(t: Tables, j: Id, w: Id, a: Id, token: string, ttl: int, now: Time)
    requires j in t.jobs && t.jobs[j].pipelineID in t.pipelines && !IsTerminal(t.pipelines[t.jobs[j].pipelineID].status)
    ensures Onward(t, Lease(t, j, w, a, token, ttl, now))
    ensures Lease(t, j, w, a, token, ttl, now).pipelines.Keys == t.pipelines.Keys
  {
  }

  lemma PlaceStaysTimed(s: State, grant: Option<Grant>, a: Id, token: string, now: Time)
    requires Timed(s) && Coherent(s.tables) && GrantFits(s, grant, now)
    ensures Timed(Place(s, grant, a, token, now))
  {
    hide Timed, Coherent, Onward, Lease, IsGrant, NeedsMet;
    if grant.Some? {
      var g := grant.value;
      GrantIsRunnable(s, g, now);
      UnfinishedPipeline(s.tables, g.job);
      LeaseOnward(s.tables, g.job, g.worker, a, token, s.config.leaseTTL, now);
      hide Runnable;
      var t' := Lease(s.tables, g.job, g.worker, a, token, s.config.leaseTTL, now);
      TablesStayTimed(s, t');
      TimedIgnoresCounters(WithTables(s, t'), Place(s, grant, a, token, now));
    }
  }

  lemma ScheduleStaysTimed(s: State, order: seq<Id>, grant: Option<Grant>, a: Id, token: string, now: Time)
    requires Timed(s) && Coherent(s.tables) && Enabled(s, ScheduleStep(order, grant, a, token, now))
    ensures Timed(Schedule(s, order, grant, a, token, now))
  {
    hide Timed, Coherent, Place, Sweep, GrantFits;
    SweepStaysTimed(s, order, now);
    SweepKeeps(s.tables, order, now);
    PlaceStaysTimed(SweepState(s, order, now), grant, a, token, now);
  }

  lemma TimedIgnoresCounters(s: State, s': State)
    requires Timed(s) && s'.tables == s.tables && s'.previews == s.previews && s'.prStates == s.prStates
    ensures Timed(s')
  {
    hide Lower;
    OnwardStaysTimed(s, s');
    forall k | k in s'.previews ensures PreviewTimed(s', k) {
      assert PreviewTimed(s, k);
    }
  }

  // The same tables and clocks, and previews that only follow.
  lemma PreviewsFollow(s: State, s': State)
    requires Timed(s) && s'.tables == s.tables && s'.prStates == s.prStates
    requires forall k :: k in s'.previews ==> k in s.previews && PreviewFollows(s.previews[k], s'.previews[k])
    ensures Timed(s')
  {
    OnwardStaysTimed(s, s');
    forall k | k in s'.previews ensures PreviewTimed(s', k) {
      assert PreviewTimed(s, k);
      PreviewStaysTimed(s, s', k);
    }
  }

  lemma CancelOnward(t: Tables, ps: set<Id>, now: Time)
    requires forall p :: p in ps && p in t.pipelines ==> !IsTerminal(t.pipelines[p].status)
    ensures Onward(t, CancelPipelines(t, ps, now)) && CancelPipelines(t, ps, now).pipelines.Keys == t.pipelines.Keys
  {
  }

  lemma TombstoneStaysTimed(s: State, key: PRKey, now: Time)
    requires Timed(s)
    ensures Timed(Tombstone(s, key, now))
  {
    hide Timed;
    PreviewsFollow(s, Tombstone(s, key, now));
  }

  lemma CancelStaysTimed(s: State, j: Id, now: Time)
    requires Timed(s) && Coherent(s.tables)
    ensures Timed(Cancel(s, j, now))
  {
    if MayCancel(s.tables, j) {
      UnfinishedPipeline(s.tables, j);
      hide Timed, Coherent, CancelPipelines, KeyOf, Onward, Tombstone;
      var p := s.tables.jobs[j].pipelineID;
      var s1 := WithTables(s, CancelPipelines(s.tables, {p}, now));
      CancelOnward(s.tables, {p}, now);
      TablesStayTimed(s, s1.tables);
      TombstoneStaysTimed(s1, KeyOf(s.tables.pipelines[p]), now);
    }
  }

  lemma ReconcileStaysTimed(s: State, order: seq<Id>, now: Time)
    requires Timed(s) && Coherent(s.tables)
    ensures Timed(Reconcile(s, order, now))
  {
    var s1 := SweepState(s, order, now);
    hide Timed, Coherent, SweepState, Prune;
    SweepStaysTimed(s, order, now);
    PreviewsFollow(s1, AgePreviews(s1, now));
    PruneStaysTimed(AgePreviews(s1, now), now);
  }

  // A pipeline that owns a preview is retained.
  lemma PruneStaysTimed(s: State, now: Time)
    requires Timed(s)
    ensures Timed(Prune(s, now))
  {
    var s' := Prune(s, now);
    OnwardStaysTimed(s, s');
    forall k | k in s'.previews ensures PreviewTimed(s', k) {
      assert PreviewTimed(s, k);
      assert !Prunable(s, s.previews[k].pipelineID, now);
      PreviewStaysTimed(s, s', k);
    }
  }

  lemma ObserveStaysTimed(s: State, p: Preview, actual: Status, url: string, lastError: string)
    requires Timed(s)
    ensures Timed(Observe(s, p, actual, url, lastError))
  {
    hide Timed, Lower;
    if Current(s, p) {
      PreviewsFollow(s, Observe(s, p, actual, url, lastError));
    }
  }

  lemma BeatStaysTimed(s: State, a: Id, token: string, now: Time)
    requires Timed(s) && Coherent(s.tables)
    ensures Timed(Beat(s, a, token, now))
  {
    if LeaseHeld(s.tables, a, token, now) {
      hide Timed;
      TablesStayTimed(s, Renew(s.tables, a, s.config.leaseTTL, now));
    }
  }

  lemma FinishStaysTimed(s: State, a: Id, token: string, report: Report, now: Time)
    requires Timed(s) && Coherent(s.tables)
    ensures Timed(Finish(s, a, token, report, now))
  {
    if LeaseHeld(s.tables, a, token, now) {
      hide Timed, Coherent, Commit;
      CommitStaysTimed(s, a, CommittedRecord(s.tables.attempts[a], report, now), now);
    }
  }

  lemma CheckStaysTimed(s: State, p: Id, check: int, state: Status)
    requires Timed(s)
    ensures Timed(RecordCheck(s, p, check, state))
  {
    if p in s.tables.pipelines {
      hide Timed;
      TablesStayTimed(s, WithPipeline(s.tables, p, s.tables.pipelines[p].(checkRun := check, checkState := state)));
    }
  }

  // ---- A submission ----

  // Only the time of a clock moved.
  lemma ClockTimeIsFree(s: State, s': State, key: PRKey, time: Time)
    requires Timed(s) && key in s.prStates && s'.tables == s.tables && s'.previews == s.previews
    requires s'.prStates == s.prStates[key := s.prStates[key].(updatedAt := time)]
    ensures Timed(s')
  {
    hide Lower;
    forall p | p in s'.tables.pipelines ensures PipelineTimed(s', p) {
      assert PipelineTimed(s, p);
    }
    forall p, q ensures Apart(s'.tables, p, q) {
      assert Apart(s.tables, p, q);
    }
    forall k | k in s'.previews ensures PreviewTimed(s', k) {
      assert PreviewTimed(s, k);
    }
  }

  lemma JoinStaysTimed(s: State, input: Submission, pick: Id, now: Time)
    requires Timed(s) && SameRevision(s.tables, input, Prior(s, input).generation, pick)
    ensures Timed(Join(s, input, pick, now))
  {
    assert PipelineTimed(s, pick);
    hide Timed, Lower;
    if input.pr > 0 {
      ClockTimeIsFree(s, Join(s, input, pick, now), SubmissionKey(input), EventTime(input, now));
    } else {
      TimedIgnoresCounters(s, Join(s, input, pick, now));
    }
  }

  // The state between the two halves of an accepted event: the clock is new.
  ghost predicate Advanced(s: State, s1: State, input: Submission, now: Time) {
    var key := SubmissionKey(input);
    && input.pr > 0
    && s1.prStates == s.prStates[key := NextClock(s, input, now)]
    && s1.tables.pipelines.Keys == s.tables.pipelines.Keys && Onward(s.tables, s1.tables)
    && s1.previews.Keys == s.previews.Keys
    && (forall k :: k in s.previews && k != key ==> s1.previews[k] == s.previews[k])
    && (key in s.previews ==> s1.previews[key] == Buried(s.previews[key], Prior(s, input).generation + 1, now))
  }

  lemma SupersessionIsOnward(t: Tables, input: Submission, now: Time)
    ensures var t' := CancelPipelines(t, Superseded(t, input), now);
      t'.pipelines.Keys == t.pipelines.Keys && Onward(t, t')
  {
    hide Lower;
    CancelOnward(t, Superseded(t, input), now);
  }

  lemma AdvanceAdvances(s: State, input: Submission, now: Time)
    requires input.pr > 0
    ensures Advanced(s, Advance(s, input, now), input, now)
  {
    SupersessionIsOnward(s.tables, input, now);
    hide CancelPipelines, Superseded, Onward, Lower, KeyOf;
  }

  lemma AdvancedPipelines(s: State, s1: State, input: Submission, now: Time)
    requires Timed(s) && Advanced(s, s1, input, now)
    ensures PipelinesTimed(s1)
  {
    hide Lower, NextClock, PreviewTimed, Apart;
    ClockSteps(s, input, now);
    forall p | p in s1.tables.pipelines ensures PipelineTimed(s1, p) {
      assert PipelineTimed(s, p);
    }
    AdvancedStaysApart(s, s1, input, now);
    hide PipelineTimed;
  }

  lemma AdvancedStaysApart(s: State, s1: State, input: Submission, now: Time)
    requires Timed(s) && Advanced(s, s1, input, now)
    ensures forall p, q {:trigger Apart(s1.tables, p, q)} :: Apart(s1.tables, p, q)
  {
    hide Lower, NextClock, PreviewTimed, PipelineTimed;
    forall p, q ensures Apart(s1.tables, p, q) {
      assert Apart(s.tables, p, q);
    }
  }

  lemma ClockSteps(s: State, input: Submission, now: Time)
    ensures NextClock(s, input, now).generation == Prior(s, input).generation + 1
  {
  }

  lemma AdvancedPreviews(s: State, s1: State, input: Submission, now: Time)
    requires Timed(s) && Advanced(s, s1, input, now)
    ensures PreviewsTimed(s1)
  {
    hide Lower, EventTime;
    forall k | k in s1.previews ensures PreviewTimed(s1, k) {
      assert PreviewTimed(s, k);
      var p := s.previews[k].pipelineID;
      assert PipelineTimed(s, p);
    }
  }

  lemma AdvanceStaysTimed(s: State, input: Submission, now: Time)
    requires Timed(s)
    ensures Timed(Advance(s, input, now))
  {
    if input.pr > 0 {
      var s1 := Advance(s, input, now);
      AdvanceAdvances(s, input, now);
      hide Advance, Onward;
      AdvancedPipelines(s, s1, input, now);
      AdvancedPreviews(s, s1, input, now);
    }
  }

  // Room for a new pipeline: its generation is the clock's, and every other pipeline is behind.
  ghost predicate Room(s: State, input: Submission, generation: int) {
    && Timed(s)
    && if input.pr <= 0 then generation == 0
       else
         && SubmissionKey(input) in s.prStates
         && var c := s.prStates[SubmissionKey(input)];
         && c.generation == generation >= 1 && !c.closed && c.commit == input.commit
         && forall p ::
              p in s.tables.pipelines && s.tables.pipelines[p].pr > 0
              && KeyOf(s.tables.pipelines[p]) == SubmissionKey(input)
              ==> s.tables.pipelines[p].generation < generation
  }

  lemma AdvanceMakesRoom(s: State, input: Submission, now: Time)
    requires Timed(s) && !input.closed
    ensures Room(Advance(s, input, now), input, GenerationOf(s, input))
  {
    AdvanceStaysTimed(s, input, now);
    var s1 := Advance(s, input, now);
    if input.pr > 0 {
      AdvanceAdvances(s, input, now);
      forall p | p in s1.tables.pipelines && s1.tables.pipelines[p].pr > 0
        && KeyOf(s1.tables.pipelines[p]) == SubmissionKey(input)
        ensures s1.tables.pipelines[p].generation < GenerationOf(s, input)
      {
        hide Advance, Lower;
        assert PipelineTimed(s, p);
      }
      hide Advance, Lower, Timed;
    }
  }

  lemma CreateStaysTimed(s: State, input: Submission, order: seq<string>, p: Id, ids: seq<Id>, generation: int,
                         now: Time)
    requires Room(s, input, generation) && AllIssued(s.tables) && MayCreate(s.tables, input, order, p, ids)
    ensures Timed(WithTables(s, Create(s.tables, input, order, p, ids, generation, now)))
  {
    var t' := Create(s.tables, input, order, p, ids, generation, now);
    CreateAdds(s.tables, input, order, p, ids, generation, now);
    assert p !in s.tables.pipelines;
    hide Create, Created, NewPipeline, MayCreate, AllIssued;
    AddedStaysTimed(s, WithTables(s, t'), input, p, ids, generation, now);
  }

  lemma AddedStaysTimed(s: State, s': State, input: Submission, p: Id, ids: seq<Id>, generation: int, now: Time)
    requires Room(s, input, generation) && p !in s.tables.pipelines
    requires s' == WithTables(s, s'.tables)
    requires s'.tables.pipelines == s.tables.pipelines[p := NewPipeline(input, ids, generation, now)]
    ensures Timed(s')
  {
    hide Lower, Apart, PreviewTimed;
    AddedIsApart(s, s'.tables, input, p, ids, generation, now);
    forall q | q in s'.tables.pipelines ensures PipelineTimed(s', q) {
      assert q != p ==> PipelineTimed(s, q);
    }
    hide PipelineTimed;
    forall k | k in s'.previews ensures PreviewTimed(s', k) {
      assert PreviewTimed(s, k);
      AddedKeepsPreview(s, s', p, k);
    }
  }

  lemma AddedKeepsPreview(s: State, s': State, p: Id, k: PRKey)
    requires PreviewTimed(s, k) && p !in s.tables.pipelines && p in s'.tables.pipelines
    requires s' == WithTables(s, s'.tables)
    requires s'.tables.pipelines == s.tables.pipelines[p := s'.tables.pipelines[p]]
    ensures PreviewTimed(s', k)
  {
  }

  lemma AddedIsApart(s: State, t': Tables, input: Submission, p: Id, ids: seq<Id>, generation: int, now: Time)
    requires Room(s, input, generation) && p !in s.tables.pipelines
    requires t'.pipelines == s.tables.pipelines[p := NewPipeline(input, ids, generation, now)]
    ensures forall q, r {:trigger Apart(t', q, r)} :: Apart(t', q, r)
  {
    hide Lower, PipelineTimed, PreviewTimed;
    forall q, r ensures Apart(t', q, r) {
      assert Apart(s.tables, q, r);
    }
  }

  lemma AcceptStaysTimed(s: State, input: Submission, p: Id, ids: seq<Id>, now: Time)
    requires Timed(s) && Coherent(s.tables)
    requires IdsFor(input, ids) && FreshIds(s.tables, p, ids) && WellFormed(input)
    ensures Timed(Accept(s, input, p, ids, now))
  {
    var s1 := Advance(s, input, now);
    hide Timed, Coherent, Advance, Create, GenerationOf, Room;
    AdvanceStaysTimed(s, input, now);
    if input.closed {
      TimedIgnoresCounters(s1, Accept(s, input, p, ids, now));
    } else {
      var order := Planner.Plan(input.spec).value;
      AdvanceEvolves(s, input, now);
      AdvanceMakesRoom(s, input, now);
      CreateStaysTimed(s1, input, order, p, ids, GenerationOf(s, input), now);
      TimedIgnoresCounters(WithTables(s1, Create(s1.tables, input, order, p, ids, GenerationOf(s, input), now)),
                           Accept(s, input, p, ids, now));
    }
  }

  lemma SubmitStaysTimed(s: State, input: Submission, p: Id, ids: seq<Id>, pick: Id, now: Time)
    requires Timed(s) && Coherent(s.tables)
    requires Enabled(s, SubmitStep(input, p, ids, pick, now))
    ensures Timed(Submit(s, input, p, ids, pick, now))
  {
    hide Timed, Coherent, Accept, Join, SameRevision, Late, Overflows, Repeats;
    match Classify(s, input, now)
    case Replay => TimedIgnoresCounters(s, Submit(s, input, p, ids, pick, now));
    case Stale => TimedIgnoresCounters(s, Submit(s, input, p, ids, pick, now));
    case Known => JoinStaysTimed(s, input, pick, now);
    case Fresh => AcceptStaysTimed(s, input, p, ids, now);
    case _ =>
  }

  // ---- Every step and every run ----

  lemma QuietStepStaysTimed(s: State, step: Step)
    requires Timed(s) && (step.RegisterStep? || step.WorkerBeatStep?)
    ensures Enabled(s, step) && Timed(Apply(s, step))
  {
    hide Timed;
    TimedIgnoresCounters(s, Apply(s, step));
  }

  lemma StepStaysTimed(s: State, step: Step)
    requires Timed(s) && Coherent(s.tables) && Enabled(s, step)
    ensures Timed(Apply(s, step))
  {
    hide Coherent, Timed, Enabled, Submit, Schedule, Beat, Finish, Cancel, Reconcile,
         Ensure, Observe, Register, WorkerBeat, RecordCheck;
    match step
    case SubmitStep(input, p, ids, pick, now) => SubmitStaysTimed(s, input, p, ids, pick, now);
    case ScheduleStep(order, grant, a, token, now) => ScheduleStaysTimed(s, order, grant, a, token, now);
    case BeatStep(a, token, now) => BeatStaysTimed(s, a, token, now);
    case FinishStep(a, token, report, now) => FinishStaysTimed(s, a, token, report, now);
    case CancelStep(j, now) => CancelStaysTimed(s, j, now);
    case ReconcileStep(order, now) => ReconcileStaysTimed(s, order, now);
    case EnsureStep(order, now) => EnsureStaysTimed(s, order, now);
    case ObserveStep(preview, actual, url, lastError, now) => ObserveStaysTimed(s, preview, actual, url, lastError);
    case CheckStep(p, check, state, now) => CheckStaysTimed(s, p, check, state);
    case _ => QuietStepStaysTimed(s, step);
  }

  lemma {:induction false} TimedThroughout(states: seq<State>, steps: seq<Step>, i: nat)
    requires Run(states, steps) && i < |states|
    ensures Timed(states[i])
  {
    hide Timed;
    if i > 0 {
      TimedThroughout(states, steps, i - 1);
      CoherentThroughout(states, steps, i - 1);
      assert Taken(states, steps, i - 1);
      StepStaysTimed(states[i - 1], steps[i - 1]);
    } else {
      EmptyIsTimed(states[0].config);
    }
  }

  lemma EmptyIsTimed(c: Config)
    ensures Timed(Init(c))
  {
  }
}
