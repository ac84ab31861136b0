// A pipeline gives rise to at most one incarnation of its preview, so an observation accepted by its
// generation, owner and desired state is about the preview it was made of.

module Incarnations {
  import opened Domain
  import opened Ordering
  import opened TableModel
  import opened Model
  import opened Coherence
  import opened Steps
  import opened Evolution
  import opened Clocks
  import opened Fence
  import opened Supersession
  import opened Progress
  import Planner

  // ---- One job of a pipeline at most asks for a preview ----

  ghost predicate OneWish(t: Tables, jobs: seq<Id>) {
    forall i, k :: 0 <= i < |jobs| && 0 <= k < |jobs| && Wishes(t, jobs[i]) && Wishes(t, jobs[k]) ==> i == k
  }

  ghost predicate Wishes(t: Tables, j: Id) {
    j in t.jobs && t.jobs[j].spec.environment.Some?
  }

  ghost predicate OneEnvironments(t: Tables) {
    forall p :: p in t.pipelines ==> OneEnvironment(t.pipelines[p].config)
  }

  lemma PipelineHasOneWish(t: Tables, p: Id)
    requires Coherent(t) && p in t.pipelines && OneEnvironment(t.pipelines[p].config)
    ensures OneWish(t, t.pipelines[p].jobIDs)
  {
    assert Planned(t, p);
    var q := t.pipelines[p];
    var order := Planner.Plan(q.config).value;
    hide Coherent;
    assert Distinct(order);
    forall i, k | 0 <= i < |q.jobIDs| && 0 <= k < |q.jobIDs| && Wishes(t, q.jobIDs[i]) && Wishes(t, q.jobIDs[k])
      ensures i == k
    {
      assert order[i] == order[k];
    }
  }

  // With one wish at most, looking at all jobs activates at most once.
  lemma {:induction false} ActivatesOnce(s: State, p: Id, jobs: seq<Id>, now: Time, late: bool) returns (k: int)
    requires OneWish(s.tables, jobs)
    ensures -1 <= k < |jobs|
    ensures k == -1 ==> ActivateJobs(s, p, jobs, now, late) == s
    ensures k >= 0 ==> Wants(s.tables, p, jobs[k], now, late) && MayActivate(s, p)
    ensures k >= 0 ==>
      ActivateJobs(s, p, jobs, now, late) == Activate(s, p, s.tables.jobs[jobs[k]].spec.environment.value, now)
  {
    hide MayActivate, Activate, CountCreated;
    k := -1;
    if jobs != [] {
      var before, j := jobs[..|jobs| - 1], jobs[|jobs| - 1];
      k := ActivatesOnce(s, p, before, now, late);
      if k == -1 {
        if Wants(s.tables, p, j, now, late) && MayActivate(s, p) {
          k := |jobs| - 1;
        } else {
          NoActivation(s, p, j, now, late);
        }
      } else {
        assert before[k] == jobs[k];
        ActivationTouches(s, p, before, now, late);
        assert !Wishes(s.tables, j);
      }
    }
  }

  lemma NoActivation(s: State, p: Id, j: Id, now: Time, late: bool)
    requires !(Wants(s.tables, p, j, now, late) && MayActivate(s, p))
    ensures ActivateFor(s, p, j, now, late) == s
  {
    hide MayActivate, Wants;
  }

  // ---- What may happen to a preview ----

  // Still the same preview: only its wish, its observed side and its time stamp changed, and the wish
  // only towards deletion.
  predicate SameIncarnation(v: Preview, w: Preview) {
    && w == v.(desired := w.desired, generation := w.generation, updatedAt := w.updatedAt,
               actual := w.actual, url := w.url, lastError := w.lastError)
    && ((w.desired == v.desired && w.generation == v.generation)
        || (w.desired == Deleting && w.generation >= v.generation))
  }

  // The end of the window in which job j of pipeline p may still get its preview late.
  ghost function WindowEnd(t: Tables, p: Id, j: Id): Time
    requires p in t.pipelines && Wishes(t, j)
  {
    t.pipelines[p].createdAt + t.jobs[j].spec.environment.value.ttlMinutes * MINUTE
  }

  ghost predicate WindowsOver(t: Tables, p: Id, time: Time)
    requires p in t.pipelines
  {
    forall j :: j in t.pipelines[p].jobIDs && Wishes(t, j) ==> time >= WindowEnd(t, p, j)
  }

  // Nothing can activate the pipeline's preview any more: its generation is over, or its window is.
  ghost predicate Barred(s: State, p: Id, now: Time) {
    p in s.tables.pipelines ==>
      || (KeyOf(s.tables.pipelines[p]) in s.prStates
          && s.tables.pipelines[p].generation < s.prStates[KeyOf(s.tables.pipelines[p])].generation)
      || WindowsOver(s.tables, p, now)
  }

  // A preview appears where there was none: its pipeline just completed, or is still inside its window.
  ghost predicate Birth(s: State, key: PRKey, w: Preview, now: Time) {
    var p := w.pipelineID;
    && p in s.tables.pipelines && KeyOf(s.tables.pipelines[p]) == key && key in s.prStates
    && s.tables.pipelines[p].generation == s.prStates[key].generation
    && w.desired == Active && w.actual == Pending
    && exists j :: j in s.tables.pipelines[p].jobIDs && Wishes(s.tables, j) && BirthFor(s, p, j, w, now)
  }

  ghost predicate BirthFor(s: State, p: Id, j: Id, w: Preview, now: Time)
    requires p in s.tables.pipelines && Wishes(s.tables, j)
  {
    && w.expiresAt == now + TTL(s.tables.jobs[j].spec.environment.value)
    && (IsTerminal(s.tables.pipelines[p].status) ==> now < WindowEnd(s.tables, p, j))
  }

  // Previews only appear by birth, only change within their incarnation, and only go once they are to be
  // deleted or their time is up.
  ghost predicate Proper(s: State, s': State, now: Time) {
    && (forall k :: k in s.previews && k in s'.previews ==>
          && SameIncarnation(s.previews[k], s'.previews[k])
          && (s'.previews[k].desired == Deleting ==>
                s.previews[k].desired == Deleting || now >= s.previews[k].expiresAt || Overtaken(s, s', k)))
    && (forall k :: k in s.previews && k !in s'.previews ==>
          s.previews[k].desired == Deleting || now >= s.previews[k].expiresAt)
    && (forall k :: k !in s.previews && k in s'.previews ==> Birth(s, k, s'.previews[k], now))
  }

  // The pull request moved on to a new generation.
  ghost predicate Overtaken(s: State, s': State, k: PRKey) {
    k in s.prStates && k in s'.prStates && s'.prStates[k].generation > s.prStates[k].generation
  }

  lemma SamePreviewsAreProper(s: State, s': State, now: Time)
    requires s'.previews == s.previews
    ensures Proper(s, s', now)
  {
  }

  // ---- Step by step ----

  // Into a vacant place, looking at all jobs of a pipeline puts nothing or exactly one new preview.
  lemma ActivationFillsOnce(s: State, p: Id, jobs: seq<Id>, now: Time, late: bool) returns (k: int)
    requires OneWish(s.tables, jobs)
    ensures -1 <= k < |jobs|
    ensures k == -1 ==> ActivateJobs(s, p, jobs, now, late).previews == s.previews
    ensures k >= 0 ==> Wants(s.tables, p, jobs[k], now, late) && MayActivate(s, p)
    ensures k >= 0 ==>
      ActivateJobs(s, p, jobs, now, late).previews
        == s.previews[KeyOf(s.tables.pipelines[p]) := NewPreview(s.tables, p,
                                                                 s.tables.jobs[jobs[k]].spec.environment.value, now)]
  {
    hide OneWish, Wants, NewPreview, KeyOf, ClockAllows;
    k := ActivatesOnce(s, p, jobs, now, late);
    hide ActivateJobs;
  }

  // The same pipelines, jobs and clocks as far as births are concerned.
  ghost predicate Alike(s: State, s1: State, p: Id) {
    && p in s.tables.pipelines && p in s1.tables.pipelines && s1.prStates == s.prStates
    && s1.tables.pipelines[p] == s.tables.pipelines[p].(status := s1.tables.pipelines[p].status)
    && forall j :: j in s1.tables.jobs ==> j in s.tables.jobs && s1.tables.jobs[j].spec == s.tables.jobs[j].spec
  }

  lemma NewPreviewIsBirth(s: State, s1: State, p: Id, j: Id, now: Time, late: bool)
    requires Alike(s, s1, p) && PipelineTimed(s1, p) && j in s.tables.pipelines[p].jobIDs
    requires Wants(s1.tables, p, j, now, late) && MayActivate(s1, p)
    requires late || !IsTerminal(s.tables.pipelines[p].status)
    ensures Birth(s, KeyOf(s.tables.pipelines[p]),
                  NewPreview(s1.tables, p, s1.tables.jobs[j].spec.environment.value, now), now)
  {
    hide Lower, BuiltImage;
    var w := NewPreview(s1.tables, p, s1.tables.jobs[j].spec.environment.value, now);
    assert Wishes(s.tables, j);
    assert BirthFor(s, p, j, w, now);
  }

  lemma FinishIsProper(s: State, a: Id, token: string, report: Report, now: Time)
    requires Timed(s) && Coherent(s.tables) && OneEnvironments(s.tables)
    ensures Proper(s, Finish(s, a, token, report, now), now)
  {
    SamePreviewsAreProper(s, s, now);
    if LeaseHeld(s.tables, a, token, now) {
      hide Timed, Coherent, Proper, Commit;
      CommitIsProper(s, a, CommittedRecord(s.tables.attempts[a], report, now), now);
    }
  }

  lemma CommitIsProper(s: State, a: Id, record: Attempt, now: Time)
    requires Timed(s) && Coherent(s.tables) && OneEnvironments(s.tables)
    requires Finishes(s.tables, a, record) && SameIdentity(s.tables.attempts[a], record)
    ensures Located(s.tables, a) && Proper(s, Commit(s, a, record, now), now)
  {
    ActiveIsLast(s.tables, a);
    var p := PipelineOf(s.tables, a);
    var s1 := WithTables(s, Settle(s.tables, a, record));
    if !AnyFailed(s1.tables, p) && AllSucceeded(s1.tables, p) {
      var s2 := WithTables(s1, UpdateTables(s1.tables, p, now));
      CompletedAlike(s, s2, a, record, now);
      assert Commit(s, a, record, now) == ActivateJobs(s2, p, s.tables.pipelines[p].jobIDs, now, false);
      hide Timed, Coherent, Settle, UpdateTables, Commit, AnyFailed, AllSucceeded, Proper;
      CompletionIsProper(s, s2, p, now);
    } else {
      hide UpdateTables, AnyFailed, AllSucceeded, Coherent, Timed;
      SamePreviewsAreProper(s, Commit(s, a, record, now), now);
    }
  }

  lemma CompletedAlike(s: State, s2: State, a: Id, record: Attempt, now: Time)
    requires Timed(s) && Coherent(s.tables) && Located(s.tables, a) && IsActive(s.tables.attempts[a].status)
    requires Finishes(s.tables, a, record)
    requires var t1 := Settle(s.tables, a, record);
      !AnyFailed(t1, PipelineOf(s.tables, a)) && AllSucceeded(t1, PipelineOf(s.tables, a))
    requires s2 == WithTables(s, UpdateTables(Settle(s.tables, a, record), PipelineOf(s.tables, a), now))
    ensures var p := PipelineOf(s.tables, a);
      && Alike(s, s2, p) && s2.previews == s.previews && !IsTerminal(s.tables.pipelines[p].status)
      && PipelineTimed(s2, p)
  {
    hide Coherent, Timed, Settle, UpdateTables, AnyFailed, AllSucceeded, Lower, Finishes;
    var p := PipelineOf(s.tables, a);
    ActiveIsLast(s.tables, a);
    IsTimed(s, p);
    CompletedTables(s.tables, a, record, now);
    CompletedIsTimed(s, s2, p);
    hide PipelineTimed;
  }

  lemma CompletedIsTimed(s: State, s2: State, p: Id)
    requires PipelineTimed(s, p) && s2 == WithTables(s, s2.tables) && p in s2.tables.pipelines
    requires s2.tables.pipelines[p] == s.tables.pipelines[p].(status := Succeeded)
    ensures PipelineTimed(s2, p)
  {
    hide Lower;
  }

  lemma CompletedTables(t: Tables, a: Id, record: Attempt, now: Time)
    requires Located(t, a) && !AnyFailed(Settle(t, a, record), PipelineOf(t, a))
    requires AllSucceeded(Settle(t, a, record), PipelineOf(t, a))
    ensures var t2, p := UpdateTables(Settle(t, a, record), PipelineOf(t, a), now), PipelineOf(t, a);
      && t2.pipelines == t.pipelines[p := t.pipelines[p].(status := Succeeded)] && t2.jobs.Keys == t.jobs.Keys
      && forall j :: j in t.jobs ==> t2.jobs[j].spec == t.jobs[j].spec
  {
    hide AnyFailed, AllSucceeded;
  }

  // A pipeline that just completed finds its place vacant, or may not take it.
  lemma CompletionFindsVacancy(s: State, s2: State, p: Id)
    requires Timed(s) && Alike(s, s2, p) && s2.previews == s.previews && !IsTerminal(s.tables.pipelines[p].status)
    requires MayActivate(s2, p)
    ensures KeyOf(s.tables.pipelines[p]) !in s.previews
  {
    var key := KeyOf(s.tables.pipelines[p]);
    assert PipelineTimed(s, p);
    assert key in s.previews ==> PreviewTimed(s, key) && Apart(s.tables, p, s.previews[key].pipelineID);
    hide Lower;
  }

  lemma BirthIsProper(s: State, s': State, key: PRKey, w: Preview, now: Time)
    requires key !in s.previews && s'.previews == s.previews[key := w] && Birth(s, key, w, now)
    ensures Proper(s, s', now)
  {
    hide Birth;
  }

  lemma CompletionIsProper(s: State, s2: State, p: Id, now: Time)
    requires Timed(s) && Coherent(s.tables) && OneEnvironments(s.tables)
    requires Alike(s, s2, p) && s2.previews == s.previews && !IsTerminal(s.tables.pipelines[p].status)
    requires PipelineTimed(s2, p)
    ensures Proper(s, ActivateJobs(s2, p, s.tables.pipelines[p].jobIDs, now, false), now)
  {
    var jobs := s.tables.pipelines[p].jobIDs;
    PipelineHasOneWish(s.tables, p);
    assert OneWish(s2.tables, jobs) by {
      hide Coherent, Timed;
    }
    hide Coherent, Timed, OneWish, Wants, MayActivate, NewPreview, ActivateJobs, KeyOf, Birth, PipelineTimed,
         OneEnvironments, Proper;
    var s' := ActivateJobs(s2, p, jobs, now, false);
    var k := ActivationFillsOnce(s2, p, jobs, now, false);
    if k >= 0 {
      CompletionFindsVacancy(s, s2, p);
      NewPreviewIsBirth(s, s2, p, jobs[k], now, false);
      BirthIsProper(s, s', KeyOf(s.tables.pipelines[p]),
                    NewPreview(s2.tables, p, s2.tables.jobs[jobs[k]].spec.environment.value, now), now);
    } else {
      SamePreviewsAreProper(s, s', now);
    }
  }

  // ---- EnsurePreviews ----

  lemma EnsureOneIsProper(s: State, p: Id, now: Time)
    requires Timed(s) && Coherent(s.tables) && OneEnvironments(s.tables)
    ensures Proper(s, EnsureOne(s, p, now), now)
    ensures forall k :: k in s.previews ==>
      k in EnsureOne(s, p, now).previews && EnsureOne(s, p, now).previews[k] == s.previews[k]
  {
    hide Coherent, Timed, OneWish, MayActivate, NewPreview, ActivateJobs, KeyOf, Birth, OneEnvironment;
    if Lacking(s, p) {
      var jobs := s.tables.pipelines[p].jobIDs;
      PipelineHasOneWish(s.tables, p);
      IsTimed(s, p);
      hide PipelineTimed;
      var s' := EnsureOne(s, p, now);
      assert s' == ActivateJobs(s, p, jobs, now, true);
      hide EnsureOne;
      var k := ActivationFillsOnce(s, p, jobs, now, true);
      if k >= 0 {
        var w := NewPreview(s.tables, p, s.tables.jobs[jobs[k]].spec.environment.value, now);
        NewPreviewIsBirth(s, s, p, jobs[k], now, true);
        hide Wants, MayActivate;
        BirthIsProper(s, s', KeyOf(s.tables.pipelines[p]), w, now);
      } else {
        SamePreviewsAreProper(s, s', now);
      }
    } else {
      SamePreviewsAreProper(s, s, now);
    }
    hide Proper;
  }

  lemma IsTimed(s: State, p: Id)
    requires Timed(s) && p in s.tables.pipelines
    ensures PipelineTimed(s, p)
  {
  }

  lemma {:induction false} EnsureIsProper(s: State, order: seq<Id>, now: Time)
    requires Timed(s) && Coherent(s.tables) && OneEnvironments(s.tables)
    ensures Proper(s, Ensure(s, order, now), now)
    ensures forall k :: k in s.previews ==>
      k in Ensure(s, order, now).previews && Ensure(s, order, now).previews[k] == s.previews[k]
  {
    hide Coherent, Timed, Birth, EnsureOne;
    if order != [] {
      var before := order[..|order| - 1];
      var s1 := Ensure(s, before, now);
      EnsureIsProper(s, before, now);
      EnsureStaysTimed(s, before, now);
      EnsureTouches(s, before, now);
      EnsureOneIsProper(s1, order[|order| - 1], now);
      BirthsCarryOver(s, s1, now);
    }
  }

  lemma BirthsCarryOver(s: State, s1: State, now: Time)
    requires s1.tables == s.tables && s1.prStates == s.prStates
    ensures forall k, w {:trigger Birth(s1, k, w, now)} :: Birth(s1, k, w, now) ==> Birth(s, k, w, now)
  {
    forall k, w | Birth(s1, k, w, now) ensures Birth(s, k, w, now) {
      var p := w.pipelineID;
      var j :| j in s1.tables.pipelines[p].jobIDs && Wishes(s1.tables, j) && BirthFor(s1, p, j, w, now);
      assert Wishes(s.tables, j) && BirthFor(s, p, j, w, now);
    }
  }

  // ---- The other steps ----

  // Cancelling a job never touches a preview that is wanted: its pull request has nothing left to cancel.
  lemma CancelIsProper(s: State, j: Id, now: Time)
    requires Timed(s) && Settled(s) && Coherent(s.tables)
    ensures Proper(s, Cancel(s, j, now), now) && Cancel(s, j, now).previews == s.previews
  {
    if MayCancel(s.tables, j) {
      UnfinishedPipeline(s.tables, j);
      var p := s.tables.jobs[j].pipelineID;
      hide Coherent, CancelPipelines, Settled;
      if s.tables.pipelines[p].pr > 0 {
        NothingToBury(s, p);
      }
      hide Timed, KeyOf;
    }
    SamePreviewsAreProper(s, Cancel(s, j, now), now);
  }

  lemma NothingToBury(s: State, p: Id)
    requires Timed(s) && Settled(s) && p in s.tables.pipelines && s.tables.pipelines[p].pr > 0
    requires !IsTerminal(s.tables.pipelines[p].status)
    ensures var key := KeyOf(s.tables.pipelines[p]); key in s.previews ==> s.previews[key].desired == Deleting
  {
    var key := KeyOf(s.tables.pipelines[p]);
    assert SettledAt(s, p);
    assert key in s.previews ==> PreviewTimed(s, key) && Apart(s.tables, p, s.previews[key].pipelineID);
    hide Lower;
  }

  lemma ReconcileIsProper(s: State, order: seq<Id>, now: Time)
    ensures Proper(s, Reconcile(s, order, now), now)
  {
    hide Sweep, Swept, Prunable, Drop;
  }

  lemma ObserveIsProper(s: State, p: Preview, actual: Status, url: string, lastError: string, now: Time)
    ensures Proper(s, Observe(s, p, actual, url, lastError), now)
  {
    hide Lower, Birth;
  }

  lemma AdvanceIsProper(s: State, input: Submission, now: Time)
    requires Timed(s)
    ensures Proper(s, Advance(s, input, now), now)
  {
    var key := SubmissionKey(input);
    hide Advance, PipelinesTimed, Lower, EventTime;
    AdvanceClocks(s, input, now);
    AdvanceBuries(s, input, now);
    assert key in s.previews ==> PreviewTimed(s, key);
    hide Timed, SubmissionKey;
  }

  lemma AdvanceBuries(s: State, input: Submission, now: Time)
    ensures Advance(s, input, now).previews ==
      if input.pr <= 0 then s.previews
      else BuriedUnder(s.previews, SubmissionKey(input), Prior(s, input).generation + 1, now)
  {
    hide CancelPipelines, Superseded, SubmissionKey, NextClock, BuriedUnder;
  }

  lemma SubmitIsProper(s: State, input: Submission, p: Id, ids: seq<Id>, pick: Id, now: Time)
    requires Timed(s) && IdsFor(input, ids)
    ensures Proper(s, Submit(s, input, p, ids, pick, now), now)
  {
    hide Timed, Proper, Advance, Classify, Create, IdsFor, SubmissionKey, EventTime, Prior;
    if Classify(s, input, now) == Fresh {
      AdvanceIsProper(s, input, now);
      SubmitIsAccept(s, input, p, ids, pick, now);
      ProperIgnoresTheRest(s, Advance(s, input, now), Submit(s, input, p, ids, pick, now), now);
    } else {
      SamePreviewsAreProper(s, Submit(s, input, p, ids, pick, now), now);
    }
  }

  lemma ProperIgnoresTheRest(s: State, s1: State, s2: State, now: Time)
    requires Proper(s, s1, now) && s2.previews == s1.previews && s2.prStates == s1.prStates
    ensures Proper(s, s2, now)
  {
  }

  lemma ScheduleIsProper(s: State, order: seq<Id>, grant: Option<Grant>, a: Id, token: string, now: Time)
    ensures Proper(s, Schedule(s, order, grant, a, token, now), now)
  {
    SamePreviewsAreProper(s, Schedule(s, order, grant, a, token, now), now);
    hide Proper, Sweep, Swept;
  }

  // Every step treats previews properly.
  lemma StepIsProper(s: State, step: Step)
    requires Timed(s) && Settled(s) && Coherent(s.tables) && OneEnvironments(s.tables) && Enabled(s, step)
    ensures Proper(s, Apply(s, step), step.now)
  {
    hide Timed, Settled, Coherent, OneEnvironments, Proper, Submit, Schedule, Finish, Cancel, Reconcile, Ensure,
         Observe, Beat, FreshIds, IdsFor, Classify, SameRevision, GrantFits;
    match step
    case SubmitStep(input, p, ids, pick, now) => SubmitIsProper(s, input, p, ids, pick, now);
    case ScheduleStep(order, grant, a, token, now) => ScheduleIsProper(s, order, grant, a, token, now);
    case FinishStep(a, token, report, now) => FinishIsProper(s, a, token, report, now);
    case CancelStep(j, now) => CancelIsProper(s, j, now);
    case ReconcileStep(order, now) => ReconcileIsProper(s, order, now);
    case EnsureStep(order, now) => EnsureIsProper(s, order, now);
    case ObserveStep(preview, actual, url, lastError, now) => ObserveIsProper(s, preview, actual, url, lastError, now);
    case BeatStep(a, token, now) => BeatIsProper(s, a, token, now);
    case _ => SamePreviewsAreProper(s, Apply(s, step), step.now);
  }

  lemma BeatIsProper(s: State, a: Id, token: string, now: Time)
    ensures Proper(s, Beat(s, a, token, now), now)
  {
    SamePreviewsAreProper(s, Beat(s, a, token, now), now);
    hide Proper;
  }

  // ---- How long previews live ----

  // A wanted preview outlives its pipeline's window; one to be deleted can never be wanted again.
  ghost predicate Lives(s: State, k: PRKey, now: Time) {
    k in s.previews && s.previews[k].pipelineID in s.tables.pipelines &&
    if s.previews[k].desired == Active then WindowsOver(s.tables, s.previews[k].pipelineID, s.previews[k].expiresAt)
    else Barred(s, s.previews[k].pipelineID, now)
  }

  ghost predicate Mortal(s: State, now: Time) {
    && OneEnvironments(s.tables)
    && (forall p :: p in s.tables.pipelines ==> s.tables.pipelines[p].createdAt <= now)
    && (forall k {:trigger Lives(s, k, now)} :: k in s.previews ==> Lives(s, k, now))
  }

  // What births are decided by stays as it was.
  lemma SameWindows(t: Tables, t': Tables, p: Id, time: Time)
    requires Coherent(t) && Evolves(t, t') && p in t.pipelines && p in t'.pipelines && WindowsOver(t, p, time)
    ensures WindowsOver(t', p, time)
  {
    assert PipelineRefs(t, p);
    hide NoReturn, Rank;
    forall j | j in t'.pipelines[p].jobIDs && Wishes(t', j) ensures time >= WindowEnd(t', p, j) {
      assert Has(t, p, j);
      assert JobEvolves(t.jobs[j], t'.jobs[j]);
      assert Wishes(t, j);
    }
    hide Coherent;
  }

  lemma LaterWindows(t: Tables, p: Id, time: Time, later: Time)
    requires p in t.pipelines && WindowsOver(t, p, time) && time <= later
    ensures WindowsOver(t, p, later)
  {
  }

  lemma StaysBarred(s: State, s': State, p: Id, before: Time, now: Time)
    requires Coherent(s.tables) && Evolves(s.tables, s'.tables) && ClocksAdvance(s, s') && before <= now
    requires p in s.tables.pipelines && Barred(s, p, before)
    ensures Barred(s', p, now)
  {
    if p in s'.tables.pipelines {
      hide Coherent, Lower, NoReturn, Rank;
      assert PipelineEvolves(s.tables.pipelines[p], s'.tables.pipelines[p]);
      if WindowsOver(s.tables, p, before) {
        SameWindows(s.tables, s'.tables, p, before);
        LaterWindows(s'.tables, p, before, now);
      }
      hide WindowsOver;
    }
  }

  lemma TTLCoversWindow(e: Environment)
    ensures TTL(e) >= e.ttlMinutes * MINUTE
  {
  }

  // A preview is born with its whole window ahead of it.
  lemma BornWithWindow(s: State, key: PRKey, w: Preview, now: Time)
    requires Coherent(s.tables) && Birth(s, key, w, now) && OneEnvironments(s.tables)
    requires s.tables.pipelines[w.pipelineID].createdAt <= now
    ensures WindowsOver(s.tables, w.pipelineID, w.expiresAt)
  {
    var p := w.pipelineID;
    var jobs := s.tables.pipelines[p].jobIDs;
    PipelineHasOneWish(s.tables, p);
    hide Coherent;
    var j :| j in jobs && Wishes(s.tables, j) && BirthFor(s, p, j, w, now);
    forall k | k in jobs && Wishes(s.tables, k) ensures w.expiresAt >= WindowEnd(s.tables, p, k) {
      var x :| 0 <= x < |jobs| && jobs[x] == j;
      var y :| 0 <= y < |jobs| && jobs[y] == k;
      assert x == y;
      TTLCoversWindow(s.tables.jobs[j].spec.environment.value);
    }
  }

  ghost predicate Stepped(s: State, s': State, before: Time, now: Time) {
    && Coherent(s.tables) && Timed(s) && Timed(s') && Evolves(s.tables, s'.tables) && ClocksAdvance(s, s')
    && Proper(s, s', now)
    && before <= now
  }

  lemma StaysAlive(s: State, s': State, k: PRKey, before: Time, now: Time)
    requires Stepped(s, s', before, now) && Mortal(s, before) && k in s'.previews
    ensures Lives(s', k, now)
  {
    hide Coherent, ClocksAdvance, Evolves;
    assert PreviewTimed(s', k);
    var p := s'.previews[k].pipelineID;
    if k in s.previews {
      assert Lives(s, k, before) && PreviewTimed(s, k);
      hide Timed, Mortal, Proper;
      KeepsLiving(s, s', k, p, before, now);
    } else {
      assert Birth(s, k, s'.previews[k], now);
      hide Timed, Proper;
      BornWithWindow(s, k, s'.previews[k], now);
      SameWindows(s.tables, s'.tables, p, s'.previews[k].expiresAt);
    }
  }

  lemma KeepsLiving(s: State, s': State, k: PRKey, p: Id, before: Time, now: Time)
    requires Stepped(s, s', before, now) && Lives(s, k, before) && k in s'.previews && p == s'.previews[k].pipelineID
    requires PreviewTimed(s, k) && PreviewTimed(s', k)
    ensures Lives(s', k, now)
  {
    hide Coherent, ClocksAdvance, Timed, Lower, NoReturn, JobEvolves, AttemptEvolves;
    assert PipelineEvolves(s.tables.pipelines[p], s'.tables.pipelines[p]);
    hide Evolves;
    assert SameIncarnation(s.previews[k], s'.previews[k]);
    if s.previews[k].desired != Active {
      StaysBarred(s, s', p, before, now);
    } else {
      SameWindows(s.tables, s'.tables, p, s.previews[k].expiresAt);
      if s'.previews[k].desired == Deleting && now >= s.previews[k].expiresAt {
        LaterWindows(s'.tables, p, s.previews[k].expiresAt, now);
      }
      hide WindowsOver, Birth;
    }
  }

  // Only an open submission brings a pipeline: its own configuration, created now.
  lemma ArrivalsAreSubmitted(s: State, step: Step)
    requires Coherent(s.tables) && Enabled(s, step)
    ensures var t' := Apply(s, step).tables;
      forall p :: p in t'.pipelines && p !in s.tables.pipelines ==>
        && step.SubmitStep? && !step.input.closed
        && t'.pipelines[p].config == step.input.spec && t'.pipelines[p].createdAt == step.now
  {
    hide Coherent, Classify, Submit, IdsFor, FreshIds, SameRevision, GenerationOf;
    if step.SubmitStep? {
      CreatedAt(s, step.input, step.p, step.ids, step.pick, step.now);
    } else {
      OnlySubmissionsAsk(s, step);
      hide Apply, Enabled;
    }
  }

  lemma StepKeepsOneEnvironment(s: State, step: Step)
    requires Coherent(s.tables) && Enabled(s, step) && AsksForOnePreview(step) && OneEnvironments(s.tables)
    ensures OneEnvironments(Apply(s, step).tables)
  {
    hide Apply, Enabled, Coherent, OneEnvironment, NoReturn, Rank;
    StepEvolves(s, step);
    ArrivalsAreSubmitted(s, step);
    var t' := Apply(s, step).tables;
    forall p | p in t'.pipelines ensures OneEnvironment(t'.pipelines[p].config) {
      assert p in s.tables.pipelines ==> PipelineEvolves(s.tables.pipelines[p], t'.pipelines[p]);
    }
  }

  lemma StepKeepsCreation(s: State, step: Step, before: Time)
    requires Coherent(s.tables) && Enabled(s, step) && before <= step.now
    requires forall p :: p in s.tables.pipelines ==> s.tables.pipelines[p].createdAt <= before
    ensures forall p :: p in Apply(s, step).tables.pipelines ==>
      Apply(s, step).tables.pipelines[p].createdAt <= step.now
  {
    hide Apply, Enabled, Coherent, NoReturn, Rank;
    StepEvolves(s, step);
    ArrivalsAreSubmitted(s, step);
    var t' := Apply(s, step).tables;
    forall p | p in t'.pipelines ensures t'.pipelines[p].createdAt <= step.now {
      assert p in s.tables.pipelines ==> PipelineEvolves(s.tables.pipelines[p], t'.pipelines[p]);
    }
  }

  lemma StepStaysMortal(s: State, step: Step, before: Time)
    requires Coherent(s.tables) && Timed(s) && Settled(s) && Mortal(s, before) && Enabled(s, step)
    requires AsksForOnePreview(step) && before <= step.now
    ensures Mortal(Apply(s, step), step.now) && Stepped(s, Apply(s, step), before, step.now)
  {
    hide Coherent, Timed, Settled, Enabled, Apply, Evolves, ClocksAdvance, Proper, Lives, OneEnvironments;
    var s' := Apply(s, step);
    StepStaysTimed(s, step);
    StepEvolves(s, step);
    StepAdvancesClocks(s, step);
    StepIsProper(s, step);
    StepKeepsOneEnvironment(s, step);
    StepKeepsCreation(s, step, before);
    forall k | k in s'.previews ensures Lives(s', k, step.now) {
      StaysAlive(s, s', k, before, step.now);
    }
  }

  // ---- Runs with a clock that never turns back ----

  function ClockAt(steps: seq<Step>, i: nat): Time
    requires i <= |steps| && steps != []
  {
    if i == 0 then steps[0].now else steps[i - 1].now
  }

  lemma {:induction false} MortalThroughout(states: seq<State>, steps: seq<Step>, i: nat)
    requires OrderlyRun(states, steps) && Monotone(steps) && steps != [] && i <= |steps|
    ensures |states| == |steps| + 1 && Mortal(states[i], ClockAt(steps, i))
    ensures i < |steps| ==> Stepped(states[i], states[i + 1], ClockAt(steps, i), ClockAt(steps, i + 1))
  {
    hide Mortal, Stepped, Timed, Settled, Coherent, Apply, Enabled, AsksForOnePreview, SpellsRepository;
    if i > 0 {
      MortalThroughout(states, steps, i - 1);
      MortalStep(states, steps, i - 1);
    } else {
      EmptyIsMortal(states[0].config, steps[0].now);
    }
    if i < |steps| {
      MortalStep(states, steps, i);
    }
  }

  lemma MortalStep(states: seq<State>, steps: seq<Step>, i: nat)
    requires OrderlyRun(states, steps) && Monotone(steps) && i < |steps| && i < |states|
    requires Mortal(states[i], ClockAt(steps, i))
    ensures i + 1 < |states| && Mortal(states[i + 1], ClockAt(steps, i + 1))
    ensures Stepped(states[i], states[i + 1], ClockAt(steps, i), ClockAt(steps, i + 1))
  {
    hide Mortal, Stepped, Timed, Settled, Coherent, Apply, Enabled, AsksForOnePreview, SpellsRepository;
    TimedThroughout(states, steps, i);
    SettledThroughout(states, steps, i);
    CoherentThroughout(states, steps, i);
    assert Taken(states, steps, i) && AsksForOnePreview(steps[i]);
    StepStaysMortal(states[i], steps[i], ClockAt(steps, i));
  }

  lemma EmptyIsMortal(c: Config, now: Time)
    ensures Mortal(Init(c), now)
  {
  }

  // ---- One incarnation ----

  ghost predicate Owns(s: State, p: Id, k: PRKey) {
    k in s.previews && s.previews[k].pipelineID == p
  }

  // The pipeline is over and done with: pruned, or finished and never to own a preview again.
  ghost predicate Spent(s: State, p: Id, now: Time) {
    && p in s.tables.issued
    && (p in s.tables.pipelines ==> IsTerminal(s.tables.pipelines[p].status) && Barred(s, p, now))
  }

  // A preview its owner loses, it loses for good.
  lemma LosesForGood(s: State, s': State, p: Id, k: PRKey, before: Time, now: Time)
    requires Stepped(s, s', before, now) && Mortal(s, before) && Owns(s, p, k)
    ensures if k in s'.previews then SameIncarnation(s.previews[k], s'.previews[k]) else Spent(s', p, now)
  {
    assert PreviewTimed(s, k) && Lives(s, k, before);
    assert AllIssued(s.tables) && NoReturn(s.tables, s'.tables);
    if k !in s'.previews {
      hide Timed, Mortal, Coherent, AllIssued, ClocksAdvance, Lower;
      assert s.previews[k].desired == Deleting || now >= s.previews[k].expiresAt;
      hide Proper;
      if s.previews[k].desired == Active {
        LaterWindows(s.tables, p, s.previews[k].expiresAt, now);
        StaysBarred(s, s', p, now, now);
      } else {
        StaysBarred(s, s', p, before, now);
      }
    }
  }

  lemma StaysSpent(s: State, s': State, p: Id, k: PRKey, before: Time, now: Time)
    requires Stepped(s, s', before, now) && Spent(s, p, before) && !Owns(s, p, k)
    ensures Spent(s', p, now) && !Owns(s', p, k)
  {
    assert NoReturn(s.tables, s'.tables);
    assert p in s.tables.pipelines && p in s'.tables.pipelines ==>
      PipelineEvolves(s.tables.pipelines[p], s'.tables.pipelines[p]);
    hide Evolves, Lower, Timed;
    if p in s.tables.pipelines {
      StaysBarred(s, s', p, before, now);
      if k !in s.previews && k in s'.previews && s'.previews[k].pipelineID == p {
        assert Birth(s, k, s'.previews[k], now);
        BarredHasNoBirth(s, k, s'.previews[k], before, now);
      }
    }
    hide Coherent, Barred, Birth, ClocksAdvance;
  }

  lemma BarredHasNoBirth(s: State, k: PRKey, w: Preview, before: Time, now: Time)
    requires w.pipelineID in s.tables.pipelines && IsTerminal(s.tables.pipelines[w.pipelineID].status)
    requires Barred(s, w.pipelineID, before) && before <= now
    ensures !Birth(s, k, w, now)
  {
    hide Lower;
  }

  lemma {:induction false} OwnsOrSpent(states: seq<State>, steps: seq<Step>, i: nat, m: nat, p: Id, k: PRKey)
    requires OrderlyRun(states, steps) && Monotone(steps) && steps != [] && i <= m <= |steps|
    requires |states| == |steps| + 1 && Owns(states[i], p, k)
    ensures if Owns(states[m], p, k) then SameIncarnation(states[i].previews[k], states[m].previews[k])
            else Spent(states[m], p, ClockAt(steps, m))
    ensures forall x {:trigger states[x]} :: i <= x <= m && Owns(states[m], p, k) ==> Owns(states[x], p, k)
  {
    hide OrderlyRun, Stepped, Mortal, Spent;
    if i < m {
      OwnsOrSpent(states, steps, i, m - 1, p, k);
      MortalThroughout(states, steps, m - 1);
      if Owns(states[m - 1], p, k) {
        LosesForGood(states[m - 1], states[m], p, k, ClockAt(steps, m - 1), ClockAt(steps, m));
      } else {
        StaysSpent(states[m - 1], states[m], p, k, ClockAt(steps, m - 1), ClockAt(steps, m));
      }
    }
  }

  // If a pipeline owns the preview of a pull request at two moments of a run, it owned it all the time
  // between: every pipeline gives rise to at most one incarnation.
  lemma OneIncarnation(states: seq<State>, steps: seq<Step>, i: nat, m: nat, n: nat, p: Id, k: PRKey)
    requires OrderlyRun(states, steps) && Monotone(steps) && i <= m <= n < |states|
    requires Owns(states[i], p, k) && Owns(states[n], p, k)
    ensures Owns(states[m], p, k) && SameIncarnation(states[i].previews[k], states[m].previews[k])
  {
    RunHasLength(states, steps);
    if i < n {
      OwnsOrSpent(states, steps, i, n, p, k);
      assert Owns(states[m], p, k);
      OwnsOrSpent(states, steps, i, m, p, k);
    }
    hide OrderlyRun, Spent;
  }

  lemma RunHasLength(states: seq<State>, steps: seq<Step>)
    requires OrderlyRun(states, steps)
    ensures |states| == |steps| + 1
  {
  }

  // The comparison made when an observation is reported is free of ABA: if generation, owner and wish are
  // those the controller saw, nothing of the three changed in between, and the preview is the one it saw.
  lemma ObservationIsCurrent(states: seq<State>, steps: seq<Step>, i: nat, m: nat, n: nat, k: PRKey)
    requires OrderlyRun(states, steps) && Monotone(steps) && i <= m <= n < |states|
    requires k in states[i].previews && Current(states[n], states[i].previews[k])
    ensures k in states[m].previews && Current(states[m], states[i].previews[k])
    ensures k in states[n].previews && SameIncarnation(states[i].previews[k], states[n].previews[k])
  {
    var p := states[i].previews[k].pipelineID;
    PreviewIsAtItsKey(states, steps, i, k);
    hide OrderlyRun, PreviewKey;
    OneIncarnation(states, steps, i, m, n, p, k);
    OneIncarnation(states, steps, m, n, n, p, k);
    OneIncarnation(states, steps, i, n, n, p, k);
  }

  lemma PreviewIsAtItsKey(states: seq<State>, steps: seq<Step>, i: nat, k: PRKey)
    requires Run(states, steps) && i < |states| && k in states[i].previews
    ensures PreviewKey(states[i].previews[k].repo, states[i].previews[k].pr) == k
  {
    hide Run, PipelinesTimed, Lower;
    TimedThroughout(states, steps, i);
    assert PreviewTimed(states[i], k);
  }

  // ---- Deletion ----

  // Only a preview that is to be deleted is ever observed as deleted.
  ghost predicate Observing(s: State) {
    forall k :: k in s.previews && s.previews[k].actual == Deleted ==> s.previews[k].desired == Deleting
  }

  // A preview seen as deleted was so before, and if it was to be deleted it still is.
  ghost predicate NothingReported(s: State, s': State) {
    forall k :: k in s'.previews && s'.previews[k].actual == Deleted ==>
      && k in s.previews && s.previews[k].actual == Deleted
      && (s.previews[k].desired == Deleting ==> s'.previews[k].desired == Deleting)
  }

  // A preview seen as deleted was so before or was to be deleted, and if it was to be deleted it still is.
  ghost predicate Reported(s: State, s': State) {
    forall k :: k in s'.previews && s'.previews[k].actual == Deleted ==>
      && k in s.previews && (s.previews[k].actual == Deleted || s.previews[k].desired == Deleting)
      && (s.previews[k].desired == Deleting ==> s'.previews[k].desired == Deleting)
  }

  lemma SameReports(s: State, s': State)
    requires s'.previews == s.previews
    ensures NothingReported(s, s') && Reported(s, s')
  {
  }

  lemma ActivateForReports(s: State, p: Id, j: Id, now: Time, late: bool)
    ensures NothingReported(s, ActivateFor(s, p, j, now, late))
  {
    hide Wants, Lower, BuiltImage, ClockAllows;
  }

  lemma {:induction false} ActivationReports(s: State, p: Id, jobs: seq<Id>, now: Time, late: bool)
    ensures NothingReported(s, ActivateJobs(s, p, jobs, now, late))
  {
    hide ActivateFor;
    if jobs != [] {
      var before := jobs[..|jobs| - 1];
      ActivationReports(s, p, before, now, late);
      ActivateForReports(ActivateJobs(s, p, before, now, late), p, jobs[|jobs| - 1], now, late);
    }
  }

  lemma {:induction false} EnsureReports(s: State, order: seq<Id>, now: Time)
    ensures NothingReported(s, Ensure(s, order, now))
  {
    hide ActivateJobs, Lacking;
    if order != [] {
      var s1, p := Ensure(s, order[..|order| - 1], now), order[|order| - 1];
      EnsureReports(s, order[..|order| - 1], now);
      if Lacking(s1, p) {
        assert p in s1.tables.pipelines by {
          LackingIsThere(s1, p);
        }
        ActivationReports(s1, p, s1.tables.pipelines[p].jobIDs, now, true);
      }
    }
  }

  lemma LackingIsThere(s: State, p: Id)
    requires Lacking(s, p)
    ensures p in s.tables.pipelines
  {
  }

  lemma FinishReports(s: State, a: Id, token: string, report: Report, now: Time)
    ensures NothingReported(s, Finish(s, a, token, report, now))
  {
    SameReports(s, s);
    if LeaseHeld(s.tables, a, token, now) {
      var p := PipelineOf(s.tables, a);
      var s1 := WithTables(s, Settle(s.tables, a, CommittedRecord(s.tables.attempts[a], report, now)));
      var s2 := WithTables(s1, UpdateTables(s1.tables, p, now));
      ActivationReports(s2, p, s1.tables.pipelines[p].jobIDs, now, false);
      hide ActivateJobs, UpdateTables, AnyFailed, AllSucceeded, Settle;
    }
  }

  lemma CancelReports(s: State, j: Id, now: Time)
    ensures NothingReported(s, Cancel(s, j, now))
  {
    hide CancelPipelines, Lower;
  }

  lemma ReconcileReports(s: State, order: seq<Id>, now: Time)
    ensures NothingReported(s, Reconcile(s, order, now))
  {
    hide Sweep, Swept, Prunable, Drop;
  }

  lemma SubmitReports(s: State, input: Submission, p: Id, ids: seq<Id>, pick: Id, now: Time)
    requires IdsFor(input, ids)
    ensures NothingReported(s, Submit(s, input, p, ids, pick, now))
  {
    hide NothingReported, Advance, Classify, Create, IdsFor, SubmissionKey, EventTime, Prior;
    if Classify(s, input, now) == Fresh {
      AdvanceReports(s, input, now);
      SubmitIsAccept(s, input, p, ids, pick, now);
      ReportsIgnoreTheRest(s, Advance(s, input, now), Submit(s, input, p, ids, pick, now));
    } else {
      SameReports(s, Submit(s, input, p, ids, pick, now));
    }
  }

  lemma AdvanceReports(s: State, input: Submission, now: Time)
    ensures NothingReported(s, Advance(s, input, now))
  {
    AdvanceBuries(s, input, now);
    hide Advance, SubmissionKey, Prior;
  }

  lemma ReportsIgnoreTheRest(s: State, s1: State, s2: State)
    requires NothingReported(s, s1) && s2.previews == s1.previews
    ensures NothingReported(s, s2)
  {
  }

  lemma ObserveReports(s: State, p: Preview, actual: Status, url: string, lastError: string)
    requires actual == Deleted ==> p.desired == Deleting
    ensures Reported(s, Observe(s, p, actual, url, lastError))
  {
    hide Lower;
  }

  lemma StepReports(s: State, step: Step)
    requires Enabled(s, step) && ReportsDeletion(step)
    ensures Reported(s, Apply(s, step))
  {
    hide Submit, Schedule, Finish, Cancel, Reconcile, Ensure, Observe, Beat, FreshIds, IdsFor, Classify, SameRevision,
         GrantFits;
    match step
    case SubmitStep(input, p, ids, pick, now) => SubmitReports(s, input, p, ids, pick, now);
    case ScheduleStep(order, grant, a, token, now) => ScheduleReports(s, order, grant, a, token, now);
    case FinishStep(a, token, report, now) => FinishReports(s, a, token, report, now);
    case CancelStep(j, now) => CancelReports(s, j, now);
    case ReconcileStep(order, now) => ReconcileReports(s, order, now);
    case EnsureStep(order, now) => EnsureReports(s, order, now);
    case ObserveStep(preview, actual, url, lastError, now) => ObserveReports(s, preview, actual, url, lastError);
    case BeatStep(a, token, now) => BeatReports(s, a, token, now);
    case _ => SameReports(s, Apply(s, step));
  }

  lemma ScheduleReports(s: State, order: seq<Id>, grant: Option<Grant>, a: Id, token: string, now: Time)
    ensures Reported(s, Schedule(s, order, grant, a, token, now))
  {
    SameReports(s, Schedule(s, order, grant, a, token, now));
    hide Reported, Sweep, Swept;
  }

  lemma BeatReports(s: State, a: Id, token: string, now: Time)
    ensures Reported(s, Beat(s, a, token, now))
  {
    SameReports(s, Beat(s, a, token, now));
    hide Reported;
  }

  lemma {:induction false} OnlyDeletedOnRequest(states: seq<State>, steps: seq<Step>, i: nat)
    requires HonestRun(states, steps) && i < |states|
    ensures Observing(states[i])
  {
    hide Enabled, Apply;
    if i > 0 {
      OnlyDeletedOnRequest(states, steps, i - 1);
      assert Taken(states, steps, i - 1) && ReportsDeletion(steps[i - 1]);
      hide Run, HonestRun;
      StepReports(states[i - 1], steps[i - 1]);
    }
  }

  // In every state of a run whose pipelines ask for one preview at most, no pipeline asks for more.
  lemma {:induction false} OneEnvironmentThroughout(states: seq<State>, steps: seq<Step>, i: nat)
    requires Run(states, steps) && i < |states|
    requires forall m {:trigger AsksForOnePreview(steps[m])} :: 0 <= m < |steps| ==> AsksForOnePreview(steps[m])
    ensures OneEnvironments(states[i].tables)
  {
    hide Coherent, OneEnvironments, Enabled, Apply, AsksForOnePreview;
    if i > 0 {
      OneEnvironmentThroughout(states, steps, i - 1);
      CoherentThroughout(states, steps, i - 1);
      assert Taken(states, steps, i - 1) && AsksForOnePreview(steps[i - 1]);
      StepKeepsOneEnvironment(states[i - 1], steps[i - 1]);
    } else {
      EmptyAsksNothing(states[0].config);
    }
  }

  lemma EmptyAsksNothing(c: Config)
    ensures OneEnvironments(Init(c).tables)
  {
  }
}
