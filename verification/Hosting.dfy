// Which previews there are and what is in them: how one comes up, is restored, ages, is observed and goes.

module Hosting {
  import opened Domain
  import opened Ordering
  import opened TableModel
  import opened Model
  import opened Coherence
  import opened Steps
  import opened Expiry
  import opened Renewal
  import opened Outcomes

  // ---- Images ----

  // What comes before the first '@' of an image reference.
  predicate IsRepository(reference: string, repository: string) {
    && repository <= reference && '@' !in repository
    && (repository != reference ==> reference[|repository|] == '@')
  }

  // The job is a build, and its last attempt brought a digest.
  ghost predicate Publishes(t: Tables, j: Id) {
    && j in t.jobs && t.jobs[j].spec.buildkit.Some? && t.jobs[j].attemptIDs != []
    && t.jobs[j].attemptIDs[|t.jobs[j].attemptIDs| - 1] in t.attempts
    && t.attempts[t.jobs[j].attemptIDs[|t.jobs[j].attemptIDs| - 1]].digest != ""
  }

  // The image is the job's, pinned to the digest its last attempt brought.
  ghost predicate IsImageOf(t: Tables, j: Id, image: string)
    requires Publishes(t, j)
  {
    exists repository :: IsRepository(t.jobs[j].spec.buildkit.value.destination, repository)
      && image == repository + "@" + t.attempts[t.jobs[j].attemptIDs[|t.jobs[j].attemptIDs| - 1]].digest
  }

  // The image of the last job that published one, or none.
  ghost predicate IsBuilt(t: Tables, jobs: seq<Id>, image: string) {
    if forall i :: 0 <= i < |jobs| ==> !Publishes(t, jobs[i]) then image == ""
    else exists i :: 0 <= i < |jobs| && Publishes(t, jobs[i]) && IsImageOf(t, jobs[i], image)
                     && forall k :: i < k < |jobs| ==> !Publishes(t, jobs[k])
  }

  lemma {:induction false} BeforeAtIsRepository(reference: string)
    ensures IsRepository(reference, BeforeAt(reference))
  {
    if reference != "" && reference[0] != '@' {
      BeforeAtIsRepository(reference[1..]);
      assert BeforeAt(reference) == [reference[0]] + BeforeAt(reference[1..]);
      assert reference == [reference[0]] + reference[1..];
    }
  }

  lemma {:induction false} BuiltImageIsBuilt(t: Tables, jobs: seq<Id>)
    ensures IsBuilt(t, jobs, BuiltImage(t, jobs))
  {
    if jobs != [] {
      var before, j := jobs[..|jobs| - 1], jobs[|jobs| - 1];
      assert Publishes(t, j) <==> Built(t, j);
      if Publishes(t, j) {
        BeforeAtIsRepository(t.jobs[j].spec.buildkit.value.destination);
        assert IsImageOf(t, j, BuiltImage(t, jobs));
      } else {
        BuiltImageIsBuilt(t, before);
        hide Publishes, IsImageOf, BuiltImage;
        if i :| 0 <= i < |before| && Publishes(t, before[i]) && IsImageOf(t, before[i], BuiltImage(t, before))
                && forall k :: i < k < |before| ==> !Publishes(t, before[k]) {
          assert jobs[i] == before[i];
          assert forall k :: i < k < |jobs| ==> jobs[k] == if k < |before| then before[k] else j;
        } else {
          assert forall k :: 0 <= k < |jobs| ==> jobs[k] == if k < |before| then before[k] else j;
        }
      }
    }
  }

  // ---- How a preview comes up ----

  // A preview of pipeline p for what one of its jobs asks for: at the generation of the pipeline, wanted and not yet
  // there, for as many minutes as asked or else a day, with the image asked for or else the one the pipeline built.
  ghost predicate Hosts(t: Tables, p: Id, e: Environment, now: Time, v: Preview) {
    && p in t.pipelines
    && v == Preview(t.pipelines[p].repo, t.pipelines[p].pr, "", t.pipelines[p].generation, Active, Pending,
                    now + (if e.ttlMinutes > 0 then e.ttlMinutes * 60_000_000_000 else 86_400_000_000_000), now,
                    t.pipelines[p].tenant, p, v.image, if e.port == 0 then 8080 else e.port,
                    if e.healthPath == "" then "/" else e.healthPath, "", e.exposure)
    && (if e.image != "" then v.image == e.image else IsBuilt(t, t.pipelines[p].jobIDs, v.image))
  }

  // The pull request of the pipeline is open at its very generation, as far as is known.
  predicate Open(s: State, q: Pipeline) {
    var key := PRKey(Lower(q.repo), q.pr);
    q.pr > 0 && (key in s.prStates ==> !s.prStates[key].closed && s.prStates[key].generation == q.generation)
  }

  // And its preview is not about to be deleted.
  predicate Invited(s: State, q: Pipeline) {
    var key := PRKey(Lower(q.repo), q.pr);
    Open(s, q) && (key in s.previews ==> s.previews[key].desired != Deleting)
  }

  // The job asks for a preview; late, only while the time it asked for would not be over since its pipeline came.
  ghost predicate Asks(t: Tables, p: Id, j: Id, now: Time, late: bool) {
    && p in t.pipelines && j in t.jobs && t.jobs[j].spec.environment.Some?
    && (late ==> now < t.pipelines[p].createdAt + t.jobs[j].spec.environment.value.ttlMinutes * 60_000_000_000)
  }

  ghost predicate AsksLast(t: Tables, p: Id, jobs: seq<Id>, now: Time, late: bool, i: int) {
    0 <= i < |jobs| && Asks(t, p, jobs[i], now, late)
      && forall k :: i < k < |jobs| ==> !Asks(t, p, jobs[k], now, late)
  }

  ghost predicate NobodyAsks(t: Tables, p: Id, jobs: seq<Id>, now: Time, late: bool) {
    forall i :: 0 <= i < |jobs| ==> !Asks(t, p, jobs[i], now, late)
  }

  // The preview is for what the last job that asks wants.
  ghost predicate HostsLast(t: Tables, p: Id, jobs: seq<Id>, now: Time, late: bool, v: Preview) {
    exists i :: AsksLast(t, p, jobs, now, late, i) && Hosts(t, p, t.jobs[jobs[i]].spec.environment.value, now, v)
  }

  // From s on to s' a pipeline was given what its jobs ask for, the last one deciding; t are the tables by then.
  ghost predicate Hosted(s: State, s': State, t: Tables, p: Id, jobs: seq<Id>, now: Time, late: bool) {
    p in t.pipelines &&
    if !Invited(s, t.pipelines[p]) || NobodyAsks(t, p, jobs, now, late)
    then s'.previews == s.previews && s'.metrics.previewsCreated == s.metrics.previewsCreated
    else
      var key := PRKey(Lower(t.pipelines[p].repo), t.pipelines[p].pr);
      && key in s'.previews && s'.previews == s.previews[key := s'.previews[key]]
      && HostsLast(t, p, jobs, now, late, s'.previews[key])
      && s'.metrics.previewsCreated == s.metrics.previewsCreated
           + |Asking(t, p, jobs, now, late)|
  }

  // The places in the list of those that ask.
  ghost function Asking(t: Tables, p: Id, jobs: seq<Id>, now: Time, late: bool): set<int> {
    set i | 0 <= i < |jobs| && Asks(t, p, jobs[i], now, late)
  }

  lemma NewPreviewHosts(t: Tables, p: Id, e: Environment, now: Time)
    requires p in t.pipelines
    ensures Hosts(t, p, e, now, NewPreview(t, p, e, now))
  {
    BuiltImageIsBuilt(t, t.pipelines[p].jobIDs);
    hide IsBuilt, BuiltImage;
  }

  lemma ActivateHosts(s: State, p: Id, j: Id, now: Time, late: bool)
    requires p in s.tables.pipelines
    ensures var s', q := ActivateFor(s, p, j, now, late), s.tables.pipelines[p];
      var key := PRKey(Lower(q.repo), q.pr);
      if Invited(s, q) && Asks(s.tables, p, j, now, late) then
        && key in s'.previews && s'.previews == s.previews[key := s'.previews[key]]
        && Hosts(s.tables, p, s.tables.jobs[j].spec.environment.value, now, s'.previews[key])
        && s'.metrics.previewsCreated == s.metrics.previewsCreated + 1 && Invited(s', q)
        && s' == s.(previews := s'.previews, metrics := s'.metrics)
      else s' == s
  {
    if j in s.tables.jobs && s.tables.jobs[j].spec.environment.Some? {
      NewPreviewHosts(s.tables, p, s.tables.jobs[j].spec.environment.value, now);
    }
    hide NewPreview, Lower;
  }

  lemma AskingMore(t: Tables, p: Id, before: seq<Id>, j: Id, now: Time, late: bool)
    ensures Asking(t, p, before + [j], now, late)
      == Asking(t, p, before, now, late) + if Asks(t, p, j, now, late) then {|before|} else {}
    ensures |before| !in Asking(t, p, before, now, late)
    ensures NobodyAsks(t, p, before + [j], now, late) <==>
      NobodyAsks(t, p, before, now, late) && !Asks(t, p, j, now, late)
    ensures NobodyAsks(t, p, before, now, late) ==> Asking(t, p, before, now, late) == {}
    ensures Asks(t, p, j, now, late) ==> AsksLast(t, p, before + [j], now, late, |before|)
    ensures forall i :: !Asks(t, p, j, now, late) && AsksLast(t, p, before, now, late, i) ==>
      AsksLast(t, p, before + [j], now, late, i)
  {
    hide Asks;
    var jobs := before + [j];
    assert forall i :: 0 <= i < |jobs| ==> jobs[i] == if i < |before| then before[i] else j;
    if NobodyAsks(t, p, jobs, now, late) {
      assert !Asks(t, p, jobs[|before|], now, late);
      forall i | 0 <= i < |before| ensures !Asks(t, p, before[i], now, late) {
        assert !Asks(t, p, jobs[i], now, late);
      }
    }
  }

  lemma HostsLastMore(t: Tables, p: Id, before: seq<Id>, j: Id, now: Time, late: bool, v: Preview)
    requires if Asks(t, p, j, now, late) then Hosts(t, p, t.jobs[j].spec.environment.value, now, v)
             else HostsLast(t, p, before, now, late, v)
    ensures HostsLast(t, p, before + [j], now, late, v)
  {
    AskingMore(t, p, before, j, now, late);
    var jobs := before + [j];
    assert jobs[|before|] == j;
    hide Hosts;
    if !Asks(t, p, j, now, late) {
      var i :| AsksLast(t, p, before, now, late, i) && Hosts(t, p, t.jobs[before[i]].spec.environment.value, now, v);
      assert jobs[i] == before[i];
      assert AsksLast(t, p, jobs, now, late, i);
    }
  }

  // One more job that asks, or does not.
  lemma HostedMore(s: State, s1: State, s2: State, p: Id, before: seq<Id>, j: Id, now: Time, late: bool)
    requires p in s.tables.pipelines && Hosted(s, s1, s.tables, p, before, now, late)
    requires Invited(s, s.tables.pipelines[p]) <==> Invited(s1, s.tables.pipelines[p])
    requires var key := PRKey(Lower(s.tables.pipelines[p].repo), s.tables.pipelines[p].pr);
      if Invited(s1, s.tables.pipelines[p]) && Asks(s.tables, p, j, now, late) then
        && key in s2.previews && s2.previews == s1.previews[key := s2.previews[key]]
        && Hosts(s.tables, p, s.tables.jobs[j].spec.environment.value, now, s2.previews[key])
        && s2.metrics.previewsCreated == s1.metrics.previewsCreated + 1
      else s2 == s1
    ensures Hosted(s, s2, s.tables, p, before + [j], now, late)
  {
    hide Invited, Hosts, Asking, NobodyAsks, HostsLast, Asks, AsksLast, Lower;
    var t := s.tables;
    AskingMore(t, p, before, j, now, late);
    if Invited(s, t.pipelines[p]) && !NobodyAsks(t, p, before + [j], now, late) {
      var key := PRKey(Lower(t.pipelines[p].repo), t.pipelines[p].pr);
      HostsLastMore(t, p, before, j, now, late, s2.previews[key]);
      PutTwice(s.previews, s1.previews, s2.previews, key);
    }
  }

  lemma PutTwice(x: map<PRKey, Preview>, y: map<PRKey, Preview>, z: map<PRKey, Preview>, key: PRKey)
    requires key in z && (y == x || (key in y && y == x[key := y[key]])) && (z == y || z == y[key := z[key]])
    ensures z == x || z == x[key := z[key]]
    ensures z == y[key := z[key]] ==> z == x[key := z[key]]
  {
  }

  lemma {:induction false} ActivationHosts(s: State, p: Id, jobs: seq<Id>, now: Time, late: bool)
    requires p in s.tables.pipelines
    ensures var s' := ActivateJobs(s, p, jobs, now, late);
      && Hosted(s, s', s.tables, p, jobs, now, late) && s'.tables == s.tables && s'.prStates == s.prStates
      && (Invited(s, s.tables.pipelines[p]) <==> Invited(s', s.tables.pipelines[p]))
  {
    if jobs != [] {
      var before, j := jobs[..|jobs| - 1], jobs[|jobs| - 1];
      assert jobs == before + [j];
      ActivationHosts(s, p, before, now, late);
      var s1 := ActivateJobs(s, p, before, now, late);
      ActivateHosts(s1, p, j, now, late);
      hide ActivateFor, Invited, Hosts, Asks, Hosted;
      HostedMore(s, s1, ActivateJobs(s, p, jobs, now, late), p, before, j, now, late);
    }
  }

  // Only what a pipeline's pull request is known to be, and what is under its key, matters.
  lemma HostedAlike(s: State, s1: State, s': State, t: Tables, p: Id, jobs: seq<Id>, now: Time, late: bool)
    requires Hosted(s1, s', t, p, jobs, now, late) && s.previews == s1.previews && s.prStates == s1.prStates
    requires s.metrics == s1.metrics
    ensures Hosted(s, s', t, p, jobs, now, late)
  {
    hide NobodyAsks, HostsLast, Asking, Lower;
  }

  // When the last job a pipeline needed succeeds, the pipeline's preview comes up, if its pull request is open at its
  // generation and no deletion is under way; no other report touches previews.
  lemma ReportHosts(s: State, a: Id, token: string, report: Report, now: Time)
    requires Coherent(s.tables) && Held(s.tables, a, token, now)
    ensures var s', j := Finish(s, a, token, report, now), s.tables.attempts[a].jobID;
      var p := s.tables.jobs[j].pipelineID;
      p in s.tables.pipelines &&
      if report.success && LastToSucceed(s.tables, p, j)
      then Hosted(s, s', s'.tables, p, s.tables.pipelines[p].jobIDs, now, false)
      else s'.previews == s.previews && s'.metrics == s.metrics
  {
    HeldIsHeld(s.tables, a, token, now);
    SuccessSettles(s.tables, a, report, now);
    var record := CommittedRecord(s.tables.attempts[a], report, now);
    var p := s.tables.jobs[s.tables.attempts[a].jobID].pipelineID;
    var s1 := WithTables(s, Settle(s.tables, a, record));
    var s2 := WithTables(s1, UpdateTables(s1.tables, p, now));
    hide Coherent, Held, LeaseHeld, LastToSucceed, AnyFailed, AllSucceeded, ActivateJobs, Hosted, CancelJobs, Settle;
    if report.success && LastToSucceed(s.tables, p, s.tables.attempts[a].jobID) {
      ActivationHosts(s2, p, s.tables.pipelines[p].jobIDs, now, false);
      HostedAlike(s, s2, Finish(s, a, token, report, now), s2.tables, p, s.tables.pipelines[p].jobIDs, now, false);
    }
  }

  // ---- How previews are restored ----

  // The pipeline succeeded, its pull request is still open at its generation and has no preview, and some job asks
  // for one in time.
  ghost predicate Due(s: State, p: Id, now: Time) {
    && p in s.tables.pipelines && s.tables.pipelines[p].status == Succeeded && Open(s, s.tables.pipelines[p])
    && PRKey(Lower(s.tables.pipelines[p].repo), s.tables.pipelines[p].pr) !in s.previews
    && !NobodyAsks(s.tables, p, s.tables.pipelines[p].jobIDs, now, true)
  }

  // The preview is what pipeline p, which is due under that key, asks for.
  ghost predicate RestoredFor(s: State, p: Id, k: PRKey, now: Time, v: Preview) {
    && Due(s, p, now) && k == PRKey(Lower(s.tables.pipelines[p].repo), s.tables.pipelines[p].pr)
    && HostsLast(s.tables, p, s.tables.pipelines[p].jobIDs, now, true, v)
  }

  // Ranging over the pipelines listed: no preview that is there is touched, each that is new is for one of them that
  // is due, and none that is due goes without.
  ghost predicate Restored(s: State, s': State, listed: seq<Id>, now: Time) {
    && s'.tables == s.tables && s'.prStates == s.prStates
    && (forall k :: k in s.previews ==> k in s'.previews && s'.previews[k] == s.previews[k])
    && (forall k :: k in s'.previews && k !in s.previews ==>
          exists p :: p in listed && RestoredFor(s, p, k, now, s'.previews[k]))
    && (forall p :: p in listed && Due(s, p, now) ==>
          PRKey(Lower(s.tables.pipelines[p].repo), s.tables.pipelines[p].pr) in s'.previews)
  }

  lemma EnsureOneRestores(s: State, p: Id, now: Time)
    ensures Restored(s, EnsureOne(s, p, now), [p], now)
  {
    hide ActivateJobs, NobodyAsks, HostsLast, Asking, Lower;
    if Lacking(s, p) {
      ActivationHosts(s, p, s.tables.pipelines[p].jobIDs, now, true);
      hide EnsureOne, Hosted;
      HostedRestores(s, ActivateJobs(s, p, s.tables.pipelines[p].jobIDs, now, true), p, now);
    } else {
      hide Hosted, Open;
    }
  }

  lemma HostedRestores(s: State, s': State, p: Id, now: Time)
    requires p in s.tables.pipelines && s.tables.pipelines[p].status == Succeeded
    requires PRKey(Lower(s.tables.pipelines[p].repo), s.tables.pipelines[p].pr) !in s.previews
    requires Hosted(s, s', s.tables, p, s.tables.pipelines[p].jobIDs, now, true)
    requires s'.tables == s.tables && s'.prStates == s.prStates
    ensures Restored(s, s', [p], now)
  {
    hide NobodyAsks, HostsLast, Asking, Lower;
    forall k | k in s'.previews && k !in s.previews
      ensures exists q :: q in [p] && RestoredFor(s, q, k, now, s'.previews[k])
    {
      assert RestoredFor(s, p, k, now, s'.previews[k]);
    }
  }

  lemma RestoredMore(s: State, s1: State, s2: State, before: seq<Id>, p: Id, now: Time)
    requires Restored(s, s1, before, now) && Restored(s1, s2, [p], now)
    ensures Restored(s, s2, before + [p], now)
  {
    hide NobodyAsks, HostsLast, Lower;
    forall q | q in before + [p] && Due(s, q, now)
      ensures PRKey(Lower(s.tables.pipelines[q].repo), s.tables.pipelines[q].pr) in s2.previews
    {
      if q == p && PRKey(Lower(s.tables.pipelines[q].repo), s.tables.pipelines[q].pr) !in s1.previews {
        assert Due(s1, p, now);
      }
    }
    forall k | k in s2.previews && k !in s.previews
      ensures exists q :: q in before + [p] && RestoredFor(s, q, k, now, s2.previews[k])
    {
      if k in s1.previews {
        var q :| q in before && RestoredFor(s, q, k, now, s1.previews[k]);
        assert RestoredFor(s, q, k, now, s2.previews[k]);
      } else {
        assert RestoredFor(s1, p, k, now, s2.previews[k]);
        assert RestoredFor(s, p, k, now, s2.previews[k]);
      }
    }
  }

  // However the pipelines are ranged over, previews that are lacking are restored, and nothing else.
  lemma {:induction false} EnsureRestores(s: State, order: seq<Id>, now: Time)
    ensures Restored(s, Ensure(s, order, now), order, now)
  {
    if order != [] {
      var before, p := order[..|order| - 1], order[|order| - 1];
      assert order == before + [p];
      EnsureRestores(s, before, now);
      var s1 := Ensure(s, before, now);
      EnsureOneRestores(s1, p, now);
      hide EnsureOne, Restored;
      RestoredMore(s, s1, EnsureOne(s1, p, now), before, p, now);
    }
  }

  // ---- How previews age and go ----

  // Its time is up.
  predicate Overdue(v: Preview, now: Time) {
    v.desired == Active && v.expiresAt != 0 && now >= v.expiresAt
  }

  // It is to be deleted, from now at the latest, and its deletion was observed.
  predicate Leaves(v: Preview, now: Time) {
    (v.desired == Deleting || Overdue(v, now)) && v.actual == Deleted
  }

  // The pipeline is over, old enough, and owns no preview.
  ghost predicate Outdated(t: Tables, previews: map<PRKey, Preview>, retention: int, p: Id, now: Time) {
    && p in t.pipelines && now - t.pipelines[p].createdAt >= retention
    && (t.pipelines[p].status == Succeeded || t.pipelines[p].status == Failed || t.pipelines[p].status == Cancelled
        || t.pipelines[p].status == Lost)
    && forall k :: k in previews ==> previews[k].pipelineID != p
  }

  // Previews whose time is up are to be deleted, at a generation of their own; those to be deleted whose deletion was
  // observed go; all others stay as they are.
  ghost predicate Ages(x: map<PRKey, Preview>, y: map<PRKey, Preview>, now: Time) {
    && (forall k :: k in y <==> k in x && !Leaves(x[k], now))
    && (forall k :: k in y ==>
          y[k] == if Overdue(x[k], now)
                  then x[k].(desired := Deleting, updatedAt := now, generation := x[k].generation + 1) else x[k])
  }

  // What a reconciliation does besides the tables: previews age, and leases that were taken back and previews that
  // went are counted.
  lemma ReconcileAges(s: State, order: seq<Id>, now: Time)
    ensures var s' := Reconcile(s, order, now);
      && Ages(s.previews, s'.previews, now)
      && s' == s.(tables := s'.tables, previews := s'.previews, metrics := s.metrics.(
           leasesExpired := s.metrics.leasesExpired + Swept(s.tables, order, now),
           previewsDeleted := s.metrics.previewsDeleted + |s.previews.Keys - s'.previews.Keys|))
  {
    hide Ages, AgePreviews, SweepState, Prune, Swept;
    SweepIsCounted(s, order, now);
    AgingAges(SweepState(s, order, now), now);
    PruneLeaves(AgePreviews(SweepState(s, order, now), now), now);
  }

  lemma SweepIsCounted(s: State, order: seq<Id>, now: Time)
    ensures var s' := SweepState(s, order, now);
      s' == s.(tables := s'.tables, metrics := s.metrics.(
        leasesExpired := s.metrics.leasesExpired + Swept(s.tables, order, now)))
  {
    hide Sweep, Swept;
  }

  lemma PruneLeaves(s: State, now: Time)
    ensures Prune(s, now) == s.(tables := Prune(s, now).tables)
  {
    hide Drop, Prunable;
  }

  lemma AgedReads(v: Preview, now: Time)
    ensures Removable(Aged(v, now)) <==> Leaves(v, now)
    ensures Aged(v, now) == if Overdue(v, now)
                            then v.(desired := Deleting, updatedAt := now, generation := v.generation + 1) else v
  {
  }

  lemma KeptAge(s: State, now: Time)
    ensures Ages(s.previews, KeptPreviews(s, now).previews, now)
  {
    hide Aged, Removable, Leaves, Overdue;
    forall k | k in s.previews
      ensures Removable(Aged(s.previews[k], now)) <==> Leaves(s.previews[k], now)
      ensures Aged(s.previews[k], now) ==
        if Overdue(s.previews[k], now)
        then s.previews[k].(desired := Deleting, updatedAt := now, generation := s.previews[k].generation + 1)
        else s.previews[k]
    {
      AgedReads(s.previews[k], now);
    }
  }

  lemma GoneAreNotKept(s: State, now: Time)
    ensures Gone(s, now) == s.previews.Keys - KeptPreviews(s, now).previews.Keys
  {
    hide Aged, Removable;
  }

  lemma AgingAges(s: State, now: Time)
    ensures var s' := AgePreviews(s, now);
      && Ages(s.previews, s'.previews, now)
      && s' == s.(previews := s'.previews, metrics := s.metrics.(
           previewsDeleted := s.metrics.previewsDeleted + |s.previews.Keys - s'.previews.Keys|))
  {
    KeptAge(s, now);
    GoneAreNotKept(s, now);
    assert KeptPreviews(s, now) == s.(previews := KeptPreviews(s, now).previews);
    hide Ages, Gone, KeptPreviews;
  }

  // And every pipeline that is over, old enough and owns none of the previews that are left goes, with its jobs and
  // their attempts; all other records stay as the sweep left them.
  lemma ReconcilePrunes(s: State, order: seq<Id>, now: Time)
    requires Coherent(s.tables)
    ensures var s', t := Reconcile(s, order, now), Sweep(s.tables, order, now);
      var t' := s'.tables;
      && (forall p :: p in t'.pipelines <==>
            p in t.pipelines && !Outdated(t, s'.previews, s.config.retention, p, now))
      && (forall j :: j in t'.jobs <==> j in t.jobs && t.jobs[j].pipelineID in t'.pipelines)
      && (forall a :: a in t'.attempts <==> a in t.attempts && t.attempts[a].jobID in t'.jobs)
      && (forall p :: p in t'.pipelines ==> t'.pipelines[p] == t.pipelines[p])
      && (forall j :: j in t'.jobs ==> t'.jobs[j] == t.jobs[j])
      && (forall a :: a in t'.attempts ==> t'.attempts[a] == t.attempts[a])
      && t'.tally == t.tally && t'.sequence == t.sequence && t'.issued == t.issued
  {
    SweepKeeps(s.tables, order, now);
    var t := Sweep(s.tables, order, now);
    forall j | j in t.jobs ensures t.jobs[j].pipelineID in t.pipelines {
      assert JobRefs(t, j);
    }
    forall a | a in t.attempts ensures t.attempts[a].jobID in t.jobs {
      assert AttemptRefs(t, a);
    }
    hide Sweep, Swept, Coherent, Aged, Removable, Gone;
  }

  // ---- How previews are observed ----

  // An observation of the preview as it is wanted now is recorded; any other changes nothing, and is answered that
  // there is no such preview or that it is not this one.
  lemma ObservationIsRecorded(s: State, p: Preview, actual: Status, url: string, lastError: string)
    ensures var x, key := s.previews, PRKey(Lower(p.repo), p.pr);
      var current := key in x && x[key].generation == p.generation && x[key].pipelineID == p.pipelineID
        && x[key].desired == p.desired;
      && ObserveAnswer(s, p) == (if key !in x then Some(NotFound) else if current then None else Some(Conflict))
      && Observe(s, p, actual, url, lastError) ==
           if current then s.(previews := x[key := x[key].(actual := actual, url := url, lastError := lastError)])
           else s
  {
    hide Lower;
  }
}
