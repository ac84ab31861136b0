// internal/control: the store itself. Every method is one atomic step on maps it updates in place, and is
// proved against the transition of the same name in Model.

module Control {
  import opened Domain
  import opened Ordering
  import opened TableModel
  import opened Model
  import opened Coherence
  import opened Steps
  import opened Capacity
  import opened Soundness
  import opened Counters
  import opened Fairness
  import opened Confluence
  import opened Evolution
  import opened Requests
  import opened Expiry
  import opened Renewal
  import opened Placement
  import Admission
  import Planner

  // A job as the scheduler lists it.
  datatype Entry = Entry(id: Id, job: Job)

  class Store {
    const config: Config
    var pipelines: map<Id, Pipeline>
    var jobs: map<Id, Job>
    var attempts: map<Id, Attempt>
    var workers: map<Id, Worker>
    var previews: map<PRKey, Preview>
    var deliveries: map<string, Id>
    var requestHashes: map<string, Submission>
    var prStates: map<PRKey, PRState>
    var lastTenant: string
    var sequence: nat
    var tally: Tally
    var metrics: Metrics
    ghost var issued: set<Id>

    ghost function Records(): Tables
      reads this
    {
      Tables(pipelines, jobs, attempts, tally, sequence, issued)
    }

    ghost function Whole(): State
      reads this
    {
      State(config, Records(), workers, previews, Inbox(deliveries, requestHashes), prStates, lastTenant, metrics)
    }

    ghost predicate Valid()
      reads this
    {
      Sound(Whole())
    }

    // ---- Counting ----

    method QueuedCount() returns (n: nat)
      ensures n == |Unfinished(Records())|
    {
      n := 0;
      var todo := jobs.Keys;
      ghost var unfinished := Unfinished(Records());
      CountingStarts(unfinished, jobs.Keys);
      hide Counting;
      while todo != {}
        invariant Counting(unfinished, jobs.Keys, todo, n)
        decreases todo
      {
        var j :| j in todo;
        CountingGoesOn(unfinished, jobs.Keys, todo, n, j);
        if !IsTerminal(jobs[j].status) {
          n := n + 1;
        }
        todo := todo - {j};
      }
      CountingDone(unfinished, jobs.Keys, n);
    }

    method ActiveForTenant(tenant: string) returns (n: nat)
      ensures n == |ActiveJobs(Records(), tenant)|
    {
      n := 0;
      var todo := jobs.Keys;
      ghost var active := ActiveJobs(Records(), tenant);
      CountingStarts(active, jobs.Keys);
      hide Counting;
      while todo != {}
        invariant Counting(active, jobs.Keys, todo, n)
        decreases todo
      {
        var j :| j in todo;
        CountingGoesOn(active, jobs.Keys, todo, n, j);
        if jobs[j].tenant == tenant && IsActive(jobs[j].status) {
          n := n + 1;
        }
        todo := todo - {j};
      }
      CountingDone(active, jobs.Keys, n);
    }

    method ActiveForWorker(worker: Id) returns (n: nat)
      requires worker != ""
      ensures n == |ActiveAttempts(Records(), "", worker)|
    {
      n := 0;
      var todo := attempts.Keys;
      ghost var active := ActiveAttempts(Records(), "", worker);
      CountingStarts(active, attempts.Keys);
      hide Counting;
      while todo != {}
        invariant Counting(active, attempts.Keys, todo, n)
        decreases todo
      {
        var a :| a in todo;
        CountingGoesOn(active, attempts.Keys, todo, n, a);
        if attempts[a].workerID == worker && IsActive(attempts[a].status) {
          n := n + 1;
        }
        todo := todo - {a};
      }
      CountingDone(active, attempts.Keys, n);
    }

    method UsedResources(tenant: string, worker: Id) returns (used: Resources)
      requires Coherent(Records())
      ensures used == Used(Records(), tenant, worker)
    {
      used := Resources(0, 0);
      var todo := attempts.Keys;
      ghost var t := Records();
      ghost var active := ActiveAttempts(t, tenant, worker);
      while todo != {}
        invariant todo <= attempts.Keys && used == Total(t, active * (attempts.Keys - todo))
        decreases todo
      {
        var a :| a in todo;
        assert AttemptRefs(t, a);
        SplitTotal(t, active, attempts.Keys, todo, a);
        if IsActive(attempts[a].status) {
          var job := jobs[attempts[a].jobID];
          if (tenant == "" || tenant == job.tenant) && (worker == "" || worker == attempts[a].workerID) {
            used := Resources(used.cpu + job.spec.resources.cpu, used.memory + job.spec.resources.memory);
          }
        }
        todo := todo - {a};
      }
      assert active * (attempts.Keys - {}) == active;
    }

    // ---- What can run, and where ----

    method DependenciesSucceeded(j: Id) returns (ok: bool)
      requires Coherent(Records()) && j in jobs
      ensures ok <==> NeedsMet(Records(), j)
    {
      var needs := jobs[j].spec.needs;
      if |needs| == 0 {
        return true;
      }
      ghost var t := Records();
      assert JobRefs(t, j);
      var p := jobs[j].pipelineID;
      var states := StatesByName(p);
      for i := 0 to |needs|
        invariant forall k :: 0 <= k < i ==> NeedMet(t, p, needs[k])
      {
        if !(needs[i] in states && states[needs[i]] == Succeeded) {
          assert needs[i] in needs && !NeedMet(t, p, needs[i]);
          return false;
        }
      }
      ok := true;
    }

    // The statuses of a pipeline's jobs by name.
    method StatesByName(p: Id) returns (states: map<string, Status>)
      requires Coherent(Records()) && p in pipelines
      ensures forall name :: (name in states && states[name] == Succeeded) <==> NeedMet(Records(), p, name)
    {
      var ids := pipelines[p].jobIDs;
      ghost var t := Records();
      states := map[];
      NamingStarts(t, p);
      hide Naming, NeedMet;
      for i := 0 to |ids|
        invariant Naming(t, p, i, states)
      {
        NamingGoesOn(t, p, i, states);
        states := states[jobs[ids[i]].name := jobs[ids[i]].status];
      }
      NamingDone(t, p, states);
    }

    method SelectWorker(spec: JobSpec, now: Time) returns (worker: Option<Id>)
      requires Valid()
      ensures worker.Some? ==> Eligible(Whole(), worker.value, spec, now)
      ensures worker.Some? ==> forall v :: Eligible(Whole(), v, spec, now) && v != worker.value ==>
        Less(worker.value, v)
      ensures worker.None? ==> forall v :: !Eligible(Whole(), v, spec, now)
      ensures worker.Some? <==> exists v :: Suits(Whole(), v, spec, now) && HasRoom(Whole(), v, spec)
      ensures worker.Some? ==> Suits(Whole(), worker.value, spec, now) && HasRoom(Whole(), worker.value, spec)
    {
      hide Suits, HasRoom;
      var keys := ListKeys(workers.Keys);
      var ids := SortStrings(keys);
      ghost var s := Whole();
      for i := 0 to |ids|
        invariant forall k :: 0 <= k < i ==> !Eligible(s, ids[k], spec, now)
      {
        var id := ids[i];
        assert id in ids;
        var w := workers[id];
        var active := ActiveForWorker(id);
        if now - w.heartbeat > config.workerTTL || active >= w.capacity {
          continue;
        }
        if spec.trusted != w.trusted {
          continue;
        }
        var used := UsedResources("", id);
        if w.resources.cpu > 0 && used.cpu + spec.resources.cpu > w.resources.cpu {
          continue;
        }
        if w.resources.memory > 0 && used.memory + spec.resources.memory > w.resources.memory {
          continue;
        }
        var matched := HasAll(w.capabilities, spec.capabilities);
        if matched {
          assert Eligible(s, id, spec, now);
          forall v | Eligible(s, v, spec, now) && v != id ensures Less(id, v) {
            assert v in ids;
          }
          ChoiceReads(s, Some(id), spec, now);
          return Some(id);
        }
      }
      forall v ensures !Eligible(s, v, spec, now) {
        assert v in s.workers ==> v in ids;
      }
      ChoiceReads(s, None, spec, now);
      worker := None;
    }

    method TenantLimitOf(tenant: string) returns (limit: int)
      ensures limit == TenantLimit(config, tenant)
    {
      if tenant in config.tenantLimits && config.tenantLimits[tenant] > 0 {
        return config.tenantLimits[tenant];
      }
      limit := config.defaultTenantLimit;
    }

    // The runnable jobs of every tenant that has any, first those that are to go first.
    method RunnableJobs() returns (byTenant: map<string, seq<Entry>>)
      requires Coherent(Records())
      ensures forall tenant :: tenant in byTenant ==>
        Lists(Records(), byTenant[tenant], tenant) && byTenant[tenant] != []
      ensures forall j :: Runnable(Records(), j) ==> jobs[j].tenant in byTenant
    {
      byTenant := map[];
      var todo := jobs.Keys;
      ghost var t := Records();
      ListingStarts(t);
      hide Listing, Coherent, Lists;
      while todo != {}
        invariant todo <= jobs.Keys && Listing(t, byTenant, todo)
        decreases todo
      {
        var j :| j in todo;
        var runs := false;
        if jobs[j].status == Queued {
          runs := DependenciesSucceeded(j);
        }
        ListingGoesOn(t, byTenant, todo, j);
        if runs {
          byTenant := Enlisted(byTenant, j, jobs[j]);
        }
        todo := todo - {j};
      }
      ListingDone(t, byTenant);
      byTenant := SortEach(t, byTenant);
    }

    method SortEach(ghost t: Tables, lists: map<string, seq<Entry>>) returns (sorted: map<string, seq<Entry>>)
      requires forall tenant :: tenant in lists ==>
        ListsSome(t, lists[tenant], tenant, t.jobs.Keys) && lists[tenant] != []
      ensures sorted.Keys == lists.Keys
      ensures forall tenant :: tenant in sorted ==> Lists(t, sorted[tenant], tenant) && sorted[tenant] != []
    {
      sorted := lists;
      var todo := lists.Keys;
      EntryOrderIsWeak();
      hide Lists, ListsSome, EntryBefore, Sorting, WeakOrder;
      SortingStarts(t, lists);
      while todo != {}
        invariant Sorting(t, lists, sorted, todo)
        decreases todo
      {
        var tenant :| tenant in todo;
        SortingAt(t, lists, sorted, todo, tenant);
        var list := SortBy(lists[tenant], EntryBefore);
        SortingGoesOn(t, lists, sorted, todo, tenant, list);
        sorted := sorted[tenant := list];
        todo := todo - {tenant};
      }
      SortingDone(t, lists, sorted);
    }

    // ---- Cancelling ----

    method CancelAttempts(ids: seq<Id>, now: Time)
      requires forall a :: a in ids ==> a in attempts
      modifies this`attempts
      ensures CancelsIn(old(attempts), attempts, ids, now)
    {
      assert ids[..0] == [];
      for i := 0 to |ids|
        invariant CancelsIn(old(attempts), attempts, ids[..i], now)
      {
        assert ids[..i + 1] == ids[..i] + [ids[i]];
        assert ids[i] in ids;
        if IsActive(attempts[ids[i]].status) {
          attempts := attempts[ids[i] := CancelledRecord(attempts[ids[i]], now)];
        }
      }
      assert ids[..|ids|] == ids;
    }

    method CancelJobRecord(j: Id, now: Time, ghost t: Tables, ghost done: set<Id>)
      requires Refs(t) && j in t.jobs && j !in done && !IsTerminal(t.jobs[j].status)
      requires CancelledSet(t, Records(), done, now)
      modifies this`jobs, this`attempts, this`tally
      ensures CancelledSet(t, Records(), done + {j}, now)
    {
      hide Refs, CancelledSet, CancelsIn;
      ghost var before := Records();
      StillListed(t, before, done, j, now);
      jobs := jobs[j := jobs[j].(status := Cancelled)];
      tally := tally.(cancelled := tally.cancelled + 1);
      CancelAttempts(jobs[j].attemptIDs, now);
      CancelledOneMore(t, before, Records(), done, j, now);
    }

    // Every unfinished job of the pipeline, and its running attempt, becomes CANCELLED.
    method CancelUnfinished(p: Id, now: Time)
      requires Refs(Records()) && p in pipelines
      modifies this`jobs, this`attempts, this`tally
      ensures Records() == CancelJobs(old(Records()), {p}, now)
    {
      var ids := pipelines[p].jobIDs;
      ghost var t := Records();
      NothingPending(t, ids, now);
      hide Refs, CancelledAttempts, PendingOf, CancelJobs;
      for i := 0 to |ids|
        invariant CancelledSet(t, Records(), PendingOf(t, ids[..i]), now)
      {
        PendingMore(t, p, i);
        if !IsTerminal(jobs[ids[i]].status) {
          CancelJobRecord(ids[i], now, t, PendingOf(t, ids[..i]));
        }
      }
      assert ids[..|ids|] == ids;
      CancelledAll(t, Records(), p, now);
    }

    method TombstonePreview(key: PRKey, now: Time)
      modifies this`previews
      ensures Whole() == Tombstone(old(Whole()), key, now)
    {
      if key in previews && previews[key].desired != Deleting {
        previews := previews[key := previews[key].(desired := Deleting, generation := previews[key].generation + 1,
                                                   updatedAt := now)];
      }
    }

    method CancelPipeline(p: Id, now: Time)
      requires Refs(Records()) && p in pipelines
      modifies this`pipelines, this`jobs, this`attempts, this`tally, this`previews
      ensures Whole() == CancelOne(old(Whole()), p, now)
    {
      var pipeline := pipelines[p];
      hide Refs, CancelPipelines, WithTables, KeyOf, Tombstone;
      StopPipeline(p, now);
      if pipeline.pr > 0 {
        KeyIs(pipeline);
        TombstonePreview(PreviewKey(pipeline.repo, pipeline.pr), now);
      }
    }

    method StopPipeline(p: Id, now: Time)
      requires Refs(Records()) && p in pipelines
      modifies this`pipelines, this`jobs, this`attempts, this`tally
      ensures Whole() == WithTables(old(Whole()), CancelPipelines(old(Records()), {p}, now))
    {
      MarkOne(Records(), p);
      hide Refs, CancelJobs, MarkCancelled;
      pipelines := pipelines[p := pipelines[p].(status := Cancelled)];
      CancelUnfinished(p, now);
    }

    // ---- Previews ----

    // The image the last build of the pipeline published.
    method PublishedImage(p: Id) returns (image: string)
      requires Refs(Records()) && p in pipelines
      ensures image == BuiltImage(Records(), pipelines[p].jobIDs)
    {
      image := "";
      var ids := pipelines[p].jobIDs;
      ghost var t := Records();
      assert PipelineRefs(t, p);
      for i := 0 to |ids|
        invariant image == BuiltImage(t, ids[..i])
      {
        assert ids[..i + 1][..i] == ids[..i];
        assert Has(t, p, ids[i]) && JobRefs(t, ids[i]);
        var job := jobs[ids[i]];
        if job.spec.buildkit.Some? && |job.attemptIDs| > 0 {
          var last := attempts[job.attemptIDs[|job.attemptIDs| - 1]];
          if last.digest != "" {
            image := BeforeAt(job.spec.buildkit.value.destination) + "@" + last.digest;
          }
        }
      }
      assert ids[..|ids|] == ids;
    }

    method BuildPreview(p: Id, e: Environment, now: Time) returns (v: Preview)
      requires Refs(Records()) && p in pipelines
      ensures v == NewPreview(Records(), p, e, now)
    {
      var pipeline := pipelines[p];
      var ttl := e.ttlMinutes * MINUTE;
      if ttl <= 0 {
        ttl := 24 * 60 * MINUTE;
      }
      var image := e.image;
      if image == "" {
        image := PublishedImage(p);
      }
      var port := if e.port == 0 then 8080 else e.port;
      var path := if e.healthPath == "" then "/" else e.healthPath;
      v := Preview(pipeline.repo, pipeline.pr, "", pipeline.generation, Active, Pending, now + ttl, now,
                   pipeline.tenant, p, image, port, path, "", e.exposure);
    }

    method ActivatePreview(p: Id, e: Environment, now: Time)
      requires Refs(Records()) && p in pipelines
      modifies this`previews, this`metrics
      ensures Whole() == Activate(old(Whole()), p, e, now)
    {
      hide NewPreview, Refs;
      var pipeline := pipelines[p];
      if pipeline.pr <= 0 {
        return;
      }
      var key := PreviewKey(pipeline.repo, pipeline.pr);
      if key in prStates && (prStates[key].closed || prStates[key].generation != pipeline.generation) {
        return;
      }
      if key in previews && previews[key].desired == Deleting {
        return;
      }
      var v := BuildPreview(p, e, now);
      previews := previews[key := v];
      metrics := metrics.(previewsCreated := metrics.previewsCreated + 1);
    }

    // Activates what the jobs of the pipeline ask for.
    method ActivateWanted(p: Id, late: bool, now: Time)
      requires Refs(Records()) && p in pipelines
      modifies this`previews, this`metrics
      ensures Whole() == ActivateJobs(old(Whole()), p, old(pipelines[p].jobIDs), now, late)
    {
      var ids := pipelines[p].jobIDs;
      ghost var s := Whole();
      ListedJobs(s.tables, p);
      hide Activate, ActivateFor, ActivateJobs, Refs;
      ActivateNone(s, p, ids, now, late);
      for i := 0 to |ids|
        invariant Whole() == ActivateJobs(s, p, ids[..i], now, late) && Records() == s.tables
      {
        ActivateMore(s, p, ids, i, now, late);
        ActivateWantedBy(p, ids[i], late, now);
      }
      assert ids[..|ids|] == ids;
    }

    method ActivateWantedBy(p: Id, j: Id, late: bool, now: Time)
      requires Refs(Records()) && p in pipelines && j in jobs
      modifies this`previews, this`metrics
      ensures Whole() == ActivateFor(old(Whole()), p, j, now, late)
    {
      hide Activate, Refs;
      var wanted := jobs[j].spec.environment;
      if wanted.Some? && (!late || now < pipelines[p].createdAt + wanted.value.ttlMinutes * MINUTE) {
        ActivatePreview(p, wanted.value, now);
      }
    }

    // ---- Completing ----

    method UpdatePipeline(p: Id, now: Time)
      requires Refs(Records()) && p in pipelines
      modifies this`pipelines, this`jobs, this`attempts, this`tally, this`previews, this`metrics
      ensures Whole() == Model.UpdatePipeline(old(Whole()), p, now)
    {
      var ids := pipelines[p].jobIDs;
      ghost var s := Whole();
      var allSucceeded := true;
      ScanStarts(s.tables, p);
      UpdateCases(s, p, now);
      hide Refs, Scanned, AnyFailed, AllSucceeded, CancelJobs, Model.UpdatePipeline;
      for i := 0 to |ids|
        invariant Whole() == s && Scanned(s.tables, p, i, allSucceeded)
      {
        ScanGoesOn(s.tables, p, i, allSucceeded);
        if jobs[ids[i]].status == Failed {
          FailPipeline(p, now);
          return;
        }
        if jobs[ids[i]].status != Succeeded {
          allSucceeded := false;
        }
      }
      Verdict(s.tables, p, allSucceeded);
      if allSucceeded {
        CompletePipeline(p, now);
      } else {
        pipelines := pipelines[p := pipelines[p].(status := Running)];
      }
    }

    method FailPipeline(p: Id, now: Time)
      requires Refs(Records()) && p in pipelines
      modifies this`pipelines, this`jobs, this`attempts, this`tally
      ensures Whole() == WithTables(old(Whole()), CancelJobs(WithStatus(old(Records()), p, Failed), {p}, now))
    {
      StatusKeepsRefs(Records(), p, Failed);
      hide Refs, CancelJobs;
      pipelines := pipelines[p := pipelines[p].(status := Failed)];
      CancelUnfinished(p, now);
    }

    method CompletePipeline(p: Id, now: Time)
      requires Refs(Records()) && p in pipelines
      modifies this`pipelines, this`previews, this`metrics
      ensures var s' := WithTables(old(Whole()), WithStatus(old(Records()), p, Succeeded));
        Whole() == ActivateJobs(s', p, old(pipelines)[p].jobIDs, now, false)
    {
      StatusKeepsRefs(Records(), p, Succeeded);
      hide Refs;
      pipelines := pipelines[p := pipelines[p].(status := Succeeded)];
      ActivateWanted(p, false, now);
    }

    // ---- Expiry ----

    // Timed out, or attempted often enough: the job fails, and with it its pipeline.
    method FailAttempt(a: Id, now: Time)
      requires Coherent(Records()) && a in attempts && IsActive(attempts[a].status)
      modifies this`pipelines, this`jobs, this`attempts, this`tally, this`previews, this`metrics
      ensures Located(old(Records()), a)
      ensures Whole() == WithTables(old(Whole()),
                                    Complete(old(Records()), a, ExhaustedRecord(old(attempts[a]), now), now))
    {
      ghost var s := Whole();
      var record := attempts[a].(status := Failed, completedAt := now, message := EXHAUSTED);
      ActiveIsLast(s.tables, a);
      hide Coherent, Commit, Complete;
      CommitResult(a, record, now);
      ExhaustionOnlyMovesTables(s, a, record, now);
    }

    // One round of the sweep.
    method ExpireAttempt(a: Id, now: Time) returns (expired: bool)
      requires Coherent(Records()) && a in attempts
      modifies this`pipelines, this`jobs, this`attempts, this`tally, this`previews, this`metrics
      ensures expired <==> Expired(old(Records()), a, now)
      ensures Whole() == WithTables(old(Whole()), SweepOne(old(Records()), a, now))
    {
      LocateAttempt(Records(), a);
      hide Coherent, Complete, Lose;
      var attempt := attempts[a];
      var job := jobs[attempt.jobID];
      var timedOut := now - attempt.createdAt >= JobTimeout(job.spec);
      if !IsActive(attempt.status) || (now < attempt.leaseExpires && !timedOut) {
        return false;
      }
      expired := true;
      var limit := job.spec.maxAttempts;
      if limit <= 0 {
        limit := 3;
      }
      if timedOut || attempt.number >= limit {
        FailAttempt(a, now);
      } else {
        LoseLease(a, now);
      }
    }

    // The lease lapsed, and the job may be attempted again.
    method LoseLease(a: Id, now: Time)
      requires Located(Records(), a)
      modifies this`jobs, this`attempts
      ensures Whole() == WithTables(old(Whole()), Lose(old(Records()), a, now))
    {
      var attempt := attempts[a];
      var job := jobs[attempt.jobID];
      attempts := attempts[a := attempt.(status := Lost, completedAt := now)];
      if !IsTerminal(job.status) {
        jobs := jobs[attempt.jobID := job.(status := Queued)];
      }
    }

    method ReconcileExpired(now: Time) returns (count: nat, ghost order: seq<Id>)
      requires Valid()
      modifies this`pipelines, this`jobs, this`attempts, this`tally, this`previews, this`metrics
      ensures Enumerates(order, old(attempts.Keys))
      ensures Whole() == SweepState(old(Whole()), order, now) && Valid()
      ensures count == Swept(old(Records()), order, now)
      ensures PipelinesFail(old(Records()), Records(), now) && LeasesGoBack(old(Records()), Records(), now)
    {
      count, order := 0, [];
      ghost var s := Whole();
      var todo := attempts.Keys;
      SweepingStarts(s, now);
      hide Sweeping, Sound;
      while todo != {}
        invariant Sweeping(s, Whole(), order, todo, count, now)
        decreases todo
      {
        var a :| a in todo;
        SweepingAt(s, Whole(), order, todo, count, a, now);
        hide Coherent, SweepOne, Expired, WithTables, CountSwept;
        SweepingGoesOn(s, Whole(), order, todo, count, a, now);
        var expired := ExpireAttempt(a, now);
        if expired {
          count := count + 1;
          CountExpiry();
        }
        order := order + [a];
        todo := todo - {a};
      }
      SweepingDone(s, Whole(), order, count, now);
      hide PipelinesFail, LeasesGoBack;
      SweepReads(s, order, now);
    }

    method CountExpiry()
      modifies this`metrics
      ensures Whole() == CountSwept(old(Whole()), 1)
    {
      metrics := metrics.(leasesExpired := metrics.leasesExpired + 1);
    }

    // ---- Granting a lease ----

    // Where the next round starts: behind the tenant that was served last.
    method FirstTurn(tenants: seq<string>) returns (start: nat)
      requires forall i, k :: 0 <= i < k < |tenants| ==> Less(tenants[i], tenants[k])
      ensures StartsBehind(tenants, lastTenant, start) && start <= |tenants|
    {
      start := 0;
      if lastTenant != "" {
        LessIsStrictTotalOrder();
        start := SearchStrings(tenants, lastTenant);
        if start < |tenants| && tenants[start] == lastTenant {
          start := start + 1;
        }
        if start >= |tenants| {
          start := 0;
        }
      }
    }

    // A worker for one listed job, if its tenant's quota leaves room for it.
    method TryJob(e: Entry, tenant: string, now: Time) returns (worker: Option<Id>)
      requires Valid() && IsEntry(Records(), e, tenant) && |ActiveJobs(Records(), tenant)| < TenantLimit(config, tenant)
      ensures worker.Some? ==> Placeable(Whole(), e.id, now) && FirstEligible(Whole(), worker.value, e.job.spec, now)
      ensures worker.None? ==> !Placeable(Whole(), e.id, now)
    {
      ghost var s := Whole();
      hide Placeable, Used, ActiveJobs, Eligible, TenantLimit, Runnable;
      var used := UsedResources(tenant, "");
      if used.cpu + e.job.spec.resources.cpu > config.tenantCPU
        || used.memory + e.job.spec.resources.memory > config.tenantMemory {
        CannotPlace(s, e, tenant, now);
        return None;
      }
      worker := SelectWorker(e.job.spec, now);
      assert Whole() == s;
      if worker.Some? {
        CanPlace(s, e, tenant, worker.value, now);
      } else {
        NoWorkerTakes(s, e, tenant, now);
      }
    }

    // The first job of one tenant that fits its quota and some worker.
    method PickJob(list: seq<Entry>, tenant: string, now: Time) returns (i: nat, worker: Option<Id>)
      requires Valid() && Lists(Records(), list, tenant)
      requires |ActiveJobs(Records(), tenant)| < TenantLimit(config, tenant)
      ensures worker.Some? ==> i < |list| && Placeable(Whole(), list[i].id, now)
      ensures worker.Some? ==> FirstEligible(Whole(), worker.value, list[i].job.spec, now)
      ensures worker.Some? ==> forall k :: 0 <= k < i ==> !Placeable(Whole(), list[k].id, now)
      ensures worker.None? ==> forall k :: 0 <= k < |list| ==> !Placeable(Whole(), list[k].id, now)
    {
      hide Placeable, FirstEligible, ActiveJobs, Sound, TenantLimit;
      i := 0;
      ghost var s := Whole();
      while i < |list|
        invariant i <= |list| && forall k :: 0 <= k < i ==> !Placeable(s, list[k].id, now)
      {
        assert IsEntry(s.tables, list[i], tenant);
        worker := TryJob(list[i], tenant, now);
        if worker.Some? {
          return;
        }
        i := i + 1;
      }
      worker := None;
    }

    method RecordLease(j: Id, worker: Id, a: Id, token: string, now: Time)
      requires j in jobs && jobs[j].pipelineID in pipelines
      modifies this`pipelines, this`jobs, this`attempts, this`issued
      ensures Records() == Lease(old(Records()), j, worker, a, token, config.leaseTTL, now)
    {
      var job := jobs[j];
      var attempt := Attempt(j, |job.attemptIDs| + 1, worker, token, now + config.leaseTTL, Leased, now, 0, 0,
                             "", "", "", []);
      jobs := jobs[j := job.(attemptIDs := job.attemptIDs + [a], status := Leased)];
      attempts := attempts[a := attempt];
      pipelines := pipelines[job.pipelineID := pipelines[job.pipelineID].(status := Running)];
      issued := issued + {a};
    }

    method GrantLease(j: Id, worker: Id, a: Id, token: string, now: Time)
      requires j in jobs && jobs[j].pipelineID in pipelines
      modifies this`pipelines, this`jobs, this`attempts, this`lastTenant, this`metrics, this`issued
      ensures Whole() == Place(old(Whole()), Some(Grant(j, worker)), a, token, now)
    {
      hide Lease;
      var tenant := jobs[j].tenant;
      RecordLease(j, worker, a, token, now);
      lastTenant := tenant;
      metrics := metrics.(leasesIssued := metrics.leasesIssued + 1);
    }

    // The grant of one tenant, if it may have one.
    method TryTenant(list: seq<Entry>, tenant: string, now: Time) returns (grant: Option<Grant>)
      requires Valid() && Lists(Records(), list, tenant)
      ensures grant.Some? ==> FirstOfTenant(Whole(), tenant, grant.value, now)
      ensures grant.None? ==> NoneOf(Whole(), tenant, now)
    {
      ghost var s := Whole();
      hide Placeable, ActiveJobs, TenantLimit, Lists;
      var active := ActiveForTenant(tenant);
      var limit := TenantLimitOf(tenant);
      if active >= limit {
        QuotaReached(s, tenant, now);
        return None;
      }
      var i, worker := PickJob(list, tenant, now);
      if worker.Some? {
        FirstPicked(s, list, tenant, i, worker.value, now);
        return Some(Grant(list[i].id, worker.value));
      }
      NothingInList(s, list, tenant, now);
      grant := None;
    }

    method ChooseGrant(now: Time) returns (grant: Option<Grant>)
      requires Valid()
      ensures GrantFits(Whole(), grant, now)
    {
      hide Placeable, Lists, Coherent, Numbered, Bounded, StartsBehind, NoneOf, FirstOfTenant, IsGrant, AllPassed,
           Turns;
      ghost var s := Whole();
      var byTenant := RunnableJobs();
      var keys := ListKeys(byTenant.Keys);
      var tenants := SortStrings(keys);
      var start := FirstTurn(tenants);
      TurnsListed(s, byTenant, tenants, start, now);
      hide Sound, Less, TenantAt;
      for offset := 0 to |tenants|
        invariant AllPassed(s, tenants, start, offset, now)
      {
        TurnOfTenant(s, byTenant, tenants, start, offset, now);
        var tenant := tenants[(start + offset) % |tenants|];
        grant := TryTenant(byTenant[tenant], tenant, now);
        if grant.Some? {
          TurnFound(s, byTenant, tenants, start, offset, grant.value, now);
          return;
        }
        PassedOn(s, tenants, start, offset, now);
      }
      NothingToGrant(s, byTenant, tenants, start, now);
      grant := None;
    }

    // One scheduling round. The token and the attempt's identifier are the next ones of their supplies.
    method ScheduleOne(a: Id, token: string, now: Time)
      returns (lease: Result<AttemptLease, Error>, ghost order: seq<Id>, ghost grant: Option<Grant>)
      requires Valid() && a !in issued && a != ""
      modifies this
      ensures Enabled(old(Whole()), ScheduleStep(order, grant, a, token, now))
      ensures Whole() == Schedule(old(Whole()), order, grant, a, token, now) && Valid()
      ensures grant.Some? ==> Located(Records(), a) && lease == Success(LeaseOf(Records(), a))
      ensures grant.None? ==> lease == Failure(NoWork)
      ensures RoundGrants(SweepState(old(Whole()), order, now), Whole(), a, token, now)
    {
      hide PipelinesFail, LeasesGoBack;
      ghost var s := Whole();
      var count;
      count, order := ReconcileExpired(now);
      ghost var s1 := Whole();
      SweepsIssueNothing(s.tables, order, now);
      var choice := ChooseGrant(now);
      grant := choice;
      ScheduleIsEnabled(s, order, grant, a, token, now);
      hide Sound, GrantFits, Sweep, Enabled, RoundGrants;
      if choice.Some? {
        var g := choice.value;
        CanGrant(s1, g, now);
        GrantLease(g.job, g.worker, a, token, now);
        lease := Success(AttemptLease(a, attempts[a], jobs[g.job], pipelines[jobs[g.job].pipelineID]));
        LeaseIsThere(s1, g, a, token, now);
      } else {
        lease := Failure(NoWork);
      }
      ScheduleReads(s, order, grant, a, token, now);
    }

    // ---- Heartbeats and completions ----

    method HeartbeatAttempt(a: Id, token: string, now: Time) returns (r: Result<Attempt, Error>)
      requires Valid()
      modifies this`attempts, this`jobs
      ensures Whole() == Beat(old(Whole()), a, token, now) && Valid()
      ensures r == BeatAnswer(old(Whole()), a, token, now)
      ensures Held(old(Records()), a, token, now) ==>
        && a in attempts && r == Success(attempts[a]) && attempts[a].status == Running
        && attempts[a].leaseExpires == now + config.leaseTTL
    {
      ghost var s := Whole();
      BeatIsSound(s, a, token, now);
      BeatReads(s, a, token, now);
      hide Sound, LeaseHeld, Located, Renew, RenewedRecord, Held;
      var refusal := RefuseBeat(a, token, now);
      if refusal.Some? {
        return Failure(refusal.value);
      }
      RenewLease(a, now);
      r := Success(attempts[a]);
    }

    method RenewLease(a: Id, now: Time)
      requires Located(Records(), a)
      modifies this`attempts, this`jobs
      ensures Whole() == WithTables(old(Whole()), Renew(old(Records()), a, config.leaseTTL, now))
      ensures a in attempts && attempts[a] == RenewedRecord(old(attempts)[a], config.leaseTTL, now)
    {
      var attempt := attempts[a];
      if attempt.status == Leased {
        attempt := attempt.(status := Running, startedAt := now);
        jobs := jobs[attempt.jobID := jobs[attempt.jobID].(status := Running)];
      }
      attempt := attempt.(leaseExpires := now + config.leaseTTL);
      attempts := attempts[a := attempt];
    }

    // Why a heartbeat is refused, if it is.
    method RefuseBeat(a: Id, token: string, now: Time) returns (refusal: Option<Error>)
      requires Valid()
      ensures refusal.None? <==> LeaseHeld(Records(), a, token, now)
      ensures refusal.None? ==> Located(Records(), a) && a in attempts && attempts[a].jobID in jobs
      ensures refusal.Some? ==> BeatAnswer(Whole(), a, token, now) == Failure(refusal.value)
    {
      if a !in attempts {
        return Some(NotFound);
      }
      AttemptIsLocated(Whole(), a);
      hide Sound;
      var attempt := attempts[a];
      if !IsActive(attempt.status) || attempt.token != token || !(now < attempt.leaseExpires) {
        return Some(StaleLease);
      }
      var job := jobs[attempt.jobID];
      if now - attempt.createdAt >= JobTimeout(job.spec) {
        return Some(StaleLease);
      }
      refusal := None;
    }

    // The completion proper. What it does to an attempt it accepts is to commit the record it finds,
    // completed; an outcome that is already there is answered again. A refusal changes nothing, and counts as a
    // stale completion unless the attempt is unknown or all that is wrong is that it ran out of time.
    method CompleteAttempt(a: Id, token: string, success: bool, message: string, now: Time)
      returns (r: Result<Attempt, Error>)
      requires Coherent(Records())
      modifies this`pipelines, this`jobs, this`attempts, this`tally, this`previews, this`metrics
      ensures LeaseHeld(old(Records()), a, token, now) ==>
        && r == Success(old(attempts)[a].(status := if success then Succeeded else Failed, completedAt := now,
                                          message := message))
        && Whole() == Commit(old(Whole()), a, r.value, now)
      ensures !LeaseHeld(old(Records()), a, token, now) ==>
        Whole() == old(Whole()).(metrics := old(metrics).(staleCompletions := metrics.staleCompletions))
      ensures !LeaseHeld(old(Records()), a, token, now) ==>
        if a !in attempts then
          r == Failure(NotFound) && metrics == old(metrics)
        else if attempts[a].token == token && attempts[a].message == message
                && attempts[a].status == (if success then Succeeded else Failed) then
          r == Success(attempts[a]) && metrics == old(metrics)
        else
          && r == Failure(StaleLease)
          && metrics.staleCompletions == old(metrics).staleCompletions
               + if (attempts[a].status == Leased || attempts[a].status == Running) && attempts[a].token == token
                    && now < attempts[a].leaseExpires then 0 else 1
    {
      hide Commit;
      var refusal := RefuseCompletion(a, token, success, message, now);
      if refusal.Some? {
        return refusal.value;
      }
      var wanted := if success then Succeeded else Failed;
      var attempt := attempts[a].(completedAt := now, message := message, status := wanted);
      HeldFinishes(Records(), a, token, attempt, now);
      hide Coherent, LeaseHeld;
      CommitResult(a, attempt, now);
      r := Success(attempt);
    }

    // What a completion is answered that is not to be committed, if it is not.
    method RefuseCompletion(a: Id, token: string, success: bool, message: string, now: Time)
      returns (refusal: Option<Result<Attempt, Error>>)
      requires Coherent(Records())
      modifies this`metrics
      ensures refusal.None? <==> LeaseHeld(Records(), a, token, now)
      ensures refusal.None? ==> metrics == old(metrics)
      ensures refusal.Some? ==>
        refusal.value == (if a !in attempts then Failure(NotFound)
                          else if Reported(attempts[a], token, success, message) then Success(attempts[a])
                          else Failure(StaleLease))
      ensures metrics == old(metrics).(staleCompletions := metrics.staleCompletions)
      ensures metrics.staleCompletions == old(metrics).staleCompletions
        + (if a in attempts && !Reported(attempts[a], token, success, message) && !Holds(attempts[a], token, now) then 1
           else 0)
    {
      if a !in attempts {
        return Some(Failure(NotFound));
      }
      LocateAttempt(Records(), a);
      var attempt := attempts[a];
      var wanted := if success then Succeeded else Failed;
      if attempt.token == token && attempt.status == wanted && attempt.message == message {
        return Some(Success(attempt));
      }
      if !IsActive(attempt.status) || attempt.token != token || !(now < attempt.leaseExpires) {
        metrics := metrics.(staleCompletions := metrics.staleCompletions + 1);
        return Some(Failure(StaleLease));
      }
      var job := jobs[attempt.jobID];
      if now - attempt.createdAt >= JobTimeout(job.spec) {
        return Some(Failure(StaleLease));
      }
      ActiveIsLast(Records(), a);
      if job.status == Cancelled {
        assert false;
      }
      refusal := None;
    }

    // The attempt's record and its job take the outcome, then the pipeline follows.
    method CommitResult(a: Id, record: Attempt, now: Time)
      requires Coherent(Records()) && Finishes(Records(), a, record)
      modifies this`pipelines, this`jobs, this`attempts, this`tally, this`previews, this`metrics
      ensures Located(old(Records()), a) && Whole() == Commit(old(Whole()), a, record, now)
    {
      hide Refs, Coherent, Settle, Model.UpdatePipeline;
      SettleKeepsRefs(Records(), a, record);
      SettleRecord(a, record);
      UpdatePipeline(jobs[record.jobID].pipelineID, now);
    }

    method SettleRecord(a: Id, record: Attempt)
      requires Located(Records(), a) && record.jobID == attempts[a].jobID
      modifies this`jobs, this`attempts, this`tally
      ensures Whole() == WithTables(old(Whole()), Settle(old(Records()), a, record))
      ensures record.jobID in jobs && jobs[record.jobID].pipelineID == PipelineOf(old(Records()), a)
    {
      attempts := attempts[a := record];
      jobs := jobs[record.jobID := jobs[record.jobID].(status := record.status)];
      if record.status == Succeeded {
        tally := tally.(completed := tally.completed + 1);
      } else {
        tally := tally.(failed := tally.failed + 1);
      }
    }

    method Finish(a: Id, token: string, report: Report, now: Time) returns (r: Result<Attempt, Error>)
      requires Valid()
      modifies this`pipelines, this`jobs, this`attempts, this`tally, this`previews, this`metrics
      ensures Whole() == Model.Finish(old(Whole()), a, token, report, now) && Valid()
      ensures r == FinishAnswer(old(Whole()), a, token, report, now)
    {
      ghost var s := Whole();
      FinishIsSound(s, a, token, report, now);
      hide Commit, CommittedRecord, LeaseHeld, FinishAnswer;
      var refusal := RefuseReport(a, token, report, now);
      if refusal.Some? {
        return refusal.value;
      }
      r := SaveResult(a, token, report, now);
    }

    // What a report is answered that is not to be saved, if it is not.
    method RefuseReport(a: Id, token: string, report: Report, now: Time)
      returns (refusal: Option<Result<Attempt, Error>>)
      requires Valid()
      ensures refusal.None? <==> LeaseHeld(Records(), a, token, now)
      ensures refusal.Some? ==> refusal.value == FinishAnswer(Whole(), a, token, report, now)
      ensures refusal.None? ==> a in attempts
      ensures refusal.None? ==>
        FinishAnswer(Whole(), a, token, report, now) == Success(CommittedRecord(attempts[a], report, now))
    {
      if a !in attempts {
        return Some(Failure(NotFound));
      }
      AttemptIsLocated(Whole(), a);
      hide Sound;
      var attempt := attempts[a];
      if attempt.token != token {
        return Some(Failure(StaleLease));
      }
      if IsTerminal(attempt.status) {
        var again := AnswerAgain(attempt, report);
        return Some(again);
      }
      if !(now < attempt.leaseExpires) || now - attempt.createdAt >= JobTimeout(jobs[attempt.jobID].spec)
        || !IsActive(attempt.status) {
        return Some(Failure(StaleLease));
      }
      refusal := None;
    }

    // An attempt that ended answers the report it ended with, and no other.
    method AnswerAgain(attempt: Attempt, report: Report) returns (r: Result<Attempt, Error>)
      ensures r == if Matches(attempt, report) then Success(attempt) else Failure(Conflict)
    {
      var wanted := if report.success then Succeeded else Failed;
      if attempt.status == wanted && attempt.message == report.message && attempt.digest == report.digest
        && attempt.logKey == report.logKey && attempt.artefacts == report.artefacts {
        return Success(attempt);
      }
      r := Failure(Conflict);
    }

    // Metadata first, then the transition; both or neither.
    method SaveResult(a: Id, token: string, report: Report, now: Time) returns (r: Result<Attempt, Error>)
      requires Valid() && LeaseHeld(Records(), a, token, now)
      modifies this`pipelines, this`jobs, this`attempts, this`tally, this`previews, this`metrics
      ensures Whole() == Commit(old(Whole()), a, CommittedRecord(old(attempts[a]), report, now), now)
      ensures r == Success(CommittedRecord(old(attempts[a]), report, now))
    {
      ghost var s := Whole();
      hide Commit, Sound, Coherent;
      MetadataKeepsCoherent(s, a, report);
      MetadataIsOverwritten(s, a, report, now);
      attempts := attempts[a := attempts[a].(digest := report.digest, logKey := report.logKey,
                                             artefacts := report.artefacts)];
      r := CompleteAttempt(a, token, report.success, report.message, now);
    }

    method CancelJob(j: Id, now: Time) returns (r: Result<Job, Error>)
      requires Valid()
      modifies this`pipelines, this`jobs, this`attempts, this`tally, this`previews
      ensures Whole() == Cancel(old(Whole()), j, now) && Valid()
      ensures j !in old(jobs) ==> r == Failure(NotFound)
      ensures j in old(jobs) ==> j in jobs && r == Success(jobs[j]) && IsTerminal(r.value.status)
    {
      ghost var s := Whole();
      CancelIsSound(s, j, now);
      if j !in jobs {
        return Failure(NotFound);
      }
      if IsTerminal(jobs[j].status) {
        return Success(jobs[j]);
      }
      JobIsLocated(s, j);
      hide Sound, Refs;
      CancelPipeline(jobs[j].pipelineID, now);
      CancelEndsJob(s, j, now);
      r := Success(jobs[j]);
    }

    // ---- Reconciling ----

    method AgePreview(key: PRKey, now: Time) returns (gone: nat)
      requires key in previews
      modifies this`previews, this`metrics
      ensures Whole() == AgedOne(old(Whole()), key, now)
      ensures gone == if Removable(Aged(old(previews[key]), now)) then 1 else 0
    {
      hide CountDeleted, Aged;
      ExpirePreview(key, now);
      gone := 0;
      if previews[key].desired == Deleting {
        if previews[key].actual == Deleted {
          previews := previews - {key};
          assert previews == old(previews) - {key};
          gone := 1;
          CountDeletion();
        }
      }
    }

    method ExpirePreview(key: PRKey, now: Time)
      requires key in previews
      modifies this`previews
      ensures previews == old(previews)[key := Aged(old(previews)[key], now)]
    {
      var v := previews[key];
      if v.desired == Active && v.expiresAt != 0 && now >= v.expiresAt {
        v := v.(desired := Deleting, generation := v.generation + 1, updatedAt := now);
        previews := previews[key := v];
      }
    }

    method CountDeletion()
      modifies this`metrics
      ensures Whole() == CountDeleted(old(Whole()), 1)
    {
      metrics := metrics.(previewsDeleted := metrics.previewsDeleted + 1);
    }

    // Previews whose time is up are to be deleted; those whose deletion was observed go.
    method AgePreviewList(now: Time) returns (deleted: nat)
      modifies this`previews, this`metrics
      ensures Whole() == AgePreviews(old(Whole()), now) && deleted == |Gone(old(Whole()), now)|
    {
      deleted := 0;
      ghost var s := Whole();
      var todo := previews.Keys;
      AgingStarts(s, now);
      hide Aging, Gone, Removable, Aged, AgedOne, AgePreviews;
      while todo != {}
        invariant Aging(s, Whole(), todo, deleted, now)
        decreases todo
      {
        var key :| key in todo;
        AgingGoesOn(s, Whole(), todo, deleted, key, now);
        var gone := AgePreview(key, now);
        deleted := deleted + gone;
        todo := todo - {key};
      }
      AgingDone(s, Whole(), deleted, now);
    }

    method IsRetained(p: Id) returns (retained: bool)
      ensures retained <==> exists k :: k in previews && previews[k].pipelineID == p
    {
      retained := false;
      var todo := previews.Keys;
      while todo != {}
        invariant todo <= previews.Keys
        invariant retained <==> exists k :: k in previews && k !in todo && previews[k].pipelineID == p
        decreases todo
      {
        var key :| key in todo;
        if previews[key].pipelineID == p {
          retained := true;
        }
        todo := todo - {key};
      }
    }

    // A finished pipeline leaves with its jobs and their attempts.
    method DropPipeline(p: Id)
      requires Refs(Records()) && p in pipelines
      modifies this`pipelines, this`jobs, this`attempts
      ensures Records() == Drop(old(Records()), {p})
    {
      ghost var t := Records();
      var ids := pipelines[p].jobIDs;
      NothingLeft(t, ids);
      hide Refs, Left;
      for i := 0 to |ids|
        invariant Left(t, Records(), ids[..i])
      {
        LeftOneMore(t, Records(), p, i);
        var j := ids[i];
        DropAttempts(jobs[j].attemptIDs);
        jobs := jobs - {j};
      }
      assert ids[..|ids|] == ids;
      LeftAll(t, Records(), p);
      pipelines := pipelines - {p};
    }

    method DropAttempts(listed: seq<Id>)
      modifies this`attempts
      ensures attempts == old(attempts) - set a | a in listed
    {
      assert listed[..0] == [];
      for k := 0 to |listed|
        invariant attempts == old(attempts) - set a | a in listed[..k]
      {
        assert listed[..k + 1] == listed[..k] + [listed[k]];
        attempts := attempts - {listed[k]};
      }
      assert listed[..|listed|] == listed;
    }

    method MayPrune(p: Id, now: Time) returns (may: bool)
      requires p in pipelines
      ensures may <==> Prunable(Whole(), p, now)
    {
      var pipeline := pipelines[p];
      if !IsTerminal(pipeline.status) || now - pipeline.createdAt < config.retention {
        return false;
      }
      var retained := IsRetained(p);
      may := !retained;
    }

    method Prune(now: Time)
      requires Valid()
      modifies this`pipelines, this`jobs, this`attempts
      ensures Whole() == Model.Prune(old(Whole()), now)
    {
      ghost var s, gone := Whole(), {};
      var todo := pipelines.Keys;
      PruningStarts(s, now);
      hide Sound, Pruning, Drop, Refs, Prunable;
      while todo != {}
        invariant Pruning(s, Whole(), gone, todo, now)
        decreases todo
      {
        var p :| p in todo;
        PruningAt(s, Whole(), gone, todo, p, now);
        ghost var before := Whole();
        var may := MayPrune(p, now);
        if may {
          DropPipeline(p);
          PruningDrops(s, before, gone, todo, p, now);
          gone := gone + {p};
        } else {
          PruningSkips(s, before, gone, todo, p, now);
        }
        todo := todo - {p};
      }
      PruningDone(s, Whole(), gone, now);
    }

    method Reconcile(now: Time) returns (expired: nat, deleted: nat, ghost order: seq<Id>)
      requires Valid()
      modifies this
      ensures Enabled(old(Whole()), ReconcileStep(order, now))
      ensures Whole() == Model.Reconcile(old(Whole()), order, now) && Valid()
      ensures expired == Swept(old(Records()), order, now)
      ensures deleted == |Gone(SweepState(old(Whole()), order, now), now)|
    {
      ghost var s := Whole();
      hide Sound, SweepState, AgePreviews, KeptPreviews, Prunable, Drop, Gone, Swept, PipelinesFail, LeasesGoBack;
      expired, order := ReconcileExpired(now);
      AgingIsSound(Whole(), now);
      deleted := AgePreviewList(now);
      Prune(now);
      StepKeepsSound(s, ReconcileStep(order, now));
    }

    // ---- Previews again ----

    // The pipeline's preview again, if it succeeded, has none and is still inside its window.
    method EnsurePreview(p: Id, now: Time)
      requires Refs(Records()) && p in pipelines
      modifies this`previews, this`metrics
      ensures Whole() == EnsureOne(old(Whole()), p, now)
    {
      hide Refs, ActivateJobs;
      var pipeline := pipelines[p];
      if pipeline.status != Succeeded || pipeline.pr == 0 {
        return;
      }
      if PreviewKey(pipeline.repo, pipeline.pr) in previews {
        return;
      }
      ActivateWanted(p, true, now);
    }

    method EnsurePreviews(now: Time) returns (ghost order: seq<Id>)
      requires Valid()
      modifies this`previews, this`metrics
      ensures Enabled(old(Whole()), EnsureStep(order, now))
      ensures Whole() == Ensure(old(Whole()), order, now) && Valid()
    {
      order := [];
      ghost var s := Whole();
      var todo := pipelines.Keys;
      EnsuringStarts(s, now);
      hide Sound, Ensuring, EnsureOne, Refs, Enabled;
      while todo != {}
        invariant Ensuring(s, Whole(), order, todo, now)
        decreases todo
      {
        var p :| p in todo;
        EnsuringGoesOn(s, Whole(), order, todo, p, now);
        EnsurePreview(p, now);
        todo := todo - {p};
        order := order + [p];
      }
      EnsuringDone(s, Whole(), order, now);
    }

    method ObservePreview(p: Preview, actual: Status, url: string, lastError: string) returns (error: Option<Error>)
      requires Valid()
      modifies this`previews
      ensures Whole() == Observe(old(Whole()), p, actual, url, lastError) && Valid()
      ensures error == ObserveAnswer(old(Whole()), p)
    {
      ghost var s := Whole();
      ObserveIsSound(s, p, actual, url, lastError);
      hide Sound;
      var key := PreviewKey(p.repo, p.pr);
      if key !in previews {
        return Some(NotFound);
      }
      var current := previews[key];
      if current.generation != p.generation || current.pipelineID != p.pipelineID || current.desired != p.desired {
        return Some(Conflict);
      }
      previews := previews[key := current.(actual := actual, url := url, lastError := lastError)];
      error := None;
    }

    // ---- Submission ----

    // A pipeline of the same revision, configuration and generation.
    method FindRevision(input: Submission, generation: int) returns (found: Option<Id>)
      ensures found.Some? ==> SameRevision(Records(), input, generation, found.value)
      ensures found.None? ==> forall p :: !SameRevision(Records(), input, generation, p)
    {
      ghost var t := Records();
      var todo := pipelines.Keys;
      while todo != {}
        invariant todo <= pipelines.Keys
        invariant forall p :: p in pipelines && p !in todo ==> !SameRevision(t, input, generation, p)
        decreases todo
      {
        var p :| p in todo;
        var q := pipelines[p];
        if q.tenant == input.tenant && q.repo == input.repo && q.sourceRepo == input.sourceRepo && q.pr == input.pr
          && q.commit == input.commit && q.config == input.spec && q.generation == generation {
          return Some(p);
        }
        todo := todo - {p};
      }
      found := None;
    }

    // Cancels every unfinished pipeline of the pull request.
    method CancelSuperseded(input: Submission, now: Time)
      requires Coherent(Records()) && input.pr > 0
      modifies this`pipelines, this`jobs, this`attempts, this`tally, this`previews
      ensures Records() == CancelPipelines(old(Records()), Superseded(old(Records()), input), now)
      ensures AtMostTombstoned(old(previews), previews, SubmissionKey(input))
    {
      ghost var s, done := Whole(), {};
      var todo := pipelines.Keys;
      hide Superseding, Coherent, CancelPipelines, Superseded, CancelOne, AtMostTombstoned, Refs, Tombstoned;
      SupersedingStarts(s, input, now);
      while todo != {}
        invariant Superseding(s, Records(), previews, input, done, todo, now)
        decreases todo
      {
        var p :| p in todo;
        SupersedingAt(s, Records(), previews, input, done, todo, p, now);
        ghost var t, before := Records(), previews;
        if pipelines[p].repo == input.repo && pipelines[p].pr == input.pr && !IsTerminal(pipelines[p].status) {
          CancelOneParts(Whole(), p, now);
          CancelPipeline(p, now);
          SupersedingCancels(s, t, before, Records(), previews, input, done, todo, p, now);
          done := done + {p};
        } else {
          SupersedingSkips(s, t, before, input, done, todo, p, now);
        }
        todo := todo - {p};
      }
      SupersedingDone(s, Records(), previews, input, done, now);
    }

    method BuryPreview(key: PRKey, generation: int, now: Time)
      modifies this`previews
      ensures previews == BuriedUnder(old(previews), key, generation, now)
    {
      if key in previews {
        previews := previews[key := previews[key].(desired := Deleting, generation := generation, updatedAt := now)];
      }
    }

    // A newer event of a pull request advances its clock and retires everything older.
    method AdvanceClock(input: Submission, now: Time) returns (generation: int)
      requires Coherent(Records())
      modifies this`pipelines, this`jobs, this`attempts, this`tally, this`previews, this`prStates
      ensures Whole() == Advance(old(Whole()), input, now) && generation == GenerationOf(old(Whole()), input)
    {
      ghost var s := Whole();
      ClockReads(s, input, now);
      hide Advance, CancelPipelines, Superseded, AtMostTombstoned, BuriedUnder, Coherent, Prior, NextClock,
           GenerationOf;
      var key := PreviewKey(input.repo, input.pr);
      var eventTime := if input.eventTime == 0 then now else input.eventTime;
      var previous := if key in prStates then prStates[key] else PRState(0, false, 0, "");
      generation := previous.generation;
      AdvancesTo(s, input, now);
      if input.pr > 0 {
        generation := generation + 1;
        prStates := prStates[key := PRState(eventTime, input.closed, generation, input.commit)];
        RetireOlder(input, generation, now);
      }
    }

    // The unfinished pipelines of the pull request are cancelled, and its preview is to be deleted.
    method RetireOlder(input: Submission, generation: int, now: Time)
      requires Coherent(Records()) && input.pr > 0
      modifies this`pipelines, this`jobs, this`attempts, this`tally, this`previews
      ensures Records() == CancelPipelines(old(Records()), Superseded(old(Records()), input), now)
      ensures previews == BuriedUnder(old(previews), SubmissionKey(input), generation, now)
    {
      hide CancelPipelines, Superseded, AtMostTombstoned, BuriedUnder, Coherent, SubmissionKey;
      CancelSuperseded(input, now);
      BuriedAnyway(old(previews), previews, SubmissionKey(input), generation, now);
      BuryPreview(SubmissionKey(input), generation, now);
    }

    method CreatePipeline(input: Submission, order: seq<string>, p: Id, ids: seq<Id>, generation: int, now: Time)
      requires AllIssued(Records()) && MayCreate(Records(), input, order, p, ids)
      modifies this`pipelines, this`jobs, this`sequence, this`issued
      ensures Records() == Create(old(Records()), input, order, p, ids, generation, now)
    {
      ghost var t := Records();
      hide Adding, AllIssued, FreshIds;
      CreateJobs(input, order, p, ids, now);
      AddingDone(t, jobs, input, order, p, ids, generation, now);
      hide MayCreate, NewPipeline;
      pipelines := pipelines[p := NewPipeline(input, ids, generation, now)];
      issued := issued + {p} + set j | j in ids;
    }

    // One job per planned name, numbered in plan order.
    method CreateJobs(input: Submission, order: seq<string>, p: Id, ids: seq<Id>, now: Time)
      requires AllIssued(Records()) && MayCreate(Records(), input, order, p, ids)
      modifies this`jobs, this`sequence
      ensures Adding(old(Records()), jobs, input, order, p, ids, |ids|, now) && sequence == old(sequence) + |ids|
    {
      ghost var t := Records();
      AddingStarts(t, input, order, p, ids, now);
      hide Adding, AllIssued, FreshIds;
      for i := 0 to |order|
        invariant sequence == t.sequence + i && Adding(t, jobs, input, order, p, ids, i, now)
      {
        AddingMore(t, jobs, input, order, p, ids, i, now);
        sequence := sequence + 1;
        jobs := jobs[ids[i] := Job(p, input.tenant, order[i], input.spec.jobs[order[i]], Queued, now, sequence, [])];
      }
    }

    // What the request resolves to, and the body it came with.
    method RememberRequest(input: Submission, id: Id)
      modifies this`deliveries, this`requestHashes
      ensures Whole() == Remember(old(Whole()), input, id)
    {
      deliveries := deliveries[input.requestID := id];
      requestHashes := requestHashes[input.requestID := input];
    }

    // The rest of an accepted request: a pipeline unless it is a close.
    method AdmitPipeline(input: Submission, order: seq<string>, p: Id, ids: seq<Id>, generation: int, now: Time)
      requires AllIssued(Records()) && FreshIds(Records(), p, ids) && IdsFor(input, ids) && !input.closed
      requires Planner.Plan(input.spec) == Some(order)
      modifies this`pipelines, this`jobs, this`sequence, this`issued
      ensures Whole() == Admit(old(Whole()), input, p, ids, generation, now)
    {
      hide Create, AllIssued;
      CreatePipeline(input, order, p, ids, generation, now);
    }

    method AcceptSubmission(input: Submission, order: seq<string>, p: Id, ids: seq<Id>, now: Time)
      returns (answer: Answer)
      requires Valid() && FreshIds(Records(), p, ids) && IdsFor(input, ids) && Classify(Whole(), input, now) == Fresh
      requires WellFormed(input)
      requires !input.closed ==> Planner.Plan(input.spec) == Some(order)
      modifies this
      ensures Whole() == Accept(old(Whole()), input, p, ids, now)
      ensures answer == Resolved(if input.closed then "" else p, false)
    {
      ghost var s := Whole();
      AdvanceIsSound(s, input, p, ids, now);
      if input.closed {
        AcceptedClosed(s, input, p, ids, now);
      } else {
        AcceptedOpen(s, input, p, ids, now);
      }
      hide Advance, Sound, Classify, GenerationOf, AllIssued, SameRevision, FreshIds, IdsFor, Accept, Bounded,
           WellFormed, Remember, CountAccepted, Admit, Redirected;
      var generation := AdvanceClock(input, now);
      RememberRequest(input, "");
      CountAcceptance();
      if input.closed {
        return Resolved("", false);
      }
      if !input.rerun {
        var found := FindRevision(input, generation);
        if found.Some? {
          SecondScanIsIdle(s, input, now, found.value);
          assert false;
        }
      }
      AdmitPipeline(input, order, p, ids, generation, now);
      Redirect(input.requestID, p);
      answer := Resolved(p, false);
    }

    method CountAcceptance()
      modifies this`metrics
      ensures Whole() == CountAccepted(old(Whole()))
    {
      metrics := metrics.(webhookAccepted := metrics.webhookAccepted + 1);
    }

    // The request now resolves to p.
    method Redirect(requestID: string, p: Id)
      modifies this`deliveries
      ensures Whole() == Redirected(old(Whole()), requestID, p)
    {
      deliveries := deliveries[requestID := p];
    }

    // The request joins a pipeline of the same revision.
    method JoinPipeline(input: Submission, pick: Id, now: Time)
      modifies this`deliveries, this`requestHashes, this`prStates
      ensures Whole() == Join(old(Whole()), input, pick, now)
    {
      var key := PreviewKey(input.repo, input.pr);
      if input.pr > 0 {
        var previous := if key in prStates then prStates[key] else PRState(0, false, 0, "");
        prStates := prStates[key := previous.(updatedAt := if input.eventTime == 0 then now else input.eventTime)];
      }
      RememberRequest(input, pick);
    }

    // A pipeline of this very revision that the request may join.
    method FindRepeated(input: Submission) returns (found: Option<Id>)
      ensures found.Some? ==>
        Repeats(Whole(), input) && SameRevision(Records(), input, Prior(Whole(), input).generation, found.value)
      ensures found.None? ==> !Repeats(Whole(), input)
    {
      var key := PreviewKey(input.repo, input.pr);
      var previous := if key in prStates then prStates[key] else PRState(0, false, 0, "");
      found := None;
      if !input.closed && !previous.closed && !input.rerun {
        found := FindRevision(input, previous.generation);
      }
    }

    method IsFull(input: Submission, order: seq<string>) returns (full: bool)
      requires !input.closed ==> Planner.Plan(input.spec) == Some(order)
      ensures full <==> Overflows(Whole(), input)
    {
      full := false;
      if !input.closed {
        var queued := QueuedCount();
        full := queued + |order| > config.maxQueuedJobs;
      }
    }

    // The outcome of a request that arrives for the first time and is not late.
    method ResolveSubmission(input: Submission, order: seq<string>, p: Id, ids: seq<Id>, now: Time)
      returns (answer: Answer, ghost pick: Id)
      requires Valid() && FreshIds(Records(), p, ids) && IdsFor(input, ids) && WellFormed(input)
      requires !input.closed ==> Planner.Plan(input.spec) == Some(order)
      requires input.requestID !in deliveries && !Late(Whole(), input, now)
      modifies this
      ensures Outcome(old(Whole()), Whole(), input, p, ids, pick, now, answer)
    {
      ghost var s := Whole();
      hide Sound, Late, WellFormed, Accept, FreshIds, IdsFor, SameRevision, Classify, Overflows, Repeats, Join, Outcome;
      OnTime(s, input, now);
      pick := "";
      var full := IsFull(input, order);
      if full {
        FullOutcome(s, input, p, ids, now);
        return Rejected(Capacity), "";
      }
      var found := FindRepeated(input);
      if found.Some? {
        JoinPipeline(input, found.value, now);
        KnownOutcome(s, input, p, ids, found.value, now);
        return Resolved(found.value, true), found.value;
      }
      answer := AcceptSubmission(input, order, p, ids, now);
      FreshOutcome(s, input, p, ids, now);
    }

    // A request whose body is in order: replayed, in conflict, late, or new.
    method Recall(input: Submission, order: seq<string>, p: Id, ids: seq<Id>, now: Time)
      returns (answer: Answer, ghost pick: Id)
      requires Valid() && FreshIds(Records(), p, ids) && IdsFor(input, ids) && WellFormed(input)
      requires !input.closed ==> Planner.Plan(input.spec) == Some(order)
      modifies this
      ensures Outcome(old(Whole()), Whole(), input, p, ids, pick, now, answer)
    {
      ghost var s := Whole();
      hide Sound, WellFormed, FreshIds, IdsFor, Classify, Outcome;
      if input.requestID in deliveries {
        SeenOutcome(s, input, p, ids, now);
        if input.requestID in requestHashes && requestHashes[input.requestID] != input {
          return Rejected(Conflict), "";
        }
        metrics := metrics.(webhookDuplicate := metrics.webhookDuplicate + 1);
        return Resolved(View(pipelines, deliveries[input.requestID]), true), "";
      }
      var key := PreviewKey(input.repo, input.pr);
      var eventTime := if input.eventTime == 0 then now else input.eventTime;
      if input.pr > 0 && key in prStates && !(eventTime > prStates[key].updatedAt) {
        // At equal times a close wins, and competing heads are ignored.
        if !input.closed || prStates[key].closed || eventTime < prStates[key].updatedAt {
          LateOutcome(s, input, p, ids, now);
          RememberRequest(input, "");
          return Resolved("", true), "";
        }
      }
      assert !Late(s, input, now);
      hide Late;
      answer, pick := ResolveSubmission(input, order, p, ids, now);
    }

    // A request: replayed, refused, ignored as late, joined to a pipeline that is already there, or accepted.
    // p and ids are the next identifiers of their supplies.
    method Submit(input: Submission, p: Id, ids: seq<Id>, now: Time) returns (answer: Answer, ghost pick: Id)
      requires Valid() && FreshIds(Records(), p, ids) && IdsFor(input, ids)
      modifies this
      ensures Enabled(old(Whole()), SubmitStep(input, p, ids, pick, now))
      ensures Whole() == Model.Submit(old(Whole()), input, p, ids, pick, now) && Valid()
      ensures answer == SubmitAnswer(old(Whole()), input, p, pick, now)
      ensures Admission.JoinsOrStarts(old(Whole()), Whole(), input, p, answer, now)
    {
      ghost var s := Whole();
      hide Sound, FreshIds, IdsFor, SameRevision, Outcome;
      answer, pick := Decide(input, p, ids, now);
      OutcomeIsSubmit(s, Whole(), input, p, ids, pick, now, answer);
      hide Classify, SubmitAnswer;
      StepKeepsSound(s, SubmitStep(input, p, ids, pick, now));
      SubmitReads(s, input, p, ids, pick, now);
    }

    method Decide(input: Submission, p: Id, ids: seq<Id>, now: Time) returns (answer: Answer, ghost pick: Id)
      requires Valid() && FreshIds(Records(), p, ids) && IdsFor(input, ids)
      modifies this
      ensures Outcome(old(Whole()), Whole(), input, p, ids, pick, now, answer)
    {
      ghost var s := Whole();
      hide Sound, FreshIds, IdsFor, Outcome;
      MalformedOutcome(s, input, p, ids, now);
      pick := "";
      if input.requestID == "" || ByteLength(input.requestID) > 200 {
        return Rejected(Invalid), "";
      }
      var order := [];
      if !input.closed {
        var plan := Planner.Validate(input.spec);
        if plan.Failure? {
          return Rejected(Invalid), "";
        }
        order := plan.value;
      }
      answer, pick := Recall(input, order, p, ids, now);
    }

    // ---- Workers and check runs ----

    method RegisterWorker(w: Id, worker: Worker, now: Time) returns (r: Result<Worker, Error>)
      requires Valid()
      modifies this`workers
      ensures Whole() == Register(old(Whole()), w, worker, now) && Valid()
      ensures r == if MayRegister(w, worker) then Success(worker.(heartbeat := now)) else Failure(Invalid)
      ensures workers == if w != "" && worker.pool != "" && worker.capacity > 0
                         then old(workers)[w := worker.(heartbeat := now)] else old(workers)
    {
      ghost var s := Whole();
      RegisterIsSound(s, w, worker, now);
      hide Sound;
      if w == "" || worker.pool == "" {
        return Failure(Invalid);
      }
      if worker.capacity <= 0 {
        return Failure(Invalid);
      }
      workers := workers[w := worker.(heartbeat := now)];
      r := Success(worker.(heartbeat := now));
    }

    method HeartbeatWorker(w: Id, now: Time) returns (error: Option<Error>)
      requires Valid()
      modifies this`workers
      ensures Whole() == WorkerBeat(old(Whole()), w, now) && Valid()
      ensures error == if w in old(workers) then None else Some(NotFound)
      ensures workers == if w in old(workers) then old(workers)[w := old(workers)[w].(heartbeat := now)]
                         else old(workers)
    {
      ghost var s := Whole();
      WorkerBeatIsSound(s, w, now);
      hide Sound;
      if w !in workers {
        return Some(NotFound);
      }
      workers := workers[w := workers[w].(heartbeat := now)];
      error := None;
    }

    method RecordCheck(p: Id, check: int, state: Status) returns (error: Option<Error>)
      requires Valid()
      modifies this`pipelines
      ensures Whole() == Model.RecordCheck(old(Whole()), p, check, state) && Valid()
      ensures error == if p in old(pipelines) then None else Some(NotFound)
      ensures pipelines == if p in old(pipelines)
                           then old(pipelines)[p := old(pipelines)[p].(checkRun := check, checkState := state)]
                           else old(pipelines)
    {
      ghost var s := Whole();
      CheckIsSound(s, p, check, state);
      hide Sound;
      if p !in pipelines {
        return Some(NotFound);
      }
      pipelines := pipelines[p := pipelines[p].(checkRun := check, checkState := state)];
      error := None;
    }

    // What a worker is to execute: its active attempts, oldest first.
    method AssignedLeases(w: Id) returns (r: Result<seq<AttemptLease>, Error>)
      requires Valid()
      ensures r.Failure? <==> w !in workers
      ensures r.Success? ==> Assigned(Records(), r.value, w, attempts.Keys)
      ensures r.Success? ==> forall i, k :: 0 <= i < k < |r.value| ==>
        r.value[i].id != r.value[k].id && r.value[i].attempt.createdAt <= r.value[k].attempt.createdAt
      ensures r.Success? ==> forall i :: 0 <= i < |r.value| ==>
        var lease := r.value[i];
        && lease.id in attempts && lease.attempt == attempts[lease.id] && lease.attempt.workerID == w
        && (lease.attempt.status == Leased || lease.attempt.status == Running)
        && lease.attempt.jobID in jobs && lease.job == jobs[lease.attempt.jobID]
        && lease.job.pipelineID in pipelines && lease.pipeline == pipelines[lease.job.pipelineID]
      ensures r.Success? ==> forall a :: (a in attempts && attempts[a].workerID == w
                                          && (attempts[a].status == Leased || attempts[a].status == Running)) ==>
        exists i :: 0 <= i < |r.value| && r.value[i].id == a
    {
      if w !in workers {
        return Failure(NotFound);
      }
      ghost var t := Records();
      var leases := [];
      var todo := attempts.Keys;
      while todo != {}
        invariant todo <= attempts.Keys && Assigned(t, leases, w, attempts.Keys - todo)
        decreases todo
      {
        var a :| a in todo;
        AttemptIsLocated(Whole(), a);
        AssignedMore(t, leases, w, attempts.Keys - todo, a);
        assert attempts.Keys - (todo - {a}) == attempts.Keys - todo + {a};
        hide Sound, Assigned;
        var attempt := attempts[a];
        if attempt.workerID == w && IsActive(attempt.status) {
          var job := jobs[attempt.jobID];
          leases := leases + [AttemptLease(a, attempt, job, pipelines[job.pipelineID])];
        }
        todo := todo - {a};
      }
      assert attempts.Keys - {} == attempts.Keys;
      var sorted := SortBy(leases, LeaseBefore);
      AssignedSorted(t, leases, sorted, w);
      AssignedReads(t, sorted, w);
      r := Success(sorted);
    }

    // An empty store with safe defaults.
    constructor (c: Config)
      ensures Whole() == Init(config) && ConfigOk(config) && Valid()
      ensures config == Config(
        if c.leaseTTL > 0 then c.leaseTTL else 30_000_000_000,
        if c.workerTTL > 0 then c.workerTTL else 45_000_000_000,
        if c.defaultTenantLimit > 0 then c.defaultTenantLimit else 2, c.tenantLimits,
        if c.previewBaseDomain != "" then c.previewBaseDomain else "preview.local",
        if c.previewDeleteDelay > 0 then c.previewDeleteDelay else 5_000_000_000,
        if c.maxQueuedJobs > 0 then c.maxQueuedJobs else 1000, if c.tenantCPU > 0 then c.tenantCPU else 16,
        if c.tenantMemory > 0 then c.tenantMemory else 32768,
        if c.retention > 0 then c.retention else 604_800_000_000_000)
    {
      config := SafeConfig(c);
      pipelines, jobs, attempts, workers, previews := map[], map[], map[], map[], map[];
      deliveries, requestHashes, prStates, lastTenant, sequence := map[], map[], map[], "", 0;
      tally, metrics := Tally(0, 0, 0), Metrics(0, 0, 0, 0, 0, 0, 0);
      issued := {};
      new;
      EmptyIsSound(config);
    }
  }

  lemma SplitCount<T>(x: set<T>, keys: set<T>, todo: set<T>, e: T)
    requires x <= keys && e in todo && todo <= keys
    ensures |x * (keys - (todo - {e}))| == |x * (keys - todo)| + if e in x then 1 else 0
  {
    if e in x {
      assert x * (keys - (todo - {e})) == x * (keys - todo) + {e};
    } else {
      assert x * (keys - (todo - {e})) == x * (keys - todo);
    }
  }

  // n of the keys not in todo are in x.
  ghost predicate Counting<T>(x: set<T>, keys: set<T>, todo: set<T>, n: nat) {
    x <= keys && todo <= keys && n == |x * (keys - todo)|
  }

  lemma CountingStarts<T>(x: set<T>, keys: set<T>)
    requires x <= keys
    ensures Counting(x, keys, keys, 0)
  {
    assert x * (keys - keys) == {};
  }

  lemma CountingGoesOn<T>(x: set<T>, keys: set<T>, todo: set<T>, n: nat, e: T)
    requires Counting(x, keys, todo, n) && e in todo
    ensures e in keys && Counting(x, keys, todo - {e}, n + if e in x then 1 else 0)
  {
    SplitCount(x, keys, todo, e);
  }

  lemma CountingDone<T>(x: set<T>, keys: set<T>, n: nat)
    requires Counting(x, keys, {}, n)
    ensures n == |x|
  {
    assert x * (keys - {}) == x;
  }

  lemma SplitTotal(t: Tables, x: set<Id>, keys: set<Id>, todo: set<Id>, a: Id)
    requires x <= keys && a in todo && todo <= keys
    ensures Total(t, x * (keys - (todo - {a})))
      == if a in x then Add(Demand(t, a), Total(t, x * (keys - todo))) else Total(t, x * (keys - todo))
  {
    hide Total, Demand, Add;
    if a in x {
      assert x * (keys - (todo - {a})) == x * (keys - todo) + {a};
      TotalInsert(t, x * (keys - todo), a);
    } else {
      assert x * (keys - (todo - {a})) == x * (keys - todo);
    }
  }

  // A Go map ranged over into a slice.
  method ListKeys(keys: set<string>) returns (xs: seq<string>)
    ensures Enumerates(xs, keys)
  {
    xs := [];
    var todo := keys;
    while todo != {}
      invariant todo <= keys && Enumerates(xs, keys - todo)
      decreases todo
    {
      var x :| x in todo;
      xs := xs + [x];
      todo := todo - {x};
    }
    assert keys - {} == keys;
  }

  method HasAll(capabilities: set<string>, wanted: seq<string>) returns (matched: bool)
    ensures matched <==> forall c :: c in wanted ==> c in capabilities
  {
    for i := 0 to |wanted|
      invariant forall k :: 0 <= k < i ==> wanted[k] in capabilities
    {
      if wanted[i] !in capabilities {
        assert wanted[i] in wanted;
        return false;
      }
    }
    matched := true;
  }

  lemma NamesDiffer(t: Tables, p: Id, i: nat, k: nat)
    requires Coherent(t) && p in t.pipelines && i < k < |t.pipelines[p].jobIDs|
    ensures t.pipelines[p].jobIDs[i] in t.jobs && t.pipelines[p].jobIDs[k] in t.jobs
    ensures t.jobs[t.pipelines[p].jobIDs[i]].name != t.jobs[t.pipelines[p].jobIDs[k]].name
  {
    assert Planned(t, p);
    var order := Planner.Plan(t.pipelines[p].config).value;
    assert Distinct(order);
    assert order[i] != order[k];
  }

  lemma OnlyOneNamed(t: Tables, p: Id, k: nat, name: string)
    requires Coherent(t) && p in t.pipelines && k < |t.pipelines[p].jobIDs|
    requires t.pipelines[p].jobIDs[k] in t.jobs && t.jobs[t.pipelines[p].jobIDs[k]].name == name
    ensures NeedMet(t, p, name) <==> t.jobs[t.pipelines[p].jobIDs[k]].status == Succeeded
  {
    var ids := t.pipelines[p].jobIDs;
    assert PipelineRefs(t, p);
    assert Has(t, p, ids[k]);
    forall j | Has(t, p, j) && t.jobs[j].name == name ensures j == ids[k] {
      var i :| 0 <= i < |ids| && ids[i] == j;
      if i < k {
        NamesDiffer(t, p, i, k);
      } else if k < i {
        NamesDiffer(t, p, k, i);
      }
    }
    hide Coherent;
  }

  // The statuses of the pipeline's first jobs by name.
  ghost predicate Naming(t: Tables, p: Id, i: nat, states: map<string, Status>) {
    && Coherent(t) && p in t.pipelines && i <= |t.pipelines[p].jobIDs|
    && (forall k :: 0 <= k < i ==> t.pipelines[p].jobIDs[k] in t.jobs)
    && (forall k :: 0 <= k < i ==> NameOf(t, p, k) in states && states[NameOf(t, p, k)] == StatusOf(t, p, k))
    && (forall name :: name in states ==> exists k :: 0 <= k < i && NameOf(t, p, k) == name)
  }

  ghost function NameOf(t: Tables, p: Id, k: nat): string
    requires p in t.pipelines && k < |t.pipelines[p].jobIDs| && t.pipelines[p].jobIDs[k] in t.jobs
  {
    t.jobs[t.pipelines[p].jobIDs[k]].name
  }

  ghost function StatusOf(t: Tables, p: Id, k: nat): Status
    requires p in t.pipelines && k < |t.pipelines[p].jobIDs| && t.pipelines[p].jobIDs[k] in t.jobs
  {
    t.jobs[t.pipelines[p].jobIDs[k]].status
  }

  lemma NamingStarts(t: Tables, p: Id)
    requires Coherent(t) && p in t.pipelines
    ensures Naming(t, p, 0, map[])
  {
    hide Coherent;
  }

  lemma NamingGoesOn(t: Tables, p: Id, i: nat, states: map<string, Status>)
    requires Naming(t, p, i, states) && i < |t.pipelines[p].jobIDs|
    ensures t.pipelines[p].jobIDs[i] in t.jobs
    ensures Naming(t, p, i + 1, states[NameOf(t, p, i) := StatusOf(t, p, i)])
  {
    assert PipelineRefs(t, p);
    hide Coherent;
    assert Has(t, p, t.pipelines[p].jobIDs[i]);
    var states' := states[NameOf(t, p, i) := StatusOf(t, p, i)];
    forall k | 0 <= k < i ensures NameOf(t, p, k) != NameOf(t, p, i) {
      NamesDiffer(t, p, k, i);
    }
    forall name | name in states' ensures exists k :: 0 <= k < i + 1 && NameOf(t, p, k) == name {
      if name in states {
        var k :| 0 <= k < i && NameOf(t, p, k) == name;
      } else {
        assert NameOf(t, p, i) == name;
      }
    }
  }

  lemma NamingDone(t: Tables, p: Id, states: map<string, Status>)
    requires p in t.pipelines && Naming(t, p, |t.pipelines[p].jobIDs|, states)
    ensures forall name :: (name in states && states[name] == Succeeded) <==> NeedMet(t, p, name)
  {
    assert PipelineRefs(t, p);
    hide Coherent;
    var ids := t.pipelines[p].jobIDs;
    forall name ensures (name in states && states[name] == Succeeded) <==> NeedMet(t, p, name) {
      if k :| 0 <= k < |ids| && NameOf(t, p, k) == name {
        OnlyOneNamed(t, p, k, name);
      } else {
        assert forall j :: Has(t, p, j) ==> j in ids;
        NobodyNamed(t, p, name);
      }
    }
  }

  lemma NobodyNamed(t: Tables, p: Id, name: string)
    requires PipelineRefs(t, p)
    requires forall k :: 0 <= k < |t.pipelines[p].jobIDs| ==>
      t.pipelines[p].jobIDs[k] in t.jobs && NameOf(t, p, k) != name
    ensures !NeedMet(t, p, name)
  {
    forall j | Has(t, p, j) ensures t.jobs[j].name != name {
      var k :| 0 <= k < |t.pipelines[p].jobIDs| && t.pipelines[p].jobIDs[k] == j;
      assert NameOf(t, p, k) == t.jobs[j].name;
    }
  }

  predicate EntryBefore(x: Entry, y: Entry) {
    JobBefore(x.job, y.job)
  }

  lemma EntryOrderIsWeak()
    ensures WeakOrder(EntryBefore)
  {
  }

  // list holds the runnable jobs of the tenant among the given ones, each once.
  ghost predicate ListsSome(t: Tables, list: seq<Entry>, tenant: string, among: set<Id>) {
    && (forall i, k :: 0 <= i < k < |list| ==> list[i].id != list[k].id)
    && (forall i :: 0 <= i < |list| ==> list[i].id in among && IsEntry(t, list[i], tenant))
    && (forall j :: j in among && Runnable(t, j) && t.jobs[j].tenant == tenant ==> Entry(j, t.jobs[j]) in list)
  }

  ghost predicate IsEntry(t: Tables, e: Entry, tenant: string) {
    Runnable(t, e.id) && t.jobs[e.id] == e.job && e.job.tenant == tenant
  }

  ghost predicate Lists(t: Tables, list: seq<Entry>, tenant: string) {
    ListsSome(t, list, tenant, t.jobs.Keys) && SortedBy(list, EntryBefore)
  }

  lemma SortedListsToo(t: Tables, list: seq<Entry>, sorted: seq<Entry>, tenant: string)
    requires ListsSome(t, list, tenant, t.jobs.Keys) && multiset(sorted) == multiset(list)
    requires SortedBy(sorted, EntryBefore)
    ensures Lists(t, sorted, tenant) && |sorted| == |list|
  {
    hide IsEntry, Runnable, EntryBefore;
    assert Distinct(list);
    SameElements(list, sorted);
    forall i | 0 <= i < |sorted| ensures IsEntry(t, sorted[i], tenant) && sorted[i].id in t.jobs {
      assert sorted[i] in sorted;
      assert sorted[i] in list;
    }
    forall i, k | 0 <= i < k < |sorted| ensures sorted[i].id != sorted[k].id {
      EntriesDiffer(t, sorted, tenant, i, k);
    }
  }

  // The lists that are not to do are in order.
  ghost predicate Sorting(t: Tables, lists: map<string, seq<Entry>>, sorted: map<string, seq<Entry>>,
                          todo: set<string>) {
    && todo <= lists.Keys == sorted.Keys
    && (forall tenant :: tenant in lists ==>
          ListsSome(t, lists[tenant], tenant, t.jobs.Keys) && lists[tenant] != [])
    && (forall tenant :: tenant in lists && tenant !in todo ==>
          Lists(t, sorted[tenant], tenant) && sorted[tenant] != [])
  }

  lemma SortingStarts(t: Tables, lists: map<string, seq<Entry>>)
    requires forall tenant :: tenant in lists ==>
      ListsSome(t, lists[tenant], tenant, t.jobs.Keys) && lists[tenant] != []
    ensures Sorting(t, lists, lists, lists.Keys)
  {
    hide ListsSome, Lists;
  }

  lemma SortingAt(t: Tables, lists: map<string, seq<Entry>>, sorted: map<string, seq<Entry>>, todo: set<string>,
                  tenant: string)
    requires Sorting(t, lists, sorted, todo) && tenant in todo
    ensures tenant in lists
  {
    hide ListsSome, Lists;
  }

  lemma SortingGoesOn(t: Tables, lists: map<string, seq<Entry>>, sorted: map<string, seq<Entry>>, todo: set<string>,
                      tenant: string, list: seq<Entry>)
    requires Sorting(t, lists, sorted, todo) && tenant in todo && tenant in lists
    requires multiset(list) == multiset(lists[tenant]) && SortedBy(list, EntryBefore)
    ensures Sorting(t, lists, sorted[tenant := list], todo - {tenant})
  {
    hide ListsSome, Lists, EntryBefore;
    SortedListsToo(t, lists[tenant], list, tenant);
  }

  lemma SortingDone(t: Tables, lists: map<string, seq<Entry>>, sorted: map<string, seq<Entry>>)
    requires Sorting(t, lists, sorted, {})
    ensures sorted.Keys == lists.Keys
    ensures forall tenant :: tenant in sorted ==> Lists(t, sorted[tenant], tenant) && sorted[tenant] != []
  {
    hide ListsSome, Lists;
  }

  lemma EntriesDiffer(t: Tables, list: seq<Entry>, tenant: string, i: nat, k: nat)
    requires Distinct(list) && i < k < |list| && IsEntry(t, list[i], tenant) && IsEntry(t, list[k], tenant)
    ensures list[i].id != list[k].id
  {
  }

  // The lists hold the runnable jobs that are not still to do, and no list is empty.
  ghost predicate Listing(t: Tables, lists: map<string, seq<Entry>>, todo: set<Id>) {
    && (forall tenant :: tenant in lists ==>
          ListsSome(t, lists[tenant], tenant, t.jobs.Keys - todo) && lists[tenant] != [])
    && (forall j :: Runnable(t, j) && j !in todo ==> t.jobs[j].tenant in lists)
  }

  function Enlisted(lists: map<string, seq<Entry>>, j: Id, job: Job): map<string, seq<Entry>> {
    lists[job.tenant := (if job.tenant in lists then lists[job.tenant] else []) + [Entry(j, job)]]
  }

  lemma ListingStarts(t: Tables)
    ensures Listing(t, map[], t.jobs.Keys)
  {
  }

  lemma ListingGoesOn(t: Tables, lists: map<string, seq<Entry>>, todo: set<Id>, j: Id)
    requires todo <= t.jobs.Keys && j in todo && Listing(t, lists, todo)
    ensures Listing(t, if Runnable(t, j) then Enlisted(lists, j, t.jobs[j]) else lists, todo - {j})
  {
    hide NeedsMet, ListsSome;
    var done := t.jobs.Keys - todo;
    assert t.jobs.Keys - (todo - {j}) == done + {j};
    ListsMore(t, lists, done, j);
    hide Runnable;
  }

  lemma ListingDone(t: Tables, lists: map<string, seq<Entry>>)
    requires Listing(t, lists, {})
    ensures forall tenant :: tenant in lists ==> ListsSome(t, lists[tenant], tenant, t.jobs.Keys) && lists[tenant] != []
    ensures forall j :: Runnable(t, j) ==> t.jobs[j].tenant in lists
  {
    hide ListsSome, Runnable;
    assert t.jobs.Keys - {} == t.jobs.Keys;
  }

  // One more job: only its own tenant's list can grow.
  lemma ListsMore(t: Tables, lists: map<string, seq<Entry>>, done: set<Id>, j: Id)
    requires forall tenant :: tenant in lists ==> ListsSome(t, lists[tenant], tenant, done)
    requires j in t.jobs && j !in done
    requires forall k :: Runnable(t, k) && k in done ==> t.jobs[k].tenant in lists
    ensures forall tenant ::
      tenant in lists && !(Runnable(t, j) && t.jobs[j].tenant == tenant) ==>
        ListsSome(t, lists[tenant], tenant, done + {j})
    ensures Runnable(t, j) ==>
      ListsSome(t, (if t.jobs[j].tenant in lists then lists[t.jobs[j].tenant] else []) + [Entry(j, t.jobs[j])],
                t.jobs[j].tenant, done + {j})
  {
    hide NeedsMet;
    if Runnable(t, j) {
      var tenant := t.jobs[j].tenant;
      var before := if tenant in lists then lists[tenant] else [];
      assert ListsSome(t, before, tenant, done);
      ListsOneMore(t, before, tenant, done, j);
    }
  }

  lemma ListsOneMore(t: Tables, before: seq<Entry>, tenant: string, done: set<Id>, j: Id)
    requires ListsSome(t, before, tenant, done) && Runnable(t, j) && t.jobs[j].tenant == tenant && j !in done
    ensures ListsSome(t, before + [Entry(j, t.jobs[j])], tenant, done + {j})
  {
    hide NeedsMet;
    var after := before + [Entry(j, t.jobs[j])];
    assert after[|before|] == Entry(j, t.jobs[j]);
    forall k | k in done + {j} && Runnable(t, k) && t.jobs[k].tenant == tenant ensures Entry(k, t.jobs[k]) in after {
      if k != j {
        assert Entry(k, t.jobs[k]) in before;
      }
    }
  }

  // Of the listed attempts those still active are cancelled, and nothing else changes.
  ghost predicate CancelsIn(x: map<Id, Attempt>, y: map<Id, Attempt>, ids: seq<Id>, now: Time) {
    && y.Keys == x.Keys
    && forall a :: a in x ==> y[a] == if a in ids && IsActive(x[a].status) then CancelledRecord(x[a], now) else x[a]
  }

  ghost function PendingOf(t: Tables, ids: seq<Id>): set<Id> {
    set j | j in t.jobs && j in ids && !IsTerminal(t.jobs[j].status)
  }

  // Exactly the given jobs are cancelled, with their active attempts.
  ghost predicate CancelledSet(t: Tables, t': Tables, done: set<Id>, now: Time) {
    && t' == t.(jobs := t'.jobs, attempts := t'.attempts, tally := t.tally.(cancelled := t.tally.cancelled + |done|))
    && CancelledJobs(t, t', done) && CancelledAttempts(t, t', done, now)
  }

  ghost predicate CancelledJobs(t: Tables, t': Tables, done: set<Id>) {
    && t'.jobs.Keys == t.jobs.Keys
    && forall j :: j in t.jobs ==> t'.jobs[j] == if j in done then t.jobs[j].(status := Cancelled) else t.jobs[j]
  }

  ghost predicate CancelledAttempts(t: Tables, t': Tables, done: set<Id>, now: Time) {
    && t'.attempts.Keys == t.attempts.Keys
    && forall a :: a in t.attempts ==> t'.attempts[a] == CancelledIf(t.attempts[a], done, now)
  }

  function CancelledIf(record: Attempt, done: set<Id>, now: Time): Attempt {
    if IsActive(record.status) && record.jobID in done then CancelledRecord(record, now) else record
  }

  lemma StillListed(t: Tables, t': Tables, done: set<Id>, j: Id, now: Time)
    requires Refs(t) && CancelledSet(t, t', done, now) && j in t.jobs && j !in done
    ensures j in t'.jobs && t'.jobs[j] == t.jobs[j]
    ensures forall a :: a in t.jobs[j].attemptIDs ==> a in t'.attempts
  {
    ListedAttempts(t, j);
    hide Refs;
  }

  lemma ListedAttempts(t: Tables, j: Id)
    requires Refs(t) && j in t.jobs
    ensures forall a :: a in t.jobs[j].attemptIDs <==> a in t.attempts && t.attempts[a].jobID == j
  {
    assert JobRefs(t, j);
    forall a | a in t.attempts && t.attempts[a].jobID == j ensures a in t.jobs[j].attemptIDs {
      assert AttemptRefs(t, a);
    }
    hide Refs;
  }

  lemma NothingPending(t: Tables, ids: seq<Id>, now: Time)
    ensures CancelledSet(t, t, PendingOf(t, ids[..0]), now)
  {
    assert PendingOf(t, ids[..0]) == {};
  }

  lemma PendingMore(t: Tables, p: Id, i: nat)
    requires Refs(t) && p in t.pipelines && i < |t.pipelines[p].jobIDs|
    ensures var ids := t.pipelines[p].jobIDs;
      && ids[i] in t.jobs && ids[i] !in PendingOf(t, ids[..i])
      && PendingOf(t, ids[..i + 1])
           == if IsTerminal(t.jobs[ids[i]].status) then PendingOf(t, ids[..i]) else PendingOf(t, ids[..i]) + {ids[i]}
  {
    var ids := t.pipelines[p].jobIDs;
    assert PipelineRefs(t, p);
    assert Has(t, p, ids[i]);
    hide Refs;
    assert ids[..i + 1] == ids[..i] + [ids[i]];
  }

  lemma CancelledOneMore(t: Tables, t1: Tables, t2: Tables, done: set<Id>, j: Id, now: Time)
    requires Refs(t) && j in t.jobs && j !in done && CancelledSet(t, t1, done, now)
    requires t2 == t1.(jobs := t1.jobs[j := t1.jobs[j].(status := Cancelled)], attempts := t2.attempts,
                       tally := t1.tally.(cancelled := t1.tally.cancelled + 1))
    requires CancelsIn(t1.attempts, t2.attempts, t.jobs[j].attemptIDs, now)
    ensures CancelledSet(t, t2, done + {j}, now)
  {
    ListedAttempts(t, j);
    hide Refs;
    assert CancelledJobs(t, t2, done + {j});
    hide CancelledJobs;
    assert CancelledAttempts(t, t2, done + {j}, now);
  }

  lemma CancelledAll(t: Tables, t': Tables, p: Id, now: Time)
    requires Refs(t) && p in t.pipelines && CancelledSet(t, t', PendingOf(t, t.pipelines[p].jobIDs), now)
    ensures t' == CancelJobs(t, {p}, now)
  {
    assert PipelineRefs(t, p);
    assert forall j :: j in t.pipelines[p].jobIDs <==> Has(t, p, j);
    hide Refs;
    assert PendingOf(t, t.pipelines[p].jobIDs) == DoomedJobs(t, {p});
    hide PendingOf;
    CancelledAllAttempts(t, t', p, now);
    var t2 := CancelJobs(t, {p}, now);
    assert t'.jobs == t2.jobs;
    hide CancelledJobs, CancelledAttempts, DoomedJobs;
  }

  lemma CancelledAllAttempts(t: Tables, t': Tables, p: Id, now: Time)
    requires CancelledAttempts(t, t', DoomedJobs(t, {p}), now)
    ensures t'.attempts == CancelJobs(t, {p}, now).attempts
  {
    assert forall j :: j in DoomedJobs(t, {p}) <==> Doomed(t, {p}, j);
    hide DoomedJobs, Doomed;
  }

  lemma ListedJobs(t: Tables, p: Id)
    requires Refs(t) && p in t.pipelines
    ensures forall j :: j in t.pipelines[p].jobIDs ==> j in t.jobs
  {
    assert PipelineRefs(t, p);
    assert forall j :: j in t.pipelines[p].jobIDs ==> Has(t, p, j);
  }

  lemma ActivateNone(s: State, p: Id, ids: seq<Id>, now: Time, late: bool)
    ensures ActivateJobs(s, p, ids[..0], now, late) == s
  {
  }

  lemma ActivateMore(s: State, p: Id, ids: seq<Id>, i: nat, now: Time, late: bool)
    requires i < |ids|
    ensures ActivateJobs(s, p, ids[..i + 1], now, late)
      == ActivateFor(ActivateJobs(s, p, ids[..i], now, late), p, ids[i], now, late)
  {
    assert ids[..i + 1][..i] == ids[..i];
    hide ActivateFor;
  }

  lemma KeyIs(q: Pipeline)
    ensures KeyOf(q) == PreviewKey(q.repo, q.pr)
  {
  }

  lemma MarkOne(t: Tables, p: Id)
    requires p in t.pipelines && Refs(t)
    ensures MarkCancelled(t, {p}) == WithStatus(t, p, Cancelled) && Refs(WithStatus(t, p, Cancelled))
  {
    var t1, t2 := MarkCancelled(t, {p}), WithStatus(t, p, Cancelled);
    assert t1.pipelines == t2.pipelines;
    StatusKeepsRefs(t, p, Cancelled);
  }

  lemma StatusKeepsRefs(t: Tables, p: Id, status: Status)
    requires p in t.pipelines && Refs(t)
    ensures Refs(WithStatus(t, p, status))
  {
    ShapeKeepsRefs(t, WithStatus(t, p, status));
  }

  // Of the pipeline's first jobs none failed, and whether all of them succeeded is known.
  ghost predicate Scanned(t: Tables, p: Id, i: nat, allSucceeded: bool) {
    && p in t.pipelines && PipelineRefs(t, p) && i <= |t.pipelines[p].jobIDs|
    && (forall j :: j in t.pipelines[p].jobIDs[..i] ==> j in t.jobs && t.jobs[j].status != Failed)
    && (allSucceeded <==> forall j :: j in t.pipelines[p].jobIDs[..i] ==> j in t.jobs && t.jobs[j].status == Succeeded)
  }

  lemma ScanStarts(t: Tables, p: Id)
    requires p in t.pipelines && Refs(t)
    ensures Scanned(t, p, 0, true)
  {
    assert PipelineRefs(t, p);
  }

  lemma ScanGoesOn(t: Tables, p: Id, i: nat, allSucceeded: bool)
    requires Scanned(t, p, i, allSucceeded) && i < |t.pipelines[p].jobIDs|
    ensures var j := t.pipelines[p].jobIDs[i];
      && j in t.jobs
      && (if t.jobs[j].status == Failed then AnyFailed(t, p)
          else Scanned(t, p, i + 1, allSucceeded && t.jobs[j].status == Succeeded))
  {
    var ids := t.pipelines[p].jobIDs;
    assert Has(t, p, ids[i]);
    assert ids[..i + 1] == ids[..i] + [ids[i]];
  }

  // What the scan over the jobs found out.
  lemma Verdict(t: Tables, p: Id, allSucceeded: bool)
    requires p in t.pipelines && Scanned(t, p, |t.pipelines[p].jobIDs|, allSucceeded)
    ensures !AnyFailed(t, p) && (allSucceeded <==> AllSucceeded(t, p))
  {
    var ids := t.pipelines[p].jobIDs;
    assert ids[..|ids|] == ids;
    forall j | Has(t, p, j) ensures j in ids {
    }
  }

  lemma UpdateCases(s: State, p: Id, now: Time)
    requires p in s.tables.pipelines
    ensures var t, s' := s.tables, Model.UpdatePipeline(s, p, now);
      if AnyFailed(t, p) then s' == WithTables(s, CancelJobs(WithStatus(t, p, Failed), {p}, now))
      else if AllSucceeded(t, p)
      then s' == ActivateJobs(WithTables(s, WithStatus(t, p, Succeeded)), p, t.pipelines[p].jobIDs, now, false)
      else s' == WithTables(s, WithStatus(t, p, Running))
  {
  }

  lemma SettleKeepsRefs(t: Tables, a: Id, record: Attempt)
    requires Coherent(t) && Finishes(t, a, record)
    ensures Located(t, a) && Refs(Settle(t, a, record))
  {
    hide Plans, Statuses, NeedsHeld, Refs;
    ActiveIsLast(t, a);
    hide Coherent;
    ShapeKeepsRefs(t, Settle(t, a, record));
  }

  // A job that just failed makes its pipeline fail, so nothing is activated.
  lemma ExhaustionFails(t: Tables, a: Id, record: Attempt, now: Time)
    requires Located(t, a) && record.status == Failed
    ensures AnyFailed(Settle(t, a, record), PipelineOf(t, a))
  {
    assert Has(Settle(t, a, record), PipelineOf(t, a), t.attempts[a].jobID);
  }

  // ---- The scheduler's choice ----

  // What a worker is handed.
  datatype AttemptLease = AttemptLease(id: Id, attempt: Attempt, job: Job, pipeline: Pipeline)

  ghost function LeaseOf(t: Tables, a: Id): AttemptLease
    requires Located(t, a)
  {
    AttemptLease(a, t.attempts[a], t.jobs[t.attempts[a].jobID], t.pipelines[PipelineOf(t, a)])
  }

  // Everything from start on comes behind last; if there is no such tenant the round starts over.
  ghost predicate StartsBehind(tenants: seq<string>, last: string, start: nat) {
    if last == "" then start == 0
    else
      || (start < |tenants| && (forall k :: 0 <= k < start ==> !Less(last, tenants[k]))
          && forall k :: start <= k < |tenants| ==> Less(last, tenants[k]))
      || (start == 0 && forall k :: 0 <= k < |tenants| ==> !Less(last, tenants[k]))
  }

  ghost predicate FirstEligible(s: State, w: Id, spec: JobSpec, now: Time) {
    Eligible(s, w, spec, now) && forall v :: Eligible(s, v, spec, now) && v != w ==> Less(w, v)
  }

  ghost predicate NoneOf(s: State, tenant: string, now: Time) {
    forall j :: Placeable(s, j, now) ==> s.tables.jobs[j].tenant != tenant
  }

  function TenantAt(tenants: seq<string>, start: nat, offset: nat): string
    requires tenants != []
  {
    tenants[(start + offset) % |tenants|]
  }

  ghost predicate AllPassed(s: State, tenants: seq<string>, start: nat, offset: nat, now: Time) {
    forall o: nat {:trigger TenantAt(tenants, start, o)} :: o < offset && tenants != [] ==>
      NoneOf(s, TenantAt(tenants, start, o), now)
  }

  lemma IndexAt(start: nat, offset: nat, n: nat)
    requires start <= n && offset < n
    ensures (start + offset) % n == if start + offset < n then start + offset else start + offset - n
  {
  }

  // Offsets from the start are the turn order.
  lemma OffsetsAreTurns(tenants: seq<string>, last: string, start: nat, i: nat, k: nat)
    requires forall x, y :: 0 <= x < y < |tenants| ==> Less(tenants[x], tenants[y])
    requires StartsBehind(tenants, last, start) && i < k < |tenants|
    ensures TurnBefore(last, TenantAt(tenants, start, i), TenantAt(tenants, start, k))
  {
    IndexAt(start, i, |tenants|);
    IndexAt(start, k, |tenants|);
    hide Less;
  }

  lemma QuotaReached(s: State, tenant: string, now: Time)
    requires |ActiveJobs(s.tables, tenant)| >= TenantLimit(s.config, tenant)
    ensures NoneOf(s, tenant, now)
  {
    hide ActiveJobs, TenantLimit, Used, Runnable, Eligible;
  }

  lemma NothingInList(s: State, list: seq<Entry>, tenant: string, now: Time)
    requires Lists(s.tables, list, tenant) && forall k :: 0 <= k < |list| ==> !Placeable(s, list[k].id, now)
    ensures NoneOf(s, tenant, now)
  {
    hide WithinTenant, Eligible, NeedsMet, Lists;
    forall j | Placeable(s, j, now) ensures s.tables.jobs[j].tenant != tenant {
      if s.tables.jobs[j].tenant == tenant {
        var k := ListedAt(s.tables, list, tenant, j);
      }
    }
  }

  lemma ListedAt(t: Tables, list: seq<Entry>, tenant: string, j: Id) returns (k: nat)
    requires Lists(t, list, tenant) && Runnable(t, j) && t.jobs[j].tenant == tenant
    ensures k < |list| && list[k] == Entry(j, t.jobs[j])
  {
    hide NeedsMet;
    k :| 0 <= k < |list| && list[k] == Entry(j, t.jobs[j]);
  }

  lemma CanPlace(s: State, e: Entry, tenant: string, w: Id, now: Time)
    requires IsEntry(s.tables, e, tenant) && Eligible(s, w, e.job.spec, now)
    requires |ActiveJobs(s.tables, tenant)| < TenantLimit(s.config, tenant)
    requires var used := Used(s.tables, tenant, "");
      && used.cpu + e.job.spec.resources.cpu <= s.config.tenantCPU
      && used.memory + e.job.spec.resources.memory <= s.config.tenantMemory
    ensures Placeable(s, e.id, now)
  {
    hide Used, Eligible, NeedsMet, ActiveJobs, TenantLimit;
  }

  // An entry that exceeds its tenant's quota cannot be placed.
  lemma CannotPlace(s: State, e: Entry, tenant: string, now: Time)
    requires IsEntry(s.tables, e, tenant)
    requires var used := Used(s.tables, tenant, "");
      || used.cpu + e.job.spec.resources.cpu > s.config.tenantCPU
      || used.memory + e.job.spec.resources.memory > s.config.tenantMemory
    ensures !Placeable(s, e.id, now)
  {
    hide Used, Eligible, NeedsMet, ActiveJobs, TenantLimit;
  }

  lemma NoWorkerTakes(s: State, e: Entry, tenant: string, now: Time)
    requires IsEntry(s.tables, e, tenant) && forall w :: !Eligible(s, w, e.job.spec, now)
    ensures !Placeable(s, e.id, now)
  {
    hide Used, Eligible, NeedsMet, ActiveJobs, TenantLimit;
  }

  lemma OffsetOf(start: nat, x: nat, n: nat) returns (o: nat)
    requires start <= n && x < n
    ensures o < n && (start + o) % n == x
  {
    o := if x >= start then x - start else x - start + n;
    assert start + o == x || start + o == x + n;
  }

  // Every job that can be placed belongs to a listed tenant.
  ghost predicate Covers(s: State, tenants: seq<string>, now: Time) {
    forall j :: Placeable(s, j, now) ==> s.tables.jobs[j].tenant in tenants
  }

  // The tenants that have runnable jobs, in order, with the lists of those jobs and the tenant to start from.
  ghost predicate Turns(s: State, byTenant: map<string, seq<Entry>>, tenants: seq<string>, start: nat, now: Time) {
    && (forall x, y :: 0 <= x < y < |tenants| ==> Less(tenants[x], tenants[y]))
    && StartsBehind(tenants, s.lastTenant, start) && start <= |tenants| && Covers(s, tenants, now)
    && forall tenant :: tenant in tenants ==> tenant in byTenant && Lists(s.tables, byTenant[tenant], tenant)
  }

  lemma TurnsListed(s: State, byTenant: map<string, seq<Entry>>, tenants: seq<string>, start: nat, now: Time)
    requires forall j :: Runnable(s.tables, j) ==> s.tables.jobs[j].tenant in byTenant
    requires forall tenant :: tenant in byTenant ==> Lists(s.tables, byTenant[tenant], tenant)
    requires forall tenant :: tenant in tenants <==> tenant in byTenant
    requires forall x, y :: 0 <= x < y < |tenants| ==> Less(tenants[x], tenants[y])
    requires StartsBehind(tenants, s.lastTenant, start) && start <= |tenants|
    ensures Turns(s, byTenant, tenants, start, now) && AllPassed(s, tenants, start, 0, now)
  {
    hide WithinTenant, Eligible, NeedsMet, Less, StartsBehind, Lists;
  }

  lemma TurnOfTenant(s: State, byTenant: map<string, seq<Entry>>, tenants: seq<string>, start: nat, offset: nat,
                     now: Time)
    requires Turns(s, byTenant, tenants, start, now) && offset < |tenants|
    ensures var tenant := TenantAt(tenants, start, offset);
      && tenant == tenants[(start + offset) % |tenants|]
      && tenant in byTenant && Lists(s.tables, byTenant[tenant], tenant)
  {
    hide Less, StartsBehind, Lists, Covers;
    assert TenantAt(tenants, start, offset) in tenants;
  }

  lemma PassedOn(s: State, tenants: seq<string>, start: nat, offset: nat, now: Time)
    requires AllPassed(s, tenants, start, offset, now) && offset < |tenants|
    requires NoneOf(s, TenantAt(tenants, start, offset), now)
    ensures AllPassed(s, tenants, start, offset + 1, now)
  {
    hide NoneOf;
  }

  // No other tenant that could be served comes earlier.
  ghost predicate ItsTurn(s: State, tenant: string, now: Time) {
    forall k :: Placeable(s, k, now) && s.tables.jobs[k].tenant != tenant ==>
      TurnBefore(s.lastTenant, tenant, s.tables.jobs[k].tenant)
  }

  lemma TurnFound(s: State, byTenant: map<string, seq<Entry>>, tenants: seq<string>, start: nat, offset: nat, g: Grant,
                  now: Time)
    requires Turns(s, byTenant, tenants, start, now) && offset < |tenants| && AllPassed(s, tenants, start, offset, now)
    requires FirstOfTenant(s, TenantAt(tenants, start, offset), g, now)
    ensures IsGrant(s, g, now)
  {
    hide NeedsMet, WithinTenant, Eligible, TurnBefore, StartsBehind, Lists, FirstOfTenant, IsGrant, Less, TenantAt;
    var tenant := TenantAt(tenants, start, offset);
    forall k | Placeable(s, k, now) && s.tables.jobs[k].tenant != tenant
      ensures TurnBefore(s.lastTenant, tenant, s.tables.jobs[k].tenant)
    {
      var o := TurnOf(s, tenants, start, k, now);
      assert o >= offset;
      OffsetsAreTurns(tenants, s.lastTenant, start, offset, o);
    }
    GrantFound(s, tenant, g, now);
  }

  lemma TurnOf(s: State, tenants: seq<string>, start: nat, k: Id, now: Time) returns (o: nat)
    requires Covers(s, tenants, now) && Placeable(s, k, now) && start <= |tenants|
    ensures k in s.tables.jobs && o < |tenants| && TenantAt(tenants, start, o) == s.tables.jobs[k].tenant
  {
    hide NeedsMet, WithinTenant, Eligible;
    var x :| 0 <= x < |tenants| && tenants[x] == s.tables.jobs[k].tenant;
    o := OffsetOf(start, x, |tenants|);
  }

  // The first job of the tenant that can be placed, on the first worker that takes it.
  ghost predicate FirstOfTenant(s: State, tenant: string, g: Grant, now: Time) {
    && Placeable(s, g.job, now) && s.tables.jobs[g.job].tenant == tenant
    && FirstEligible(s, g.worker, s.tables.jobs[g.job].spec, now)
    && forall k :: Placeable(s, k, now) && s.tables.jobs[k].tenant == tenant && k != g.job
         ==> JobBefore(s.tables.jobs[g.job], s.tables.jobs[k])
  }

  lemma FirstPicked(s: State, list: seq<Entry>, tenant: string, i: nat, w: Id, now: Time)
    requires Sound(s) && Lists(s.tables, list, tenant) && i < |list|
    requires Placeable(s, list[i].id, now) && FirstEligible(s, w, list[i].job.spec, now)
    requires forall k :: 0 <= k < i ==> !Placeable(s, list[k].id, now)
    ensures FirstOfTenant(s, tenant, Grant(list[i].id, w), now)
  {
    hide WithinTenant, Eligible, NeedsMet, Coherent, Bounded, JobBefore;
    assert IsEntry(s.tables, list[i], tenant);
    forall k | Placeable(s, k, now) && s.tables.jobs[k].tenant == tenant && k != list[i].id
      ensures JobBefore(list[i].job, s.tables.jobs[k])
    {
      var x := ListedAt(s.tables, list, tenant, k);
      assert !(x < i);
      assert !EntryBefore(list[x], list[i]);
      JobOrderIsTotal(s.tables, list[i].id, k);
    }
  }

  lemma GrantFound(s: State, tenant: string, g: Grant, now: Time)
    requires FirstOfTenant(s, tenant, g, now) && ItsTurn(s, tenant, now)
    ensures IsGrant(s, g, now)
  {
    hide WithinTenant, Eligible, NeedsMet, TurnBefore, JobBefore;
  }

  lemma NothingToGrant(s: State, byTenant: map<string, seq<Entry>>, tenants: seq<string>, start: nat, now: Time)
    requires Turns(s, byTenant, tenants, start, now)
    requires AllPassed(s, tenants, start, |tenants|, now)
    ensures forall j :: !Placeable(s, j, now)
  {
    hide Placeable;
    forall j ensures !Placeable(s, j, now) {
      if Placeable(s, j, now) {
        var o := TurnOf(s, tenants, start, j, now);
      }
    }
  }

  lemma CanGrant(s: State, g: Grant, now: Time)
    requires Sound(s) && GrantFits(s, Some(g), now)
    ensures Runnable(s.tables, g.job) && Grantable(s, g) && JobRefs(s.tables, g.job)
  {
    GrantIsRunnable(s, g, now);
    assert JobRefs(s.tables, g.job);
    hide IsGrant, Numbered, Bounded;
  }

  lemma LeaseIsThere(s: State, g: Grant, a: Id, token: string, now: Time)
    requires Grantable(s, g)
    ensures var t' := Place(s, Some(g), a, token, now).tables;
      Located(t', a) && LeaseOf(t', a)
        == AttemptLease(a, t'.attempts[a], t'.jobs[g.job], t'.pipelines[t'.jobs[g.job].pipelineID])
  {
  }

  // ---- Completions ----

  lemma LocateAttempt(t: Tables, a: Id)
    requires Coherent(t) && a in t.attempts
    ensures Located(t, a)
  {
    assert AttemptRefs(t, a) && JobRefs(t, t.attempts[a].jobID);
  }

  lemma AttemptIsLocated(s: State, a: Id)
    requires Sound(s) && a in s.tables.attempts
    ensures Located(s.tables, a)
  {
    LocateAttempt(s.tables, a);
  }

  lemma JobIsLocated(s: State, j: Id)
    requires Sound(s) && j in s.tables.jobs
    ensures Refs(s.tables) && s.tables.jobs[j].pipelineID in s.tables.pipelines
  {
    assert JobRefs(s.tables, j);
  }

  lemma HeldFinishes(t: Tables, a: Id, token: string, record: Attempt, now: Time)
    requires Coherent(t) && LeaseHeld(t, a, token, now) && (record.status == Succeeded || record.status == Failed)
    requires record == CompletedRecord(t.attempts[a], record.status == Succeeded, record.message, now)
    ensures Finishes(t, a, record)
  {
    hide Coherent;
  }

  // The attempt already ended the way that is reported.
  predicate Reported(record: Attempt, token: string, success: bool, message: string) {
    record.token == token && record.status == (if success then Succeeded else Failed) && record.message == message
  }

  // The token is that of an active attempt whose lease has not run out.
  predicate Holds(record: Attempt, token: string, now: Time) {
    IsActive(record.status) && record.token == token && now < record.leaseExpires
  }

  // Saving what an attempt reported does not disturb the tables.
  lemma MetadataKeepsCoherent(s: State, a: Id, report: Report)
    requires Sound(s) && a in s.tables.attempts
    ensures Coherent(WithAttempt(s.tables, a, Annotated(s.tables.attempts[a], report)))
  {
    hide Coherent;
    MetadataKeepsStatuses(s.tables, a, report);
    hide Statuses, Sound;
    ShapeKeepsCoherent(s.tables, WithAttempt(s.tables, a, Annotated(s.tables.attempts[a], report)));
  }

  lemma MetadataKeepsStatuses(t: Tables, a: Id, report: Report)
    requires Coherent(t) && a in t.attempts
    ensures Statuses(WithAttempt(t, a, Annotated(t.attempts[a], report)))
  {
    var t' := WithAttempt(t, a, Annotated(t.attempts[a], report));
    hide Refs, Plans, NeedsHeld;
    forall b | b in t'.attempts ensures AttemptOk(t', b) {
      assert AttemptOk(t, b);
    }
    forall p | p in t'.pipelines ensures PipelineFits(t', p) {
      assert PipelineFits(t, p);
      assert Board(t', p) == Board(t, p);
    }
    hide AttemptOk, PipelineFits;
  }

  lemma MetadataIsOverwritten(s: State, a: Id, report: Report, now: Time)
    requires Located(s.tables, a)
    ensures var record := Annotated(s.tables.attempts[a], report);
      var s1 := WithTables(s, WithAttempt(s.tables, a, record));
      var committed := CommittedRecord(s.tables.attempts[a], report, now);
      && CompletedRecord(record, report.success, report.message, now) == committed
      && Located(s1.tables, a) && Commit(s1, a, committed, now) == Commit(s, a, committed, now)
  {
    var record := Annotated(s.tables.attempts[a], report);
    var committed := CommittedRecord(s.tables.attempts[a], report, now);
    var t1 := WithAttempt(s.tables, a, record);
    assert t1.attempts[a := committed] == s.tables.attempts[a := committed];
    assert Settle(t1, a, committed) == Settle(s.tables, a, committed);
  }

  lemma CancelEndsJob(s: State, j: Id, now: Time)
    requires MayCancel(s.tables, j)
    ensures var t' := Cancel(s, j, now).tables; j in t'.jobs && IsTerminal(t'.jobs[j].status)
  {
    CancelTables(s, j, now);
    hide Cancel;
  }

  // ---- Reconciling ----

  // The pipelines not in todo were looked at in the given order.
  ghost predicate Ensuring(s: State, s': State, order: seq<Id>, todo: set<Id>, now: Time) {
    && todo <= s.tables.pipelines.Keys && Enumerates(order, s.tables.pipelines.Keys - todo)
    && s' == Ensure(s, order, now) && s'.tables == s.tables
  }

  lemma EnsuringStarts(s: State, now: Time)
    requires Sound(s)
    ensures Ensuring(s, s, [], s.tables.pipelines.Keys, now) && Refs(s.tables)
  {
    hide Numbered, Bounded;
  }

  lemma EnsuringGoesOn(s: State, s': State, order: seq<Id>, todo: set<Id>, p: Id, now: Time)
    requires Ensuring(s, s', order, todo, now) && p in todo
    ensures p in s'.tables.pipelines && s'.tables == s.tables
    ensures Ensuring(s, EnsureOne(s', p, now), order + [p], todo - {p}, now)
  {
    assert (order + [p])[..|order|] == order;
    EnsureTouches(s, order + [p], now);
    assert s.tables.pipelines.Keys - (todo - {p}) == s.tables.pipelines.Keys - todo + {p};
    hide EnsureOne;
  }

  lemma EnsuringDone(s: State, s': State, order: seq<Id>, now: Time)
    requires Sound(s) && Ensuring(s, s', order, {}, now)
    ensures Enabled(s, EnsureStep(order, now)) && s' == Ensure(s, order, now) && Sound(s')
  {
    hide Sound;
    assert s.tables.pipelines.Keys - {} == s.tables.pipelines.Keys;
    hide Ensure;
    StepKeepsSound(s, EnsureStep(order, now));
  }

  // One round of ageing.
  ghost function AgedOne(s: State, key: PRKey, now: Time): State
    requires key in s.previews
  {
    if Removable(Aged(s.previews[key], now)) then CountDeleted(s.(previews := s.previews - {key}), 1)
    else WithPreview(s, key, Aged(s.previews[key], now))
  }

  // Keys still in todo are as they were, the others aged or gone, and those that went were counted.
  ghost predicate Aging(s: State, s': State, todo: set<PRKey>, deleted: nat, now: Time) {
    && todo <= s.previews.Keys && s' == CountDeleted(s.(previews := s'.previews), deleted)
    && s'.previews.Keys <= s.previews.Keys
    && (forall k :: k in s.previews ==> AgingKey(s.previews[k], s'.previews, todo, k, now))
    && deleted == |Gone(s, now) * (s.previews.Keys - todo)|
  }

  ghost predicate AgingKey(v: Preview, y: map<PRKey, Preview>, todo: set<PRKey>, k: PRKey, now: Time) {
    if k in todo then k in y && y[k] == v
    else (k in y <==> !Removable(Aged(v, now))) && (k in y ==> y[k] == Aged(v, now))
  }

  lemma AgingStarts(s: State, now: Time)
    ensures Aging(s, s, s.previews.Keys, 0, now)
  {
    hide Removable, Aged;
    assert Gone(s, now) * (s.previews.Keys - s.previews.Keys) == {};
  }

  lemma AgingGoesOn(s: State, s': State, todo: set<PRKey>, deleted: nat, key: PRKey, now: Time)
    requires Aging(s, s', todo, deleted, now) && key in todo
    ensures key in s'.previews
    ensures var gone := if Removable(Aged(s'.previews[key], now)) then 1 else 0;
      Aging(s, AgedOne(s', key, now), todo - {key}, deleted + gone, now)
  {
    hide Removable, Aged, Gone;
    assert AgingKey(s.previews[key], s'.previews, todo, key, now);
    CountedGone(s, todo, key, now);
    AgingKeys(s, s'.previews, AgedOne(s', key, now).previews, todo, key, now);
    hide AgingKey;
    AgedCount(s, s', deleted, key, now);
    hide CountDeleted;
  }

  lemma AgedCount(s: State, s': State, deleted: nat, key: PRKey, now: Time)
    requires key in s'.previews && s' == CountDeleted(s.(previews := s'.previews), deleted)
    ensures var s2, gone := AgedOne(s', key, now), if Removable(Aged(s'.previews[key], now)) then 1 else 0;
      s2 == CountDeleted(s.(previews := s2.previews), deleted + gone)
  {
    hide Removable, Aged;
  }

  lemma CountedGone(s: State, todo: set<PRKey>, key: PRKey, now: Time)
    requires key in todo && todo <= s.previews.Keys
    ensures |Gone(s, now) * (s.previews.Keys - (todo - {key}))|
      == |Gone(s, now) * (s.previews.Keys - todo)| + if Removable(Aged(s.previews[key], now)) then 1 else 0
  {
    hide Removable, Aged;
    assert key in Gone(s, now) <==> Removable(Aged(s.previews[key], now));
    hide Gone;
    SplitCount(Gone(s, now), s.previews.Keys, todo, key);
  }

  lemma AgingKeys(s: State, y: map<PRKey, Preview>, z: map<PRKey, Preview>, todo: set<PRKey>, key: PRKey, now: Time)
    requires y.Keys <= s.previews.Keys && key in todo && key in s.previews
    requires forall k :: k in s.previews ==> AgingKey(s.previews[k], y, todo, k, now)
    requires z == if Removable(Aged(s.previews[key], now)) then y - {key} else y[key := Aged(s.previews[key], now)]
    ensures z.Keys <= s.previews.Keys
    ensures forall k :: k in s.previews ==> AgingKey(s.previews[k], z, todo - {key}, k, now)
  {
    hide Removable, Aged;
    forall k | k in s.previews ensures AgingKey(s.previews[k], z, todo - {key}, k, now) {
      assert AgingKey(s.previews[k], y, todo, k, now);
    }
  }

  lemma AgingDone(s: State, s': State, deleted: nat, now: Time)
    requires Aging(s, s', {}, deleted, now)
    ensures s' == AgePreviews(s, now) && deleted == |Gone(s, now)|
  {
    assert Gone(s, now) * (s.previews.Keys - {}) == Gone(s, now);
    hide Removable, Aged, Gone, CountDeleted;
    AgedAll(s, s'.previews, now);
    hide AgingKey, KeptPreviews;
  }

  lemma AgedAll(s: State, y: map<PRKey, Preview>, now: Time)
    requires y.Keys <= s.previews.Keys && forall k :: k in s.previews ==> AgingKey(s.previews[k], y, {}, k, now)
    ensures s.(previews := y) == KeptPreviews(s, now)
  {
    hide Removable, Aged;
    forall k | k in s.previews ensures AgingKey(s.previews[k], y, {}, k, now) {
    }
    assert y == KeptPreviews(s, now).previews;
  }

  // The listed jobs and their attempts are gone.
  ghost predicate Left(t: Tables, t': Tables, ids: seq<Id>) {
    && t' == t.(jobs := t'.jobs, attempts := t'.attempts)
    && t'.jobs == t.jobs - (set j | j in ids)
    && t'.attempts == map a | a in t.attempts && t.attempts[a].jobID !in ids :: t.attempts[a]
  }

  lemma NothingLeft(t: Tables, ids: seq<Id>)
    ensures Left(t, t, ids[..0])
  {
  }

  lemma LeftOneMore(t: Tables, t1: Tables, p: Id, i: nat)
    requires Refs(t) && p in t.pipelines && i < |t.pipelines[p].jobIDs| && Left(t, t1, t.pipelines[p].jobIDs[..i])
    ensures var ids := t.pipelines[p].jobIDs;
      && ids[i] in t1.jobs && t1.jobs[ids[i]] == t.jobs[ids[i]]
      && Left(t, t1.(jobs := t1.jobs - {ids[i]}, attempts := t1.attempts - (set a | a in t.jobs[ids[i]].attemptIDs)),
              ids[..i + 1])
  {
    var ids := t.pipelines[p].jobIDs;
    assert PipelineRefs(t, p);
    assert Has(t, p, ids[i]) && ids[i] !in ids[..i];
    ListedAttempts(t, ids[i]);
    assert ids[..i + 1] == ids[..i] + [ids[i]];
    hide Refs;
    var longer := ids[..i + 1];
    assert t1.jobs - {ids[i]} == t.jobs - (set j | j in longer);
  }

  lemma LeftAll(t: Tables, t': Tables, p: Id)
    requires Refs(t) && p in t.pipelines && Left(t, t', t.pipelines[p].jobIDs)
    ensures t'.(pipelines := t'.pipelines - {p}) == Drop(t, {p})
  {
    var ids := t.pipelines[p].jobIDs;
    assert PipelineRefs(t, p);
    assert forall j :: j in ids <==> Has(t, p, j);
    assert forall a :: a in t.attempts ==> t.attempts[a].jobID in t.jobs by {
      forall a | a in t.attempts ensures t.attempts[a].jobID in t.jobs {
        assert AttemptRefs(t, a);
      }
    }
    hide Refs;
    assert t'.pipelines - {p} == Drop(t, {p}).pipelines;
    assert t'.jobs == Drop(t, {p}).jobs;
    assert t'.attempts == Drop(t, {p}).attempts;
  }

  lemma NothingDropped(t: Tables)
    ensures Drop(t, {}) == t
  {
    var t' := Drop(t, {});
    assert t'.pipelines == t.pipelines && t'.jobs == t.jobs && t'.attempts == t.attempts;
  }

  lemma DropLeaves(t: Tables, gone: set<Id>, p: Id)
    requires p in t.pipelines && p !in gone
    ensures p in Drop(t, gone).pipelines && Drop(t, gone).pipelines[p] == t.pipelines[p]
  {
  }

  lemma DropTwice(t: Tables, gone: set<Id>, p: Id)
    requires Refs(Drop(t, gone))
    ensures Drop(Drop(t, gone), {p}) == Drop(t, gone + {p})
  {
    DropTwiceAttempts(t, gone, p);
    hide Refs;
    var t1, t2 := Drop(Drop(t, gone), {p}), Drop(t, gone + {p});
    assert t1.pipelines == t2.pipelines;
    assert t1.jobs == t2.jobs;
  }

  lemma DropTwiceAttempts(t: Tables, gone: set<Id>, p: Id)
    requires Refs(Drop(t, gone))
    ensures Drop(Drop(t, gone), {p}).attempts == Drop(t, gone + {p}).attempts
  {
    var t' := Drop(t, gone);
    forall a | a in t'.attempts ensures t'.attempts[a].jobID in t'.jobs {
      assert AttemptRefs(t', a);
    }
    hide Refs;
    assert Drop(t', {p}).attempts == Drop(t, gone + {p}).attempts;
  }

  // Of the pipelines not in todo the prunable ones are gone.
  ghost predicate Pruning(s: State, s': State, gone: set<Id>, todo: set<Id>, now: Time) {
    && todo <= s.tables.pipelines.Keys && gone <= s.tables.pipelines.Keys - todo
    && s' == WithTables(s, Drop(s.tables, gone)) && Refs(s'.tables)
    && forall p :: p in s.tables.pipelines && p !in todo ==> (p in gone <==> Prunable(s, p, now))
  }

  lemma PruningStarts(s: State, now: Time)
    requires Sound(s)
    ensures Pruning(s, s, {}, s.tables.pipelines.Keys, now)
  {
    NothingDropped(s.tables);
    JobsLinked(s);
    hide Sound, Drop, Refs, Prunable;
  }

  // A pipeline still to be looked at is there, and prunable exactly if it was at the start.
  lemma PruningAt(s: State, s': State, gone: set<Id>, todo: set<Id>, p: Id, now: Time)
    requires Pruning(s, s', gone, todo, now) && p in todo
    ensures p in s'.tables.pipelines && Refs(s'.tables) && (Prunable(s', p, now) <==> Prunable(s, p, now))
  {
    DropLeaves(s.tables, gone, p);
    hide Drop, Refs;
  }

  lemma PruningSkips(s: State, s': State, gone: set<Id>, todo: set<Id>, p: Id, now: Time)
    requires Pruning(s, s', gone, todo, now) && p in todo && !Prunable(s, p, now)
    ensures Pruning(s, s', gone, todo - {p}, now)
  {
    hide Drop, Refs, Prunable;
  }

  lemma PruningDrops(s: State, s': State, gone: set<Id>, todo: set<Id>, p: Id, now: Time)
    requires Pruning(s, s', gone, todo, now) && p in todo && Prunable(s, p, now)
    ensures Pruning(s, WithTables(s', Drop(s'.tables, {p})), gone + {p}, todo - {p}, now)
  {
    DropRefs(s'.tables, {p});
    DropTwice(s.tables, gone, p);
    hide Drop, Refs, Prunable;
  }

  lemma PruningDone(s: State, s': State, gone: set<Id>, now: Time)
    requires Pruning(s, s', gone, {}, now)
    ensures s' == Prune(s, now)
  {
    hide Drop, Refs, Prunable;
    assert gone == set p | p in s.tables.pipelines && Prunable(s, p, now);
  }

  // ---- Steps that are always enabled keep what the methods rely on ----

  lemma ScheduleReads(s: State, order: seq<Id>, grant: Option<Grant>, a: Id, token: string, now: Time)
    requires Sound(s) && Enabled(s, ScheduleStep(order, grant, a, token, now))
    ensures RoundGrants(SweepState(s, order, now), Schedule(s, order, grant, a, token, now), a, token, now)
  {
    hide Coherent, Numbered, Bounded, RoundGrants, Schedule, SweepState, GrantFits;
    ScheduleGrants(s, ScheduleStep(order, grant, a, token, now));
  }

  lemma ScheduleIsEnabled(s: State, order: seq<Id>, grant: Option<Grant>, a: Id, token: string, now: Time)
    requires Sound(s) && Enumerates(order, s.tables.attempts.Keys) && GrantFits(SweepState(s, order, now), grant, now)
    requires a !in s.tables.issued && a != ""
    ensures Enabled(s, ScheduleStep(order, grant, a, token, now)) && Sound(Schedule(s, order, grant, a, token, now))
  {
    hide Sound, Schedule, GrantFits;
    StepKeepsSound(s, ScheduleStep(order, grant, a, token, now));
  }

  lemma BeatReads(s: State, a: Id, token: string, now: Time)
    requires Sound(s)
    ensures Held(s.tables, a, token, now) ==>
      var s' := Beat(s, a, token, now);
      && a in s'.tables.attempts && BeatAnswer(s, a, token, now) == Success(s'.tables.attempts[a])
      && s'.tables.attempts[a].status == Running
      && s'.tables.attempts[a].leaseExpires == now + s.config.leaseTTL
  {
    hide Coherent, Numbered, Bounded, Held, Beat, BeatAnswer;
    if Held(s.tables, a, token, now) {
      BeatRenews(s, a, token, now);
    }
  }

  lemma BeatIsSound(s: State, a: Id, token: string, now: Time)
    requires Sound(s)
    ensures Sound(Beat(s, a, token, now))
  {
    hide Sound, Beat;
    StepKeepsSound(s, BeatStep(a, token, now));
  }

  lemma FinishIsSound(s: State, a: Id, token: string, report: Report, now: Time)
    requires Sound(s)
    ensures Sound(Finish(s, a, token, report, now))
  {
    hide Sound, Finish;
    StepKeepsSound(s, FinishStep(a, token, report, now));
  }

  lemma CancelIsSound(s: State, j: Id, now: Time)
    requires Sound(s)
    ensures Sound(Cancel(s, j, now))
  {
    hide Sound, Cancel;
    StepKeepsSound(s, CancelStep(j, now));
  }

  lemma ObserveIsSound(s: State, p: Preview, actual: Status, url: string, lastError: string)
    requires Sound(s)
    ensures Sound(Observe(s, p, actual, url, lastError))
  {
    hide Sound, Observe;
    StepKeepsSound(s, ObserveStep(p, actual, url, lastError, 0));
  }

  lemma RegisterIsSound(s: State, w: Id, worker: Worker, now: Time)
    requires Sound(s)
    ensures Sound(Register(s, w, worker, now))
  {
    hide Sound, Register;
    StepKeepsSound(s, RegisterStep(w, worker, now));
  }

  lemma WorkerBeatIsSound(s: State, w: Id, now: Time)
    requires Sound(s)
    ensures Sound(WorkerBeat(s, w, now))
  {
    hide Sound, WorkerBeat;
    StepKeepsSound(s, WorkerBeatStep(w, now));
  }

  lemma CheckIsSound(s: State, p: Id, check: int, state: Status)
    requires Sound(s)
    ensures Sound(RecordCheck(s, p, check, state))
  {
    hide Sound, RecordCheck;
    StepKeepsSound(s, CheckStep(p, check, state, 0));
  }

  lemma AgingIsSound(s: State, now: Time)
    requires Sound(s)
    ensures Sound(AgePreviews(s, now))
  {
    hide Coherent, Numbered, Gone, Removable, Aged;
    var s' := AgePreviews(s, now);
    forall p | p in s'.tables.pipelines ensures BoundedAt(s', p) {
      assert BoundedAt(s, p);
    }
  }

  lemma JobsLinked(s: State)
    requires Sound(s)
    ensures Refs(s.tables)
  {
  }

  // ---- Submission ----

  // Only the preview under the key may differ, and only in what deletion sets.
  ghost predicate AtMostTombstoned(x: map<PRKey, Preview>, y: map<PRKey, Preview>, key: PRKey) {
    && y.Keys == x.Keys && (forall k :: k in x && k != key ==> y[k] == x[k])
    && (key in x ==>
          y[key] == x[key].(desired := y[key].desired, generation := y[key].generation,
                            updatedAt := y[key].updatedAt))
  }

  lemma NothingCancelled(t: Tables, now: Time)
    requires Coherent(t)
    ensures CancelPipelines(t, {}, now) == t && Refs(t)
  {
    var t' := CancelPipelines(t, {}, now);
    assert DoomedJobs(t, {}) == {};
    assert t'.pipelines == t.pipelines && t'.jobs == t.jobs && t'.attempts == t.attempts;
  }

  lemma SupersededIs(t: Tables, input: Submission, p: Id)
    requires p in t.pipelines
    ensures p in Superseded(t, input) <==>
      t.pipelines[p].repo == input.repo && t.pipelines[p].pr == input.pr && !IsTerminal(t.pipelines[p].status)
  {
  }

  lemma SupersededWithin(t: Tables, input: Submission)
    ensures Superseded(t, input) <= t.pipelines.Keys
  {
  }

  lemma CancelLeaves(t: Tables, done: set<Id>, p: Id, now: Time)
    requires p in t.pipelines && p !in done
    ensures p in CancelPipelines(t, done, now).pipelines && CancelPipelines(t, done, now).pipelines[p] == t.pipelines[p]
  {
  }

  lemma CancelMore(t: Tables, done: set<Id>, p: Id, now: Time)
    requires Coherent(t) && p in t.pipelines && p !in done
    ensures CancelPipelines(CancelPipelines(t, done, now), {p}, now) == CancelPipelines(t, done + {p}, now)
    ensures Refs(CancelPipelines(t, done + {p}, now))
  {
    CancelKeepsRefs(t, done + {p}, now);
    hide Coherent, Refs;
    CancelledTwice(t, done, p, now);
    CancelledTwiceJobs(t, done, p, now);
    CancelledTwiceTally(t, done, p, now);
    hide CancelPipelines;
  }

  lemma CancelKeepsRefs(t: Tables, ps: set<Id>, now: Time)
    requires Coherent(t)
    ensures Refs(CancelPipelines(t, ps, now))
  {
    CancelPipelinesShape(t, ps, now);
    hide CancelPipelines, SameShape;
    ShapeKeepsRefs(t, CancelPipelines(t, ps, now));
  }

  lemma CancelledTwiceTally(t: Tables, done: set<Id>, p: Id, now: Time)
    requires p !in done
    ensures var x, y := CancelPipelines(CancelPipelines(t, done, now), {p}, now), CancelPipelines(t, done + {p}, now);
      x.tally == y.tally && x.sequence == y.sequence && x.issued == y.issued
  {
    DoomedStays(t, done, p, now);
    DoomedSplit(t, done, p);
    DoomedUnmarked(t, done);
    DoomedUnmarked(t, done + {p});
    DoomedUnmarked(CancelPipelines(t, done, now), {p});
    hide DoomedJobs;
  }

  lemma DoomedUnmarked(t: Tables, ps: set<Id>)
    ensures forall qs :: DoomedJobs(MarkCancelled(t, qs), ps) == DoomedJobs(t, ps)
  {
    forall qs ensures DoomedJobs(MarkCancelled(t, qs), ps) == DoomedJobs(t, ps) {
      assert forall j :: Doomed(MarkCancelled(t, qs), ps, j) == Doomed(t, ps, j);
    }
  }

  lemma CancelledTwiceJobs(t: Tables, done: set<Id>, p: Id, now: Time)
    ensures var x, y := CancelPipelines(CancelPipelines(t, done, now), {p}, now), CancelPipelines(t, done + {p}, now);
      x.jobs == y.jobs && x.pipelines == y.pipelines
  {
    hide DoomedJobs;
  }

  lemma DoomedStays(t: Tables, done: set<Id>, p: Id, now: Time)
    requires p !in done
    ensures DoomedJobs(CancelPipelines(t, done, now), {p}) == DoomedJobs(t, {p})
  {
  }

  lemma CancelledTwice(t: Tables, done: set<Id>, p: Id, now: Time)
    requires p !in done
    ensures CancelPipelines(CancelPipelines(t, done, now), {p}, now).attempts
      == CancelPipelines(t, done + {p}, now).attempts
  {
    hide CancelPipelines;
    var x, y := CancelPipelines(CancelPipelines(t, done, now), {p}, now), CancelPipelines(t, done + {p}, now);
    forall a ensures a in x.attempts <==> a in y.attempts
             ensures a in x.attempts ==> x.attempts[a] == y.attempts[a] {
      CancelledTwiceAt(t, done, p, a, now);
    }
  }

  lemma CancelledTwiceAt(t: Tables, done: set<Id>, p: Id, a: Id, now: Time)
    ensures var x, y := CancelPipelines(CancelPipelines(t, done, now), {p}, now), CancelPipelines(t, done + {p}, now);
      && (a in x.attempts <==> a in y.attempts)
      && (a in x.attempts ==> x.attempts[a] == y.attempts[a])
  {
    hide DoomedJobs;
  }

  // However often the preview was tombstoned on the way, burying it leaves the same preview.
  lemma BuriedAnyway(x: map<PRKey, Preview>, y: map<PRKey, Preview>, key: PRKey, generation: int, now: Time)
    requires AtMostTombstoned(x, y, key)
    ensures BuriedUnder(y, key, generation, now) == BuriedUnder(x, key, generation, now)
  {
    assert key in x ==> Buried(y[key], generation, now) == Buried(x[key], generation, now);
  }

  lemma AdvancesTo(s: State, input: Submission, now: Time)
    ensures input.pr <= 0 ==> Advance(s, input, now) == s
    ensures input.pr > 0 ==> Advance(s, input, now) == s.(
      tables := CancelPipelines(s.tables, Superseded(s.tables, input), now),
      prStates := s.prStates[SubmissionKey(input) := NextClock(s, input, now)],
      previews := BuriedUnder(s.previews, SubmissionKey(input), Prior(s, input).generation + 1, now))
  {
    hide CancelPipelines, Superseded;
  }

  lemma ClockReads(s: State, input: Submission, now: Time)
    ensures var key := PreviewKey(input.repo, input.pr);
      var eventTime := if input.eventTime == 0 then now else input.eventTime;
      var prior := if key in s.prStates then s.prStates[key] else PRState(0, false, 0, "");
      && SubmissionKey(input) == key && Prior(s, input) == prior
      && NextClock(s, input, now) == PRState(eventTime, input.closed, prior.generation + 1, input.commit)
      && GenerationOf(s, input) == if input.pr > 0 then prior.generation + 1 else prior.generation
  {
  }

  // The superseded pipelines outside todo are cancelled.
  ghost predicate Superseding(s: State, t: Tables, previews: map<PRKey, Preview>, input: Submission, done: set<Id>,
                              todo: set<Id>, now: Time) {
    && Coherent(s.tables) && todo <= s.tables.pipelines.Keys && done <= s.tables.pipelines.Keys - todo
    && t == CancelPipelines(s.tables, done, now) && Refs(t)
    && (forall p :: p in s.tables.pipelines && p !in todo ==> (p in done <==> p in Superseded(s.tables, input)))
    && AtMostTombstoned(s.previews, previews, SubmissionKey(input))
  }

  lemma SupersedingStarts(s: State, input: Submission, now: Time)
    requires Coherent(s.tables)
    ensures Superseding(s, s.tables, s.previews, input, {}, s.tables.pipelines.Keys, now)
  {
    NothingCancelled(s.tables, now);
    hide CancelPipelines, Superseded, Coherent;
  }

  lemma SupersedingAt(s: State, t: Tables, previews: map<PRKey, Preview>, input: Submission, done: set<Id>,
                      todo: set<Id>, p: Id, now: Time)
    requires Superseding(s, t, previews, input, done, todo, now) && p in todo
    ensures Refs(t) && p in t.pipelines && t.pipelines[p] == s.tables.pipelines[p]
  {
    CancelLeaves(s.tables, done, p, now);
    hide CancelPipelines, Superseded, Coherent;
  }

  lemma SupersedingSkips(s: State, t: Tables, previews: map<PRKey, Preview>, input: Submission, done: set<Id>,
                         todo: set<Id>, p: Id, now: Time)
    requires Superseding(s, t, previews, input, done, todo, now) && p in todo
    requires var q := s.tables.pipelines[p]; !(q.repo == input.repo && q.pr == input.pr && !IsTerminal(q.status))
    ensures Superseding(s, t, previews, input, done, todo - {p}, now)
  {
    SupersededIs(s.tables, input, p);
    hide CancelPipelines, Superseded, Coherent, Refs;
  }

  lemma SupersedingCancels(s: State, t: Tables, previews: map<PRKey, Preview>, t': Tables, previews': map<PRKey,
                           Preview>,
                           input: Submission, done: set<Id>, todo: set<Id>, p: Id, now: Time)
    requires Superseding(s, t, previews, input, done, todo, now) && p in todo && p in t.pipelines
    requires var q := s.tables.pipelines[p]; q.repo == input.repo && q.pr == input.pr && !IsTerminal(q.status)
    requires input.pr > 0 && t' == CancelPipelines(t, {p}, now)
    requires previews' == Tombstoned(previews, KeyOf(s.tables.pipelines[p]), now)
    ensures Superseding(s, t', previews', input, done + {p}, todo - {p}, now)
  {
    hide CancelPipelines, Superseded, Coherent, Refs, AtMostTombstoned, Tombstoned;
    SupersededIs(s.tables, input, p);
    CancelMore(s.tables, done, p, now);
    TombstonedMore(s.previews, previews, SubmissionKey(input), now);
  }

  lemma TombstonedMore(x: map<PRKey, Preview>, y: map<PRKey, Preview>, key: PRKey, now: Time)
    requires AtMostTombstoned(x, y, key)
    ensures AtMostTombstoned(x, Tombstoned(y, key, now), key)
  {
  }

  lemma CancelOneParts(s: State, p: Id, now: Time)
    requires p in s.tables.pipelines
    ensures var s' := CancelOne(s, p, now);
      && s'.tables == CancelPipelines(s.tables, {p}, now)
      && s'.previews == if s.tables.pipelines[p].pr > 0 then Tombstoned(s.previews, KeyOf(s.tables.pipelines[p]), now)
        else s.previews
  {
    hide CancelPipelines, KeyOf;
  }

  lemma SupersedingDone(s: State, t: Tables, previews: map<PRKey, Preview>, input: Submission, done: set<Id>, now: Time)
    requires Superseding(s, t, previews, input, done, {}, now)
    ensures t == CancelPipelines(s.tables, Superseded(s.tables, input), now)
    ensures AtMostTombstoned(s.previews, previews, SubmissionKey(input))
  {
    SupersededWithin(s.tables, input);
    hide CancelPipelines, Superseded, Coherent, Refs;
    assert done == Superseded(s.tables, input);
  }

  // The first i planned jobs were added.
  ghost predicate Adding(t: Tables, jobs: map<Id, Job>, input: Submission, order: seq<string>, p: Id, ids: seq<Id>,
                         i: nat, now: Time)
    requires |ids| == |order| && i <= |ids| && forall n :: n in order ==> n in input.spec.jobs
  {
    && (forall k :: k in jobs <==> k in t.jobs || k in ids[..i])
    && (forall k :: k in t.jobs ==> jobs[k] == t.jobs[k])
    && (forall m :: 0 <= m < i ==> jobs[ids[m]] == NewJob(input, p, order[m], t.sequence + 1 + m, now))
  }

  lemma AddingStarts(t: Tables, input: Submission, order: seq<string>, p: Id, ids: seq<Id>, now: Time)
    requires |ids| == |order| && forall n :: n in order ==> n in input.spec.jobs
    ensures Adding(t, t.jobs, input, order, p, ids, 0, now)
  {
  }

  lemma AddingMore(t: Tables, jobs: map<Id, Job>, input: Submission, order: seq<string>, p: Id, ids: seq<Id>, i: nat,
                   now: Time)
    requires AllIssued(t) && MayCreate(t, input, order, p, ids) && i < |ids|
    requires Adding(t, jobs, input, order, p, ids, i, now)
    ensures Adding(t, jobs[ids[i] := NewJob(input, p, order[i], t.sequence + 1 + i, now)], input, order, p, ids, i + 1,
                   now)
  {
    assert ids[..i + 1] == ids[..i] + [ids[i]];
    assert ids[i] in ids && ids[i] !in t.jobs;
    forall m | 0 <= m < i ensures ids[m] != ids[i] && ids[m] in ids[..i] {
    }
    hide NewJob;
  }

  lemma AddingAgrees(t: Tables, jobs: map<Id, Job>, input: Submission, order: seq<string>, p: Id, ids: seq<Id>,
                     now: Time)
    requires |ids| == |order| && Distinct(ids) && forall n :: n in order ==> n in input.spec.jobs
    requires Adding(t, jobs, input, order, p, ids, |ids|, now)
    ensures var added := NewJobs(input, order, p, ids, t.sequence, now);
      (forall k :: k in added <==> k in ids) && forall m :: 0 <= m < |ids| ==>
        ids[m] in jobs && jobs[ids[m]] == added[ids[m]]
  {
    assert ids[..|ids|] == ids;
    hide NewJobs, NewJob;
    NewJobsListed(input, order, p, ids, t.sequence, now);
  }

  lemma AddingKeys(t: Tables, jobs: map<Id, Job>, input: Submission, order: seq<string>, p: Id, ids: seq<Id>, now: Time)
    requires |ids| == |order| && forall n :: n in order ==> n in input.spec.jobs
    requires Adding(t, jobs, input, order, p, ids, |ids|, now)
    ensures (forall k :: k in jobs <==> k in t.jobs || k in ids) && forall k :: k in t.jobs ==> jobs[k] == t.jobs[k]
  {
    assert ids[..|ids|] == ids;
    hide NewJob;
  }

  lemma AddingDone(t: Tables, jobs: map<Id, Job>, input: Submission, order: seq<string>, p: Id, ids: seq<Id>,
                   generation: int, now: Time)
    requires AllIssued(t) && MayCreate(t, input, order, p, ids) && Adding(t, jobs, input, order, p, ids, |ids|, now)
    ensures jobs == Create(t, input, order, p, ids, generation, now).jobs
  {
    assert forall k :: k in ids ==> k !in t.jobs;
    hide NewJobs, NewPipeline, Adding, AllIssued;
    AddingAgrees(t, jobs, input, order, p, ids, now);
    AddingKeys(t, jobs, input, order, p, ids, now);
    Joins(t.jobs, jobs, NewJobs(input, order, p, ids, t.sequence, now), ids);
  }

  lemma Joins(x: map<Id, Job>, y: map<Id, Job>, added: map<Id, Job>, ids: seq<Id>)
    requires (forall k :: k in added <==> k in ids) && (forall k :: k in y <==> k in x || k in ids)
    requires forall m :: 0 <= m < |ids| ==> y[ids[m]] == added[ids[m]]
    requires (forall k :: k in ids ==> k !in x) && forall k :: k in x ==> y[k] == x[k]
    ensures y == x + added
  {
  }

  ghost function Redirected(s: State, requestID: string, p: Id): State {
    s.(inbox := s.inbox.(deliveries := s.inbox.deliveries[requestID := p]))
  }

  lemma AcceptedClosed(s: State, input: Submission, p: Id, ids: seq<Id>, now: Time)
    requires IdsFor(input, ids) && WellFormed(input) && input.closed
    ensures CountAccepted(Remember(Advance(s, input, now), input, "")) == Accept(s, input, p, ids, now)
  {
    hide Advance;
  }

  lemma AcceptedOpen(s: State, input: Submission, p: Id, ids: seq<Id>, now: Time)
    requires IdsFor(input, ids) && WellFormed(input) && !input.closed
    ensures var s2 := CountAccepted(Remember(Advance(s, input, now), input, ""));
      && Planner.Plan(input.spec).Some?
      && Redirected(Admit(s2, input, p, ids, GenerationOf(s, input), now), input.requestID, p)
        == Accept(s, input, p, ids, now)
  {
    var s1 := Advance(s, input, now);
    hide Advance, Create, GenerationOf;
    UpdatedTwice(s1.inbox.deliveries, input.requestID, "", p);
  }

  lemma UpdatedTwice<K, V>(m: map<K, V>, k: K, v: V, w: V)
    ensures m[k := v][k := w] == m[k := w]
  {
  }

  // What a submission leaves behind and answers.
  ghost predicate Outcome(s: State, s': State, input: Submission, p: Id, ids: seq<Id>, pick: Id, now: Time,
                          answer: Answer) {
    && IdsFor(input, ids)
    && (Classify(s, input, now) == Known ==> SameRevision(s.tables, input, Prior(s, input).generation, pick))
    && s' == Submit(s, input, p, ids, pick, now)
    && answer == SubmitAnswer(s, input, p, pick, now)
  }

  lemma OutcomeIsSubmit(s: State, s': State, input: Submission, p: Id, ids: seq<Id>, pick: Id, now: Time,
                        answer: Answer)
    requires Outcome(s, s', input, p, ids, pick, now, answer) && FreshIds(s.tables, p, ids)
    ensures Enabled(s, SubmitStep(input, p, ids, pick, now))
    ensures s' == Submit(s, input, p, ids, pick, now) && answer == SubmitAnswer(s, input, p, pick, now)
  {
    hide Submit, SubmitAnswer, Classify, SameRevision, FreshIds;
  }

  lemma MalformedOutcome(s: State, input: Submission, p: Id, ids: seq<Id>, now: Time)
    requires IdsFor(input, ids)
    ensures !WellFormed(input) ==> Outcome(s, s, input, p, ids, "", now, Rejected(Invalid))
  {
    hide WellFormed, Late, Overflows, Repeats, Accept, Join, IdsFor, SameRevision;
  }

  lemma SeenOutcome(s: State, input: Submission, p: Id, ids: seq<Id>, now: Time)
    requires IdsFor(input, ids) && WellFormed(input) && input.requestID in s.inbox.deliveries
    ensures if input.requestID in s.inbox.hashes && s.inbox.hashes[input.requestID] != input
      then Outcome(s, s, input, p, ids, "", now, Rejected(Conflict))
      else Outcome(s, CountDuplicate(s), input, p, ids, "", now,
                   Resolved(View(s.tables.pipelines, s.inbox.deliveries[input.requestID]), true))
  {
    ClassifySeen(s, input, now);
    hide Classify, WellFormed, Accept, Join, IdsFor, SameRevision, View;
  }

  lemma LateOutcome(s: State, input: Submission, p: Id, ids: seq<Id>, now: Time)
    requires IdsFor(input, ids) && WellFormed(input) && input.requestID !in s.inbox.deliveries && Late(s, input, now)
    ensures Outcome(s, Remember(s, input, ""), input, p, ids, "", now, Resolved("", true))
  {
    assert Classify(s, input, now) == Stale;
    hide Classify, WellFormed, Late, Accept, Join, IdsFor, SameRevision, Remember;
  }

  lemma FullOutcome(s: State, input: Submission, p: Id, ids: seq<Id>, now: Time)
    requires IdsFor(input, ids) && Classify(s, input, now) == Full
    ensures Outcome(s, s, input, p, ids, "", now, Rejected(Capacity))
  {
    hide Classify, Accept, Join, IdsFor, SameRevision;
  }

  lemma KnownOutcome(s: State, input: Submission, p: Id, ids: seq<Id>, pick: Id, now: Time)
    requires IdsFor(input, ids) && Classify(s, input, now) == Known
    requires SameRevision(s.tables, input, Prior(s, input).generation, pick)
    ensures Outcome(s, Join(s, input, pick, now), input, p, ids, pick, now, Resolved(pick, true))
  {
    hide Classify, Accept, Join, IdsFor, SameRevision;
  }

  lemma FreshOutcome(s: State, input: Submission, p: Id, ids: seq<Id>, now: Time)
    requires IdsFor(input, ids) && Classify(s, input, now) == Fresh && WellFormed(input)
    ensures Outcome(s, Accept(s, input, p, ids, now), input, p, ids, "", now,
                    Resolved(if input.closed then "" else p, false))
  {
    hide Classify, Accept, Join, IdsFor, SameRevision, WellFormed;
  }

  lemma OnTime(s: State, input: Submission, now: Time)
    requires WellFormed(input) && input.requestID !in s.inbox.deliveries && !Late(s, input, now)
    ensures Classify(s, input, now) == if Overflows(s, input) then Full else if Repeats(s, input) then Known else Fresh
  {
    hide WellFormed, Late, Overflows, Repeats;
  }

  lemma SubmitReads(s: State, input: Submission, p: Id, ids: seq<Id>, pick: Id, now: Time)
    requires Sound(s) && Enabled(s, SubmitStep(input, p, ids, pick, now))
    ensures Admission.JoinsOrStarts(s, Submit(s, input, p, ids, pick, now), input, p,
                                    SubmitAnswer(s, input, p, pick, now), now)
  {
    hide Coherent, Numbered, Bounded, Submit, SubmitAnswer, FreshIds, IdsFor, Classify;
    Admission.JoinsOrCreates(s, input, p, ids, pick, now);
  }

  lemma AdvanceIsSound(s: State, input: Submission, p: Id, ids: seq<Id>, now: Time)
    requires Sound(s) && FreshIds(s.tables, p, ids)
    ensures Bounded(s)
    ensures AllIssued(Advance(s, input, now).tables) && FreshIds(Advance(s, input, now).tables, p, ids)
  {
    AdvanceEvolves(s, input, now);
    hide Coherent, Numbered, Bounded, Advance, Evolves, AllIssued;
  }

  // ---- Assignments ----

  // leases holds the active attempts of the worker among the given ones, each once.
  ghost predicate Assigned(t: Tables, leases: seq<AttemptLease>, w: Id, among: set<Id>) {
    && (forall i, k :: 0 <= i < k < |leases| ==> leases[i].id != leases[k].id)
    && (forall i :: 0 <= i < |leases| ==> IsLease(t, leases[i], w) && leases[i].id in among)
    && (forall a :: a in among && a in t.attempts && t.attempts[a].workerID == w && IsActive(t.attempts[a].status) ==>
          Located(t, a) && LeaseOf(t, a) in leases)
  }

  ghost predicate IsLease(t: Tables, lease: AttemptLease, w: Id) {
    && Located(t, lease.id) && lease == LeaseOf(t, lease.id)
    && t.attempts[lease.id].workerID == w && IsActive(t.attempts[lease.id].status)
  }

  predicate LeaseBefore(x: AttemptLease, y: AttemptLease) {
    x.attempt.createdAt < y.attempt.createdAt
  }

  lemma AssignedMore(t: Tables, leases: seq<AttemptLease>, w: Id, among: set<Id>, a: Id)
    requires Assigned(t, leases, w, among) && Located(t, a) && a !in among
    ensures Assigned(t, if t.attempts[a].workerID == w && IsActive(t.attempts[a].status) then leases + [LeaseOf(t, a)]
                     else leases,
                     w, among + {a})
  {
    if t.attempts[a].workerID == w && IsActive(t.attempts[a].status) {
      AssignedOneMore(t, leases, w, among, a);
    }
  }

  lemma AssignedOneMore(t: Tables, leases: seq<AttemptLease>, w: Id, among: set<Id>, a: Id)
    requires Assigned(t, leases, w, among) && Located(t, a) && a !in among
    requires t.attempts[a].workerID == w && IsActive(t.attempts[a].status)
    ensures Assigned(t, leases + [LeaseOf(t, a)], w, among + {a})
  {
    hide LeaseOf;
    var more := leases + [LeaseOf(t, a)];
    assert more[|leases|] == LeaseOf(t, a);
    LeaseIsOf(t, a, w);
    hide IsLease, Located;
    forall b | b in among + {a} && b in t.attempts && t.attempts[b].workerID == w && IsActive(t.attempts[b].status)
      ensures Located(t, b) && LeaseOf(t, b) in more
    {
      if b != a {
        assert LeaseOf(t, b) in leases;
      }
    }
  }

  lemma LeaseIsOf(t: Tables, a: Id, w: Id)
    requires Located(t, a) && t.attempts[a].workerID == w && IsActive(t.attempts[a].status)
    ensures LeaseOf(t, a).id == a && IsLease(t, LeaseOf(t, a), w)
  {
  }

  lemma AssignedSorted(t: Tables, leases: seq<AttemptLease>, sorted: seq<AttemptLease>, w: Id)
    requires Assigned(t, leases, w, t.attempts.Keys) && multiset(sorted) == multiset(leases)
    ensures Assigned(t, sorted, w, t.attempts.Keys)
  {
    assert Distinct(leases);
    SameElements(leases, sorted);
    hide Located;
    forall i | 0 <= i < |sorted| ensures IsLease(t, sorted[i], w) && sorted[i].id in t.attempts {
      assert sorted[i] in sorted;
      assert sorted[i] in leases;
    }
    forall i, k | 0 <= i < k < |sorted| ensures sorted[i].id != sorted[k].id {
      assert sorted[i] != sorted[k];
    }
  }

  // Read off the records: exactly the worker's attempts under way, with their jobs and pipelines.
  lemma AssignedReads(t: Tables, leases: seq<AttemptLease>, w: Id)
    requires Assigned(t, leases, w, t.attempts.Keys)
    ensures forall i :: 0 <= i < |leases| ==>
      var lease := leases[i];
      && lease.id in t.attempts && lease.attempt == t.attempts[lease.id] && lease.attempt.workerID == w
      && (lease.attempt.status == Leased || lease.attempt.status == Running)
      && lease.attempt.jobID in t.jobs && lease.job == t.jobs[lease.attempt.jobID]
      && lease.job.pipelineID in t.pipelines && lease.pipeline == t.pipelines[lease.job.pipelineID]
    ensures forall a :: (a in t.attempts && t.attempts[a].workerID == w
                         && (t.attempts[a].status == Leased || t.attempts[a].status == Running)) ==>
      exists i :: 0 <= i < |leases| && leases[i].id == a
  {
    forall a | a in t.attempts && t.attempts[a].workerID == w
               && (t.attempts[a].status == Leased || t.attempts[a].status == Running)
      ensures exists i :: 0 <= i < |leases| && leases[i].id == a
    {
      assert LeaseOf(t, a) in leases;
      var i :| 0 <= i < |leases| && leases[i] == LeaseOf(t, a);
      assert leases[i].id == a;
    }
  }

  lemma ChoiceReads(s: State, choice: Option<Id>, spec: JobSpec, now: Time)
    requires if choice.Some? then Eligible(s, choice.value, spec, now) else forall v :: !Eligible(s, v, spec, now)
    ensures choice.Some? <==> exists v :: Suits(s, v, spec, now) && HasRoom(s, v, spec)
    ensures choice.Some? ==> Suits(s, choice.value, spec, now) && HasRoom(s, choice.value, spec)
  {
    hide Suits, HasRoom, Eligible;
    if choice.Some? {
      SuitableIsEligible(s, choice.value, spec, now);
    } else {
      forall v ensures !(Suits(s, v, spec, now) && HasRoom(s, v, spec)) {
        SuitableIsEligible(s, v, spec, now);
      }
    }
  }

  function SafeConfig(c: Config): Config {
    Config(if c.leaseTTL <= 0 then 30 * SECOND else c.leaseTTL,
           if c.workerTTL <= 0 then 45 * SECOND else c.workerTTL,
           if c.defaultTenantLimit <= 0 then 2 else c.defaultTenantLimit,
           c.tenantLimits,
           if c.previewBaseDomain == "" then "preview.local" else c.previewBaseDomain,
           if c.previewDeleteDelay <= 0 then 5 * SECOND else c.previewDeleteDelay,
           if c.maxQueuedJobs <= 0 then 1000 else c.maxQueuedJobs,
           if c.tenantCPU <= 0 then 16 else c.tenantCPU,
           if c.tenantMemory <= 0 then 32768 else c.tenantMemory,
           if c.retention <= 0 then 7 * 24 * 60 * MINUTE else c.retention)
  }

  // ---- The sweep ----

  lemma ExhaustionOnlyMovesTables(s: State, a: Id, record: Attempt, now: Time)
    requires Located(s.tables, a) && record.status == Failed
    ensures Commit(s, a, record, now) == WithTables(s, Complete(s.tables, a, record, now))
  {
    ExhaustionFails(s.tables, a, record, now);
    hide Settle, UpdateTables, AnyFailed, AllSucceeded;
  }

  // The attempts not in todo were looked at in the given order.
  ghost predicate Sweeping(s: State, s': State, order: seq<Id>, todo: set<Id>, count: nat, now: Time) {
    && todo <= s.tables.attempts.Keys && Enumerates(order, s.tables.attempts.Keys - todo)
    && s'.tables.attempts.Keys == s.tables.attempts.Keys && Coherent(s'.tables)
    && s' == SweepState(s, order, now) && count == Swept(s.tables, order, now)
  }

  lemma SweepingStarts(s: State, now: Time)
    requires Sound(s)
    ensures Sweeping(s, s, [], s.tables.attempts.Keys, 0, now)
  {
  }

  lemma SweepingAt(s: State, s': State, order: seq<Id>, todo: set<Id>, count: nat, a: Id, now: Time)
    requires Sweeping(s, s', order, todo, count, now) && a in todo
    ensures Coherent(s'.tables) && a in s'.tables.attempts
  {
  }

  lemma SweepingGoesOn(s: State, s': State, order: seq<Id>, todo: set<Id>, count: nat, a: Id, now: Time)
    requires Sweeping(s, s', order, todo, count, now) && a in todo
    ensures var s2 := WithTables(s', SweepOne(s'.tables, a, now));
      if Expired(s'.tables, a, now) then Sweeping(s, CountSwept(s2, 1), order + [a], todo - {a}, count + 1, now)
      else Sweeping(s, s2, order + [a], todo - {a}, count, now)
  {
    SweepOneKeeps(s'.tables, a, now);
    SweepOneNewAttempts(s'.tables, a, now);
    SweepStateMore(s, order, a, now);
    hide Coherent, SweepOne, Expired, SweepState, Swept;
    assert s.tables.attempts.Keys - (todo - {a}) == s.tables.attempts.Keys - todo + {a};
  }

  lemma SweepStateMore(s: State, order: seq<Id>, a: Id, now: Time)
    ensures var s' := SweepState(s, order, now); var s2 := WithTables(s', SweepOne(s'.tables, a, now));
      && SweepState(s, order + [a], now) == (if Expired(s'.tables, a, now) then CountSwept(s2, 1) else s2)
      && Swept(s.tables, order + [a], now) == Swept(s.tables, order, now) + if Expired(s'.tables, a, now) then 1 else 0
  {
    hide SweepOne, Expired;
    assert (order + [a])[..|order|] == order;
  }

  lemma SweepReads(s: State, order: seq<Id>, now: Time)
    requires Sound(s) && Enumerates(order, s.tables.attempts.Keys)
    ensures PipelinesFail(s.tables, SweepState(s, order, now).tables, now)
    ensures LeasesGoBack(s.tables, SweepState(s, order, now).tables, now)
  {
    hide Coherent, Numbered, Bounded, Sweep, Swept, PipelinesFail, LeasesGoBack;
    SweepByTheFields(s.tables, order, now);
  }

  lemma SweepingDone(s: State, s': State, order: seq<Id>, count: nat, now: Time)
    requires Sound(s) && Sweeping(s, s', order, {}, count, now)
    ensures Enumerates(order, s.tables.attempts.Keys) && s' == SweepState(s, order, now) && Sound(s')
    ensures count == Swept(s.tables, order, now)
  {
    assert s.tables.attempts.Keys - {} == s.tables.attempts.Keys;
    SweepKeepsSound(s, order, now);
    hide SweepState;
  }
}
