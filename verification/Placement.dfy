// Which job a scheduling round leases to which worker, read off the tables, the workers and the quotas.

module Placement {
  import opened Domain
  import opened Ordering
  import opened TableModel
  import opened Model
  import opened Coherence
  import opened Steps
  import opened Confluence
  import Capacity

  // ---- What is in use, by listing it ----

  function CpuOf(t: Tables, listed: seq<Id>): int {
    if listed == [] then 0
    else
      var a := listed[|listed| - 1];
      CpuOf(t, listed[..|listed| - 1])
      + if a in t.attempts && t.attempts[a].jobID in t.jobs then t.jobs[t.attempts[a].jobID].spec.resources.cpu else 0
  }

  function MemoryOf(t: Tables, listed: seq<Id>): int {
    if listed == [] then 0
    else
      var a := listed[|listed| - 1];
      MemoryOf(t, listed[..|listed| - 1])
      + if a in t.attempts && t.attempts[a].jobID in t.jobs then t.jobs[t.attempts[a].jobID].spec.resources.memory
        else 0
  }

  // The attempts under way at a worker, each once; "" stands for any worker.
  ghost predicate AtWorker(t: Tables, w: Id, listed: seq<Id>) {
    Enumerates(listed, set a | a in t.attempts && (t.attempts[a].status == Leased || t.attempts[a].status == Running)
                               && (w == "" || t.attempts[a].workerID == w))
  }

  // The attempts under way for a tenant, each once; "" stands for any tenant.
  ghost predicate ForTenant(t: Tables, tenant: string, listed: seq<Id>) {
    Enumerates(listed, set a | a in t.attempts && (t.attempts[a].status == Leased || t.attempts[a].status == Running)
                               && (tenant == "" || (t.attempts[a].jobID in t.jobs
                                                    && t.jobs[t.attempts[a].jobID].tenant == tenant)))
  }

  // The jobs under way of a tenant, each once.
  ghost predicate JobsUnderWay(t: Tables, tenant: string, listed: seq<Id>) {
    Enumerates(listed, set j | j in t.jobs && t.jobs[j].tenant == tenant
                               && (t.jobs[j].status == Leased || t.jobs[j].status == Running))
  }

  // ---- What a lease takes ----

  // The worker may run the job: it was heard of lately, is trusted exactly if the job must be, and can do all the
  // job asks for.
  ghost predicate Suits(s: State, w: Id, spec: JobSpec, now: Time) {
    && w in s.workers && now - s.workers[w].heartbeat <= s.config.workerTTL
    && s.workers[w].trusted == spec.trusted
    && forall c :: c in spec.capabilities ==> c in s.workers[w].capabilities
  }

  // However its attempts are listed, the worker has a place and, of what it rations, enough left for the job.
  ghost predicate HasRoom(s: State, w: Id, spec: JobSpec) {
    w in s.workers && forall listed :: AtWorker(s.tables, w, listed) ==>
      && |listed| < s.workers[w].capacity
      && (s.workers[w].resources.cpu > 0 ==>
            CpuOf(s.tables, listed) + spec.resources.cpu <= s.workers[w].resources.cpu)
      && (s.workers[w].resources.memory > 0 ==>
            MemoryOf(s.tables, listed) + spec.resources.memory <= s.workers[w].resources.memory)
  }

  // The tenant's quota: its own number of jobs if it has one, and the shares of CPU and memory all tenants have.
  ghost predicate WithinQuota(s: State, j: Id) {
    && j in s.tables.jobs
    && var tenant, spec := s.tables.jobs[j].tenant, s.tables.jobs[j].spec;
    && (forall listed :: JobsUnderWay(s.tables, tenant, listed) ==>
          |listed| < if tenant in s.config.tenantLimits && s.config.tenantLimits[tenant] > 0
                     then s.config.tenantLimits[tenant] else s.config.defaultTenantLimit)
    && (forall listed :: ForTenant(s.tables, tenant, listed) ==>
          && CpuOf(s.tables, listed) + spec.resources.cpu <= s.config.tenantCPU
          && MemoryOf(s.tables, listed) + spec.resources.memory <= s.config.tenantMemory)
  }

  // The job waits for nothing but a worker.
  ghost predicate Waiting(t: Tables, j: Id) {
    && j in t.jobs && t.jobs[j].status == Queued
    && forall name :: name in t.jobs[j].spec.needs ==>
         exists k :: k in t.jobs && t.jobs[k].pipelineID == t.jobs[j].pipelineID && t.jobs[k].name == name
           && t.jobs[k].status == Succeeded
  }

  ghost predicate CouldRun(s: State, j: Id, now: Time) {
    && Waiting(s.tables, j) && WithinQuota(s, j)
    && exists w :: Suits(s, w, s.tables.jobs[j].spec, now) && HasRoom(s, w, s.tables.jobs[j].spec)
  }

  // ---- The same in the scheduler's terms ----

  lemma {:induction false} ListedTotal(t: Tables, listed: seq<Id>)
    requires Distinct(listed)
    ensures Total(t, Elements(listed)) == Resources(CpuOf(t, listed), MemoryOf(t, listed))
  {
    if listed == [] {
      assert Elements(listed) == {};
    } else {
      var before, a := listed[..|listed| - 1], listed[|listed| - 1];
      ListedTotal(t, before);
      assert Elements(listed) == Elements(before) + {a};
      Capacity.TotalInsert(t, Elements(before), a);
    }
  }

  lemma AtWorkerIsUse(t: Tables, w: Id, listed: seq<Id>)
    requires AtWorker(t, w, listed)
    ensures |listed| == |ActiveAttempts(t, "", w)|
    ensures Used(t, "", w) == Resources(CpuOf(t, listed), MemoryOf(t, listed))
  {
    assert Elements(listed) == ActiveAttempts(t, "", w);
    EnumerationSize(listed, ActiveAttempts(t, "", w));
    ListedTotal(t, listed);
    hide Total, CpuOf, MemoryOf;
  }

  lemma ForTenantIsUse(t: Tables, tenant: string, listed: seq<Id>)
    requires ForTenant(t, tenant, listed)
    ensures Used(t, tenant, "") == Resources(CpuOf(t, listed), MemoryOf(t, listed))
  {
    assert Elements(listed) == ActiveAttempts(t, tenant, "");
    ListedTotal(t, listed);
    hide Total, CpuOf, MemoryOf;
  }

  lemma UnderWayAreActive(t: Tables, tenant: string, listed: seq<Id>)
    requires JobsUnderWay(t, tenant, listed)
    ensures |listed| == |ActiveJobs(t, tenant)|
  {
    EnumerationSize(listed, ActiveJobs(t, tenant));
  }

  // There is such a listing of each.
  lemma ListWorker(t: Tables, w: Id) returns (listed: seq<Id>)
    ensures AtWorker(t, w, listed)
  {
    listed := ListSet(set a | a in t.attempts && (t.attempts[a].status == Leased || t.attempts[a].status == Running)
                              && (w == "" || t.attempts[a].workerID == w));
  }

  lemma ListTenant(t: Tables, tenant: string) returns (listed: seq<Id>)
    ensures ForTenant(t, tenant, listed)
  {
    listed := ListSet(set a | a in t.attempts && (t.attempts[a].status == Leased || t.attempts[a].status == Running)
                              && (tenant == "" || (t.attempts[a].jobID in t.jobs
                                                   && t.jobs[t.attempts[a].jobID].tenant == tenant)));
  }

  lemma ListJobs(t: Tables, tenant: string) returns (listed: seq<Id>)
    ensures JobsUnderWay(t, tenant, listed)
  {
    listed := ListSet(set j | j in t.jobs && t.jobs[j].tenant == tenant
                              && (t.jobs[j].status == Leased || t.jobs[j].status == Running));
  }

  lemma SuitableIsEligible(s: State, w: Id, spec: JobSpec, now: Time)
    ensures Suits(s, w, spec, now) && HasRoom(s, w, spec) <==> Eligible(s, w, spec, now)
  {
    hide AtWorker, Used, ActiveAttempts, CpuOf, MemoryOf;
    var some := ListWorker(s.tables, w);
    AtWorkerIsUse(s.tables, w, some);
    forall listed | AtWorker(s.tables, w, listed)
      ensures |listed| == |some| && CpuOf(s.tables, listed) == CpuOf(s.tables, some)
      ensures MemoryOf(s.tables, listed) == MemoryOf(s.tables, some)
    {
      AtWorkerIsUse(s.tables, w, listed);
    }
  }

  lemma QuotaIsQuota(s: State, j: Id)
    requires j in s.tables.jobs
    ensures WithinQuota(s, j) <==> WithinTenant(s, j)
  {
    hide ForTenant, JobsUnderWay, Used, ActiveJobs, CpuOf, MemoryOf;
    var tenant := s.tables.jobs[j].tenant;
    var some := ListTenant(s.tables, tenant);
    var jobs := ListJobs(s.tables, tenant);
    ForTenantIsUse(s.tables, tenant, some);
    UnderWayAreActive(s.tables, tenant, jobs);
    forall listed | ForTenant(s.tables, tenant, listed)
      ensures CpuOf(s.tables, listed) == CpuOf(s.tables, some)
      ensures MemoryOf(s.tables, listed) == MemoryOf(s.tables, some)
    {
      ForTenantIsUse(s.tables, tenant, listed);
    }
    forall listed | JobsUnderWay(s.tables, tenant, listed) ensures |listed| == |jobs| {
      UnderWayAreActive(s.tables, tenant, listed);
    }
  }

  lemma WaitingIsRunnable(t: Tables, j: Id)
    ensures Waiting(t, j) <==> Runnable(t, j)
  {
    if Waiting(t, j) {
      forall name | name in t.jobs[j].spec.needs ensures NeedMet(t, t.jobs[j].pipelineID, name) {
        var k :| k in t.jobs && t.jobs[k].pipelineID == t.jobs[j].pipelineID && t.jobs[k].name == name
          && t.jobs[k].status == Succeeded;
        assert Has(t, t.jobs[j].pipelineID, k);
      }
    }
    if Runnable(t, j) {
      forall name | name in t.jobs[j].spec.needs
        ensures exists k :: k in t.jobs && t.jobs[k].pipelineID == t.jobs[j].pipelineID && t.jobs[k].name == name
                  && t.jobs[k].status == Succeeded
      {
        assert NeedMet(t, t.jobs[j].pipelineID, name);
        var k :| Has(t, t.jobs[j].pipelineID, k) && t.jobs[k].name == name && t.jobs[k].status == Succeeded;
      }
    }
  }

  lemma CouldRunIsPlaceable(s: State, j: Id, now: Time)
    ensures CouldRun(s, j, now) <==> Placeable(s, j, now)
  {
    if Waiting(s.tables, j) {
      WaitingIsThere(s.tables, j);
    }
    hide Waiting, Runnable, WithinQuota, WithinTenant, Suits, HasRoom, Eligible;
    WaitingIsRunnable(s.tables, j);
    if j in s.tables.jobs {
      var spec := s.tables.jobs[j].spec;
      QuotaIsQuota(s, j);
      forall w ensures Suits(s, w, spec, now) && HasRoom(s, w, spec) <==> Eligible(s, w, spec, now) {
        SuitableIsEligible(s, w, spec, now);
      }
      if w :| Eligible(s, w, spec, now) {
        assert Suits(s, w, spec, now) && HasRoom(s, w, spec);
      }
    }
  }

  lemma WaitingIsThere(t: Tables, j: Id)
    requires Waiting(t, j)
    ensures j in t.jobs
  {
  }

  // ---- A round ----

  // The job that goes first: of the next tenant behind the one served last, in the cyclic order of their names; of
  // one tenant the job of highest priority, then the oldest, then the one admitted first.
  predicate GoesFirst(last: string, x: Job, y: Job) {
    if x.tenant != y.tenant then
      if last != "" && Less(last, x.tenant) != Less(last, y.tenant) then Less(last, x.tenant)
      else Less(x.tenant, y.tenant)
    else
      || x.spec.priority > y.spec.priority
      || (x.spec.priority == y.spec.priority && x.createdAt < y.createdAt)
      || (x.spec.priority == y.spec.priority && x.createdAt == y.createdAt && x.sequence < y.sequence)
  }

  // The lease a of job j to worker w: the only thing that changed.
  ghost predicate LeasedTo(s: State, s': State, j: Id, w: Id, a: Id, token: string, now: Time) {
    && j in s.tables.jobs && s.tables.jobs[j].pipelineID in s.tables.pipelines
    && var t, job := s.tables, s.tables.jobs[j];
    && s' == s.(
         tables := t.(
           attempts := t.attempts[a := Attempt(j, |job.attemptIDs| + 1, w, token, now + s.config.leaseTTL, Leased, now,
                                               0, 0, "", "", "", [])],
           jobs := t.jobs[j := job.(status := Leased, attemptIDs := job.attemptIDs + [a])],
           pipelines := t.pipelines[job.pipelineID := t.pipelines[job.pipelineID].(status := Running)],
           issued := t.issued + {a}),
         lastTenant := job.tenant,
         metrics := s.metrics.(leasesIssued := s.metrics.leasesIssued + 1))
  }

  // A round that follows its sweep, in state s, grants exactly if some job could run, and then the lease is of the
  // job that goes first, to the first worker that suits it and has room.
  ghost predicate RoundGrants(s: State, s': State, a: Id, token: string, now: Time) {
    if a in s'.tables.attempts then
      && var j, w := s'.tables.attempts[a].jobID, s'.tables.attempts[a].workerID;
      && LeasedTo(s, s', j, w, a, token, now)
      && Waiting(s.tables, j) && WithinQuota(s, j)
      && Suits(s, w, s.tables.jobs[j].spec, now) && HasRoom(s, w, s.tables.jobs[j].spec)
      && (forall v :: Suits(s, v, s.tables.jobs[j].spec, now) && HasRoom(s, v, s.tables.jobs[j].spec) && v != w ==>
            Less(w, v))
      && (forall k :: CouldRun(s, k, now) && k != j ==>
            k in s.tables.jobs && GoesFirst(s.lastTenant, s.tables.jobs[j], s.tables.jobs[k]))
    else s' == s && forall k :: !CouldRun(s, k, now)
  }

  lemma GrantGoesFirst(s: State, g: Grant, now: Time)
    requires IsGrant(s, g, now)
    ensures g.job in s.tables.jobs && Waiting(s.tables, g.job) && WithinQuota(s, g.job)
    ensures forall k :: CouldRun(s, k, now) && k != g.job ==>
      k in s.tables.jobs && GoesFirst(s.lastTenant, s.tables.jobs[g.job], s.tables.jobs[k])
  {
    CouldRunIsPlaceable(s, g.job, now);
    hide Eligible, WithinTenant, Waiting, WithinQuota, CouldRun, Suits, HasRoom;
    forall k | CouldRun(s, k, now) && k != g.job
      ensures k in s.tables.jobs && GoesFirst(s.lastTenant, s.tables.jobs[g.job], s.tables.jobs[k])
    {
      CouldRunIsPlaceable(s, k, now);
    }
    CouldRunReads(s, g.job, now);
  }

  lemma CouldRunReads(s: State, j: Id, now: Time)
    requires CouldRun(s, j, now)
    ensures j in s.tables.jobs && Waiting(s.tables, j) && WithinQuota(s, j)
  {
  }

  lemma GrantSuits(s: State, g: Grant, now: Time)
    requires IsGrant(s, g, now) && g.job in s.tables.jobs
    ensures var spec := s.tables.jobs[g.job].spec;
      && Suits(s, g.worker, spec, now) && HasRoom(s, g.worker, spec)
      && (forall v :: Suits(s, v, spec, now) && HasRoom(s, v, spec) && v != g.worker ==> Less(g.worker, v))
  {
    hide Placeable, Eligible, Suits, HasRoom;
    var spec := s.tables.jobs[g.job].spec;
    SuitableIsEligible(s, g.worker, spec, now);
    forall v | Suits(s, v, spec, now) && HasRoom(s, v, spec) && v != g.worker ensures Less(g.worker, v) {
      SuitableIsEligible(s, v, spec, now);
    }
  }

  lemma PlaceLeases(s: State, g: Grant, a: Id, token: string, now: Time)
    requires Grantable(s, g)
    ensures var s' := Place(s, Some(g), a, token, now);
      && LeasedTo(s, s', g.job, g.worker, a, token, now) && a in s'.tables.attempts
      && s'.tables.attempts[a].jobID == g.job && s'.tables.attempts[a].workerID == g.worker
  {
  }

  lemma PlaceGrants(s: State, grant: Option<Grant>, a: Id, token: string, now: Time)
    requires Coherent(s.tables) && GrantFits(s, grant, now) && a !in s.tables.attempts
    ensures RoundGrants(s, Place(s, grant, a, token, now), a, token, now)
  {
    hide LeasedTo, Waiting, WithinQuota, Suits, HasRoom, CouldRun, GoesFirst, IsGrant, Placeable;
    if grant.Some? {
      GrantIsRunnable(s, grant.value, now);
      PlaceLeases(s, grant.value, a, token, now);
      GrantGoesFirst(s, grant.value, now);
      GrantSuits(s, grant.value, now);
    } else {
      forall k ensures !CouldRun(s, k, now) {
        CouldRunIsPlaceable(s, k, now);
      }
    }
    hide Coherent;
  }

  // What a scheduling round does after its sweep.
  lemma ScheduleGrants(s: State, step: Step)
    requires Coherent(s.tables) && step.ScheduleStep? && Enabled(s, step)
    ensures RoundGrants(SweepState(s, step.order, step.now), Apply(s, step), step.a, step.token, step.now)
  {
    hide RoundGrants, GrantFits, Place;
    SweepKeeps(s.tables, step.order, step.now);
    Capacity.SweepNewAttempts(s.tables, step.order, step.now);
    hide Sweep;
    NotYetThere(s.tables, step.a);
    PlaceGrants(SweepState(s, step.order, step.now), step.grant, step.a, step.token, step.now);
    hide Coherent;
  }

  lemma NotYetThere(t: Tables, a: Id)
    requires Coherent(t) && a !in t.issued
    ensures a !in t.attempts
  {
  }

  // An attempt is only ever leased to a worker that is trusted exactly if its job must be, that has every
  // capability the job lists, and that was heard of within the term set for workers.
  lemma LeaseMatches(s: State, step: Step)
    requires Coherent(s.tables) && step.ScheduleStep? && Enabled(s, step)
    requires step.a in Apply(s, step).tables.attempts
    ensures var lease := Apply(s, step).tables.attempts[step.a];
      && lease.jobID in s.tables.jobs && lease.workerID in s.workers
      && var spec, worker := s.tables.jobs[lease.jobID].spec, s.workers[lease.workerID];
      && worker.trusted == spec.trusted && (forall c :: c in spec.capabilities ==> c in worker.capabilities)
      && step.now - worker.heartbeat <= s.config.workerTTL
  {
    ScheduleGrants(s, step);
    hide Coherent, Enabled, Apply, SweepState, CouldRun, HasRoom, WithinQuota, Waiting, GoesFirst;
    SweepKeepsSpecs(s, step.order, step.now);
  }

  lemma SweepKeepsSpecs(s: State, order: seq<Id>, now: Time)
    requires Coherent(s.tables) && Enumerates(order, s.tables.attempts.Keys)
    ensures var s1 := SweepState(s, order, now);
      && s1.workers == s.workers && s1.config == s.config
      && (forall j :: j in s1.tables.jobs ==> j in s.tables.jobs && s1.tables.jobs[j].spec == s.tables.jobs[j].spec)
  {
    SweepSweeps(s.tables, order, now);
    var t' := Sweep(s.tables, order, now);
    hide Coherent, Sweep, AttemptSwept, PipelineSwept, TallySwept, Condemns, Dropped;
    forall j | j in t'.jobs ensures j in s.tables.jobs && t'.jobs[j].spec == s.tables.jobs[j].spec {
      assert JobSwept(s.tables, t', Elements(order), j, now);
    }
  }

  // A round never leaves idle what it could have used: if, once lapsed leases are taken back, a job waits within
  // its tenant's quota and some worker that suits it has room, something is leased.
  lemma RoomIsUsed(s: State, step: Step, j: Id, w: Id)
    requires Coherent(s.tables) && step.ScheduleStep? && Enabled(s, step)
    requires var s1 := SweepState(s, step.order, step.now);
      && Waiting(s1.tables, j) && WithinQuota(s1, j)
      && Suits(s1, w, s1.tables.jobs[j].spec, step.now) && HasRoom(s1, w, s1.tables.jobs[j].spec)
    ensures step.a in Apply(s, step).tables.attempts
  {
    ScheduleGrants(s, step);
    hide Coherent, Enabled, Apply, Sweep, LeasedTo, Waiting, WithinQuota, Suits, HasRoom;
    assert CouldRun(SweepState(s, step.order, step.now), j, step.now);
  }

  // ---- Limits, by listing ----

  // However the attempts at a worker are listed, in every reachable state: no more than it has places for, and no
  // more CPU and memory than it advertised, if it rations them.
  lemma WorkersAreNotOverrun(states: seq<State>, steps: seq<Step>, i: nat, w: Id, listed: seq<Id>)
    requires SteadyRun(states, steps) && i < |states| && w in states[i].workers
    requires AtWorker(states[i].tables, w, listed)
    ensures var worker, t := states[i].workers[w], states[i].tables;
      && |listed| <= worker.capacity
      && (worker.resources.cpu > 0 ==> CpuOf(t, listed) <= worker.resources.cpu)
      && (worker.resources.memory > 0 ==> MemoryOf(t, listed) <= worker.resources.memory)
  {
    Capacity.LimitsHoldThroughout(states, steps, i);
    AtWorkerIsUse(states[i].tables, w, listed);
    hide SteadyRun, AtWorker, Used, ActiveAttempts, CpuOf, MemoryOf;
    assert Capacity.WorkerFits(states[i], w);
  }

  // And for a tenant: no more jobs under way than it is allowed, nor more CPU and memory than the tenants' shares.
  lemma TenantsStayInQuota(states: seq<State>, steps: seq<Step>, i: nat, tenant: string, jobs: seq<Id>, listed: seq<Id>)
    requires SteadyRun(states, steps) && i < |states| && tenant != ""
    requires JobsUnderWay(states[i].tables, tenant, jobs) && ForTenant(states[i].tables, tenant, listed)
    ensures var t, c := states[i].tables, states[i].config;
      && |jobs| <= (if tenant in c.tenantLimits && c.tenantLimits[tenant] > 0 then c.tenantLimits[tenant]
                    else c.defaultTenantLimit)
      && CpuOf(t, listed) <= c.tenantCPU && MemoryOf(t, listed) <= c.tenantMemory
  {
    Capacity.LimitsHoldThroughout(states, steps, i);
    ForTenantIsUse(states[i].tables, tenant, listed);
    UnderWayAreActive(states[i].tables, tenant, jobs);
    hide SteadyRun, ForTenant, JobsUnderWay, Used, ActiveJobs, CpuOf, MemoryOf;
    assert Capacity.TenantFits(states[i], tenant);
  }
}
