// Limits that the scheduler recomputes from scratch at each grant hold in every reachable state.

module Capacity {
  import opened Domain
  import opened TableModel
  import opened Model
  import opened Coherence
  import opened Steps
  import opened Evolution
  import opened Counters
  import Planner

  // ---- Sums over sets of attempts ----

  lemma TotalTakes(t: Tables, x: set<Id>) returns (a: Id)
    requires x != {}
    ensures a in x && Total(t, x) == Add(Demand(t, a), Total(t, x - {a}))
  {
    hide Demand, Add;
    a :| a in x && Total(t, x) == Add(Demand(t, a), Total(t, x - {a}));
  }

  lemma {:induction false} TotalInsert(t: Tables, x: set<Id>, a: Id)
    requires a !in x
    ensures Total(t, x + {a}) == Add(Demand(t, a), Total(t, x))
    decreases |x|
  {
    hide Demand, Total;
    var b := TotalTakes(t, x + {a});
    if b == a {
      assert x + {a} - {a} == x;
    } else {
      var rest := x - {b};
      assert x + {a} - {b} == rest + {a} && rest + {b} == x;
      TotalInsert(t, rest, a);
      TotalInsert(t, rest, b);
    }
  }

  lemma TotalRemove(t: Tables, x: set<Id>, a: Id)
    requires a in x
    ensures Total(t, x) == Add(Demand(t, a), Total(t, x - {a}))
  {
    hide Demand, Total, Add;
    TotalInsert(t, x - {a}, a);
    assert x - {a} + {a} == x;
  }

  lemma {:induction false} TotalCongruent(t: Tables, t': Tables, x: set<Id>)
    requires forall a :: a in x ==> Demand(t', a) == Demand(t, a)
    ensures Total(t', x) == Total(t, x)
  {
    hide Demand, Add;
    if a :| a in x {
      TotalCongruent(t, t', x - {a});
      TotalRemove(t, x, a);
      TotalRemove(t', x, a);
      hide Total;
    }
  }

  predicate NoMore(x: Resources, y: Resources) {
    x.cpu <= y.cpu && x.memory <= y.memory
  }

  lemma {:induction false} TotalSubset(t: Tables, x: set<Id>, y: set<Id>)
    requires x <= y && forall a :: a in y ==> NoMore(Resources(0, 0), Demand(t, a))
    ensures NoMore(Total(t, x), Total(t, y))
  {
    hide Demand, Total;
    if x == y {
    } else {
      var a :| a in y && a !in x;
      TotalSubset(t, x, y - {a});
      TotalRemove(t, y, a);
    }
  }

  // Configurations with a plan ask for no negative resources.
  lemma DemandIsNatural(t: Tables, a: Id)
    requires Coherent(t)
    ensures NoMore(Resources(0, 0), Demand(t, a))
  {
    if a in t.attempts && t.attempts[a].jobID in t.jobs {
      var j := t.attempts[a].jobID;
      assert JobRefs(t, j);
      var p := t.jobs[j].pipelineID;
      assert Planned(t, p) && PipelineRefs(t, p);
      assert Has(t, p, j);
      var i :| 0 <= i < |t.pipelines[p].jobIDs| && t.pipelines[p].jobIDs[i] == j;
    }
  }

  // ---- Active jobs and active attempts are the same thing ----

  lemma ActiveHasAttempt(t: Tables, j: Id)
    requires Coherent(t) && j in t.jobs && IsActive(t.jobs[j].status)
    ensures var attempts := t.jobs[j].attemptIDs;
      && attempts != [] && attempts[|attempts| - 1] in t.attempts
      && t.attempts[attempts[|attempts| - 1]].jobID == j && IsActive(t.attempts[attempts[|attempts| - 1]].status)
  {
    assert JobRefs(t, j) && JobFits(t.jobs[j]);
    var a := t.jobs[j].attemptIDs[|t.jobs[j].attemptIDs| - 1];
    assert AttemptOk(t, a);
  }

  ghost function JobOf(t: Tables, a: Id): Id
    requires a in t.attempts
  {
    t.attempts[a].jobID
  }

  lemma {:induction false} ImageSize(t: Tables, x: set<Id>, y: set<Id>)
    requires forall a :: a in x ==> a in t.attempts && JobOf(t, a) in y
    requires forall a, b :: a in x && b in x && JobOf(t, a) == JobOf(t, b) ==> a == b
    requires forall j :: j in y ==> exists a :: a in x && JobOf(t, a) == j
    ensures |x| == |y|
  {
    if a :| a in x {
      ImageSize(t, x - {a}, y - {JobOf(t, a)});
    } else {
      assert y == {};
    }
  }

  // Counting a tenant's active jobs is counting its active attempts.
  lemma ActiveCountsAgree(t: Tables, tenant: string)
    requires Coherent(t) && tenant != ""
    ensures |ActiveJobs(t, tenant)| == |ActiveAttempts(t, tenant, "")|
  {
    var x, y := ActiveAttempts(t, tenant, ""), ActiveJobs(t, tenant);
    forall a | a in x ensures a in t.attempts && JobOf(t, a) in y {
      ActiveIsLast(t, a);
    }
    forall a, b | a in x && b in x && JobOf(t, a) == JobOf(t, b) ensures a == b {
      OneActiveAttempt(t, a, b);
    }
    forall j | j in y ensures exists a :: a in x && JobOf(t, a) == j {
      ActiveHasAttempt(t, j);
      var a := t.jobs[j].attemptIDs[|t.jobs[j].attemptIDs| - 1];
      assert a in x && JobOf(t, a) == j;
    }
    ImageSize(t, x, y);
  }

  // ---- Steps that grant nothing only release ----

  // Whatever is active in t' was active in t, with the same job, tenant, worker and demand.
  ghost predicate Releases(t: Tables, t': Tables) {
    && (forall a :: a in t'.attempts && IsActive(t'.attempts[a].status) ==> StillActive(t, t', a))
    && (forall j :: j in t'.jobs && IsActive(t'.jobs[j].status) ==>
          j in t.jobs && IsActive(t.jobs[j].status) && t.jobs[j].tenant == t'.jobs[j].tenant)
  }

  ghost predicate StillActive(t: Tables, t': Tables, a: Id) {
    && a in t.attempts && a in t'.attempts && IsActive(t.attempts[a].status)
    && t.attempts[a].workerID == t'.attempts[a].workerID && t.attempts[a].jobID == t'.attempts[a].jobID
    && var j := t.attempts[a].jobID;
    && j in t.jobs && j in t'.jobs && t.jobs[j].tenant == t'.jobs[j].tenant && t.jobs[j].spec == t'.jobs[j].spec
  }

  lemma ActiveStays(t: Tables, t': Tables, a: Id)
    requires Coherent(t) && Coherent(t') && Evolves(t, t') && t'.attempts.Keys <= t.attempts.Keys
    requires a in t'.attempts && IsActive(t'.attempts[a].status)
    ensures StillActive(t, t', a)
  {
    assert AttemptRefs(t, a) && AttemptRefs(t', a) && AttemptOk(t, a);
    assert JobFits(t.jobs[t.attempts[a].jobID]);
    hide Coherent, NoReturn, Rank;
  }

  lemma EvolvingReleases(t: Tables, t': Tables)
    requires Coherent(t) && Coherent(t') && Evolves(t, t') && t'.attempts.Keys <= t.attempts.Keys
    ensures Releases(t, t')
  {
    hide Coherent, Evolves;
    forall a | a in t'.attempts && IsActive(t'.attempts[a].status) ensures StillActive(t, t', a) {
      ActiveStays(t, t', a);
    }
    forall j | j in t'.jobs && IsActive(t'.jobs[j].status)
      ensures j in t.jobs && IsActive(t.jobs[j].status) && t.jobs[j].tenant == t'.jobs[j].tenant
    {
      ActiveHasAttempt(t', j);
      var a := t'.jobs[j].attemptIDs[|t'.jobs[j].attemptIDs| - 1];
      ActiveStays(t, t', a);
      ActiveIsLast(t, a);
    }
  }

  lemma ReleasedUse(t: Tables, t': Tables, tenant: string, worker: Id)
    requires Coherent(t) && Releases(t, t')
    ensures ActiveAttempts(t', tenant, worker) <= ActiveAttempts(t, tenant, worker)
    ensures NoMore(Used(t', tenant, worker), Used(t, tenant, worker))
  {
    var x, y := ActiveAttempts(t', tenant, worker), ActiveAttempts(t, tenant, worker);
    forall a | a in x ensures a in y && Demand(t', a) == Demand(t, a) {
      assert StillActive(t, t', a);
    }
    forall a | a in y ensures NoMore(Resources(0, 0), Demand(t, a)) {
      DemandIsNatural(t, a);
    }
    hide Coherent, Releases, Demand;
    TotalCongruent(t, t', x);
    TotalSubset(t, x, y);
  }

  lemma ReleasedCounts(t: Tables, t': Tables, tenant: string, worker: Id)
    requires Coherent(t) && Releases(t, t')
    ensures |ActiveJobs(t', tenant)| <= |ActiveJobs(t, tenant)|
    ensures |ActiveAttempts(t', tenant, worker)| <= |ActiveAttempts(t, tenant, worker)|
  {
    ReleasedUse(t, t', tenant, worker);
    SubsetSize(ActiveAttempts(t', tenant, worker), ActiveAttempts(t, tenant, worker));
    SubsetSize(ActiveJobs(t', tenant), ActiveJobs(t, tenant));
  }

  lemma SubsetSize<T>(x: set<T>, y: set<T>)
    requires x <= y
    ensures |x| <= |y|
  {
    assert y == x + (y - x);
  }

  // ---- The limits ----

  ghost predicate TenantFits(s: State, tenant: string) {
    && |ActiveJobs(s.tables, tenant)| <= TenantLimit(s.config, tenant)
    && (tenant != "" ==> NoMore(Used(s.tables, tenant, ""), Resources(s.config.tenantCPU, s.config.tenantMemory)))
  }

  ghost predicate WorkerFits(s: State, w: Id) {
    w in s.workers &&
    var worker := s.workers[w];
    && w != "" && worker.capacity > 0
    && |ActiveAttempts(s.tables, "", w)| <= worker.capacity
    && (worker.resources.cpu > 0 ==> Used(s.tables, "", w).cpu <= worker.resources.cpu)
    && (worker.resources.memory > 0 ==> Used(s.tables, "", w).memory <= worker.resources.memory)
  }

  ghost predicate Employed(s: State) {
    forall a :: a in s.tables.attempts ==> s.tables.attempts[a].workerID in s.workers
  }

  ghost predicate WithinLimits(s: State) {
    && ConfigOk(s.config) && Employed(s)
    && (forall tenant {:trigger TenantFits(s, tenant)} :: TenantFits(s, tenant))
    && (forall w {:trigger WorkerFits(s, w)} :: w in s.workers ==> WorkerFits(s, w))
    && |Unfinished(s.tables)| <= s.config.maxQueuedJobs
  }

  // Nobody changed what it advertised.
  ghost predicate SameOffer(s: State, s': State) {
    && s'.config == s.config && s'.workers.Keys == s.workers.Keys
    && forall w :: w in s.workers ==>
      s'.workers[w].capacity == s.workers[w].capacity && s'.workers[w].resources == s.workers[w].resources
  }

  lemma ReleasingTenant(s: State, s': State, tenant: string)
    requires Coherent(s.tables) && Releases(s.tables, s'.tables) && s'.config == s.config && TenantFits(s, tenant)
    ensures TenantFits(s', tenant)
  {
    ReleasedCounts(s.tables, s'.tables, tenant, "");
    ReleasedUse(s.tables, s'.tables, tenant, "");
    hide Coherent, Releases, Used, ActiveJobs, TenantLimit;
  }

  lemma ReleasingWorker(s: State, s': State, w: Id)
    requires Coherent(s.tables) && Releases(s.tables, s'.tables) && SameOffer(s, s') && WorkerFits(s, w)
    ensures WorkerFits(s', w)
  {
    ReleasedCounts(s.tables, s'.tables, "", w);
    ReleasedUse(s.tables, s'.tables, "", w);
    hide Coherent, Releases, Used, ActiveAttempts;
  }

  lemma ReleasingStaysWithin(s: State, s': State)
    requires Coherent(s.tables) && WithinLimits(s) && Releases(s.tables, s'.tables) && SameOffer(s, s') && Employed(s')
    requires |Unfinished(s'.tables)| <= s.config.maxQueuedJobs
    ensures WithinLimits(s')
  {
    hide Coherent, Releases, TenantFits, WorkerFits, Employed, Unfinished, ConfigOk;
    forall tenant ensures TenantFits(s', tenant) {
      assert TenantFits(s, tenant);
      ReleasingTenant(s, s', tenant);
    }
    forall w | w in s'.workers ensures WorkerFits(s', w) {
      assert WorkerFits(s, w);
      ReleasingWorker(s, s', w);
    }
  }

  // ---- A grant ----

  ghost predicate Charged(t: Tables, j: Id, w: Id, tenant: string, worker: Id) {
    j in t.jobs && (tenant == "" || t.jobs[j].tenant == tenant) && (worker == "" || worker == w)
  }

  // A lease adds one active attempt with its job's demand to whoever it is charged to.
  lemma LeaseAttempts(t: Tables, j: Id, w: Id, a: Id, token: string, ttl: int, now: Time, tenant: string, worker: Id)
    requires Coherent(t) && MayLease(t, j, a)
    ensures var t' := Lease(t, j, w, a, token, ttl, now);
      && a !in ActiveAttempts(t, tenant, worker) && Demand(t', a) == t.jobs[j].spec.resources
      && ActiveAttempts(t', tenant, worker) ==
           ActiveAttempts(t, tenant, worker) + (if Charged(t, j, w, tenant, worker) then {a} else {})
      && forall b :: b in ActiveAttempts(t, tenant, worker) ==> Demand(t', b) == Demand(t, b)
  {
    var t' := Lease(t, j, w, a, token, ttl, now);
    assert a !in t.attempts;
    hide Coherent, Runnable;
    assert t'.attempts == t.attempts[a := NewAttempt(j, |t.jobs[j].attemptIDs| + 1, w, token, ttl, now)];
    assert t'.jobs == t.jobs[j := LeasedJob(t.jobs[j], a)];
    hide Lease;
    forall b ensures b in ActiveAttempts(t', tenant, worker) <==>
      b in ActiveAttempts(t, tenant, worker) || (b == a && Charged(t, j, w, tenant, worker)) {
    }
    hide ActiveAttempts;
  }

  lemma LeaseUse(t: Tables, j: Id, w: Id, a: Id, token: string, ttl: int, now: Time, tenant: string, worker: Id)
    requires Coherent(t) && MayLease(t, j, a)
    ensures var t' := Lease(t, j, w, a, token, ttl, now);
      if Charged(t, j, w, tenant, worker) then
        && |ActiveAttempts(t', tenant, worker)| == |ActiveAttempts(t, tenant, worker)| + 1
        && Used(t', tenant, worker) == Add(t.jobs[j].spec.resources, Used(t, tenant, worker))
      else
        && ActiveAttempts(t', tenant, worker) == ActiveAttempts(t, tenant, worker)
        && Used(t', tenant, worker) == Used(t, tenant, worker)
  {
    hide Coherent, Lease, Demand, ActiveAttempts, Charged, NeedsMet;
    var t' := Lease(t, j, w, a, token, ttl, now);
    var x := ActiveAttempts(t, tenant, worker);
    LeaseAttempts(t, j, w, a, token, ttl, now, tenant, worker);
    hide MayLease;
    TotalCongruent(t, t', x);
    TotalInsert(t', x, a);
    hide Total;
  }

  lemma LeaseJobs(t: Tables, j: Id, w: Id, a: Id, token: string, ttl: int, now: Time, tenant: string)
    requires MayLease(t, j, a)
    ensures var t' := Lease(t, j, w, a, token, ttl, now);
      |ActiveJobs(t', tenant)| == |ActiveJobs(t, tenant)| + if t.jobs[j].tenant == tenant then 1 else 0
    ensures Unfinished(Lease(t, j, w, a, token, ttl, now)) == Unfinished(t)
  {
    hide NeedsMet;
    var t' := Lease(t, j, w, a, token, ttl, now);
    assert t'.jobs == t.jobs[j := LeasedJob(t.jobs[j], a)];
    hide Lease;
    NowActive(t, t', j, tenant);
    StillUnfinished(t, t', j);
    hide ActiveJobs, Unfinished;
  }

  lemma NowActive(t: Tables, t': Tables, j: Id, tenant: string)
    requires j in t.jobs && t.jobs[j].status == Queued && j in t'.jobs && IsActive(t'.jobs[j].status)
    requires t'.jobs == t.jobs[j := t'.jobs[j]] && t'.jobs[j].tenant == t.jobs[j].tenant
    ensures |ActiveJobs(t', tenant)| == |ActiveJobs(t, tenant)| + if t.jobs[j].tenant == tenant then 1 else 0
  {
    assert j !in ActiveJobs(t, tenant);
    forall k ensures k in ActiveJobs(t', tenant) <==>
      k in ActiveJobs(t, tenant) || (k == j && t.jobs[j].tenant == tenant) {
    }
    hide ActiveJobs;
    if t.jobs[j].tenant == tenant {
      assert ActiveJobs(t', tenant) == ActiveJobs(t, tenant) + {j};
    } else {
      assert ActiveJobs(t', tenant) == ActiveJobs(t, tenant);
    }
  }

  lemma StillUnfinished(t: Tables, t': Tables, j: Id)
    requires j in t.jobs && t.jobs[j].status == Queued && j in t'.jobs && IsActive(t'.jobs[j].status)
    requires t'.jobs == t.jobs[j := t'.jobs[j]]
    ensures Unfinished(t') == Unfinished(t)
  {
  }

  lemma GrantedTenant(s: State, g: Grant, a: Id, token: string, now: Time, tenant: string)
    requires Coherent(s.tables) && IsGrant(s, g, now) && MayLease(s.tables, g.job, a) && TenantFits(s, tenant)
    ensures TenantFits(WithTables(s, Lease(s.tables, g.job, g.worker, a, token, s.config.leaseTTL, now)), tenant)
  {
    hide Coherent, Lease, NeedsMet, ActiveJobs, Used, ActiveAttempts, Unfinished, TenantLimit, TurnBefore, JobBefore,
         Eligible;
    assert WithinTenant(s, g.job);
    hide IsGrant;
    LeaseUse(s.tables, g.job, g.worker, a, token, s.config.leaseTTL, now, tenant, "");
    LeaseJobs(s.tables, g.job, g.worker, a, token, s.config.leaseTTL, now, tenant);
  }

  lemma GrantedWorker(s: State, g: Grant, a: Id, token: string, now: Time, w: Id)
    requires Coherent(s.tables) && IsGrant(s, g, now) && MayLease(s.tables, g.job, a) && WorkerFits(s, w)
    ensures WorkerFits(WithTables(s, Lease(s.tables, g.job, g.worker, a, token, s.config.leaseTTL, now)), w)
  {
    LeaseUse(s.tables, g.job, g.worker, a, token, s.config.leaseTTL, now, "", w);
    assert Eligible(s, g.worker, s.tables.jobs[g.job].spec, now);
    hide Coherent, Lease, IsGrant, MayLease, Used, ActiveAttempts;
  }

  lemma GrantStaysWithin(s: State, g: Grant, a: Id, token: string, now: Time)
    requires Coherent(s.tables) && IsGrant(s, g, now) && MayLease(s.tables, g.job, a) && WithinLimits(s)
    ensures WithinLimits(WithTables(s, Lease(s.tables, g.job, g.worker, a, token, s.config.leaseTTL, now)))
  {
    hide Coherent, IsGrant, NeedsMet, Lease, TenantFits, WorkerFits, ActiveJobs, Unfinished, ConfigOk;
    var s' := WithTables(s, Lease(s.tables, g.job, g.worker, a, token, s.config.leaseTTL, now));
    LeaseJobs(s.tables, g.job, g.worker, a, token, s.config.leaseTTL, now, "");
    LeaseEmploys(s, g, a, token, now);
    hide MayLease;
    forall tenant ensures TenantFits(s', tenant) {
      assert TenantFits(s, tenant);
      GrantedTenant(s, g, a, token, now, tenant);
    }
    forall w | w in s'.workers ensures WorkerFits(s', w) {
      assert WorkerFits(s, w);
      GrantedWorker(s, g, a, token, now, w);
    }
  }

  lemma LeaseEmploys(s: State, g: Grant, a: Id, token: string, now: Time)
    requires Employed(s) && IsGrant(s, g, now) && MayLease(s.tables, g.job, a)
    ensures Employed(WithTables(s, Lease(s.tables, g.job, g.worker, a, token, s.config.leaseTTL, now)))
  {
    assert Eligible(s, g.worker, s.tables.jobs[g.job].spec, now);
    hide IsGrant, Used;
  }

  // ---- What the other steps leave alone ----

  lemma LimitsIgnoreCounters(s: State, s': State)
    requires WithinLimits(s) && s'.config == s.config && s'.tables == s.tables && s'.workers == s.workers
    ensures WithinLimits(s')
  {
    hide Used, ActiveJobs, ActiveAttempts, Unfinished, TenantLimit;
    forall tenant ensures TenantFits(s', tenant) {
      assert TenantFits(s, tenant);
    }
    forall w | w in s'.workers ensures WorkerFits(s', w) {
      assert WorkerFits(s, w);
    }
  }

  lemma FewerUnfinished(t: Tables, t': Tables)
    requires Evolves(t, t') && t'.jobs.Keys <= t.jobs.Keys
    ensures |Unfinished(t')| <= |Unfinished(t)|
  {
    hide NoReturn, Rank;
    assert Unfinished(t') <= Unfinished(t);
    SubsetSize(Unfinished(t'), Unfinished(t));
  }

  lemma SweepOneNewAttempts(t: Tables, a: Id, now: Time)
    ensures SweepOne(t, a, now).attempts.Keys == t.attempts.Keys
  {
  }

  lemma {:induction false} SweepNewAttempts(t: Tables, order: seq<Id>, now: Time)
    ensures Sweep(t, order, now).attempts.Keys == t.attempts.Keys
  {
    if order != [] {
      SweepNewAttempts(t, order[..|order| - 1], now);
      SweepOneNewAttempts(Sweep(t, order[..|order| - 1], now), order[|order| - 1], now);
      hide SweepOne;
    }
  }

  lemma SweepReleases(t: Tables, order: seq<Id>, now: Time)
    requires Coherent(t)
    ensures Releases(t, Sweep(t, order, now)) && |Unfinished(Sweep(t, order, now))| <= |Unfinished(t)|
  {
    SweepKeeps(t, order, now);
    SweepEvolves(t, order, now);
    SweepNewAttempts(t, order, now);
    SweepAddsNothing(t, order, now);
    hide Coherent, Evolves, Sweep, Releases, Unfinished;
    EvolvingReleases(t, Sweep(t, order, now));
    FewerUnfinished(t, Sweep(t, order, now));
  }

  lemma SweepStaysWithin(s: State, order: seq<Id>, now: Time)
    requires Coherent(s.tables) && WithinLimits(s)
    ensures WithinLimits(SweepState(s, order, now))
  {
    SweepReleases(s.tables, order, now);
    SweepNewAttempts(s.tables, order, now);
    SweepEvolves(s.tables, order, now);
    var t' := Sweep(s.tables, order, now);
    forall a | a in t'.attempts ensures t'.attempts[a].workerID in s.workers {
      assert AttemptEvolves(s.tables.attempts[a], t'.attempts[a]);
    }
    hide Coherent, Releases, Sweep, Unfinished, Evolves, TenantFits, WorkerFits;
    ReleasingStaysWithin(s, SweepState(s, order, now));
  }

  lemma ScheduleStaysWithin(s: State, order: seq<Id>, grant: Option<Grant>, a: Id, token: string, now: Time)
    requires Coherent(s.tables) && WithinLimits(s) && Enabled(s, ScheduleStep(order, grant, a, token, now))
    ensures WithinLimits(Schedule(s, order, grant, a, token, now))
  {
    hide Coherent, WithinLimits, Sweep, IsGrant;
    SweepStaysWithin(s, order, now);
    SweepKeeps(s.tables, order, now);
    SweepsIssueNothing(s.tables, order, now);
    var s1 := SweepState(s, order, now);
    if grant.Some? {
      GrantIsRunnable(s1, grant.value, now);
      hide Lease, Runnable;
      GrantStaysWithin(s1, grant.value, a, token, now);
      var g := grant.value;
      var t' := Lease(s1.tables, g.job, g.worker, a, token, s.config.leaseTTL, now);
      LimitsIgnoreCounters(WithTables(s1, t'), Schedule(s, order, grant, a, token, now));
    }
  }

  // No other step adds an attempt.
  lemma OnlySchedulingLeases(s: State, step: Step)
    requires Coherent(s.tables) && Enabled(s, step) && !step.ScheduleStep?
    ensures Apply(s, step).tables.attempts.Keys <= s.tables.attempts.Keys
  {
    hide Coherent, FreshIds, IdsFor, Classify, SameRevision, Submit, Finish, Cancel, Reconcile, Ensure, Observe, Renew;
    match step
    case SubmitStep(input, p, ids, pick, now) => SubmitAddsNoAttempts(s, input, p, ids, pick, now);
    case FinishStep(a, token, report, now) => FinishAddsNoAttempts(s, a, token, report, now);
    case ReconcileStep(order, now) => ReconcileAddsNoAttempts(s, order, now);
    case BeatStep(a, token, now) => BeatAddsNoAttempts(s, a, token, now);
    case CancelStep(j, now) => CancelAddsNoAttempts(s, j, now);
    case CheckStep(p, check, state, now) =>
    case _ => QuietStep(s, step);
  }

  lemma BeatAddsNoAttempts(s: State, a: Id, token: string, now: Time)
    ensures Beat(s, a, token, now).tables.attempts.Keys == s.tables.attempts.Keys
  {
  }

  lemma CancelAddsNoAttempts(s: State, j: Id, now: Time)
    ensures Cancel(s, j, now).tables.attempts.Keys == s.tables.attempts.Keys
  {
    CancelTables(s, j, now);
    hide Cancel, DoomedJobs;
  }

  lemma CompleteAddsNoAttempts(t: Tables, a: Id, record: Attempt, now: Time)
    requires Located(t, a)
    ensures Complete(t, a, record, now).attempts.Keys == t.attempts.Keys
  {
  }

  lemma FinishAddsNoAttempts(s: State, a: Id, token: string, report: Report, now: Time)
    ensures Finish(s, a, token, report, now).tables.attempts.Keys == s.tables.attempts.Keys
  {
    if LeaseHeld(s.tables, a, token, now) {
      var record := CommittedRecord(s.tables.attempts[a], report, now);
      CommitTables(s, a, record, now);
      CompleteAddsNoAttempts(s.tables, a, record, now);
      hide Commit, Complete;
    }
  }

  lemma ReconcileAddsNoAttempts(s: State, order: seq<Id>, now: Time)
    ensures Reconcile(s, order, now).tables.attempts.Keys <= s.tables.attempts.Keys
  {
    SweepNewAttempts(s.tables, order, now);
    hide Sweep, Prunable;
  }

  lemma SubmitAddsNoAttempts(s: State, input: Submission, p: Id, ids: seq<Id>, pick: Id, now: Time)
    requires IdsFor(input, ids)
    ensures Submit(s, input, p, ids, pick, now).tables.attempts.Keys == s.tables.attempts.Keys
  {
    hide IdsFor, Late, Overflows, Repeats;
    if Classify(s, input, now) == Fresh {
      AcceptTables(s, input, p, ids, now);
      AdvanceTables(s, input, now);
      hide Accept, Advance, Superseded, NewJobs, GenerationOf, WellFormed, Classify;
    } else {
      SubmitLeavesTables(s, input, p, ids, pick, now);
      hide Submit;
    }
  }

  // Only the two worker calls touch workers.
  lemma OthersLeaveWorkers(s: State, step: Step)
    requires Enabled(s, step) && !step.RegisterStep? && !step.WorkerBeatStep?
    ensures Apply(s, step).workers == s.workers
  {
    hide IdsFor, FreshIds, Classify, SameRevision, GrantFits;
    if step.ScheduleStep? {
      hide Sweep, Swept, Lease;
    } else {
      StepSpares(s, step);
      hide Apply, Enabled;
    }
  }

  // Admission is refused rather than letting the queue overflow.
  lemma SubmitRespectsQueue(s: State, input: Submission, p: Id, ids: seq<Id>, pick: Id, now: Time)
    requires Coherent(s.tables) && Enabled(s, SubmitStep(input, p, ids, pick, now))
    requires |Unfinished(s.tables)| <= s.config.maxQueuedJobs
    ensures |Unfinished(Submit(s, input, p, ids, pick, now).tables)| <= s.config.maxQueuedJobs
  {
    hide Coherent, Unfinished, SameRevision, Late, Repeats, Accept;
    if Classify(s, input, now) == Fresh {
      SubmitIsAccept(s, input, p, ids, pick, now);
      assert !Overflows(s, input);
      AcceptRespectsQueue(s, input, p, ids, now);
      hide Classify, Overflows, FreshIds, IdsFor, Submit;
    } else {
      SubmitLeavesTables(s, input, p, ids, pick, now);
      hide Submit, Classify;
    }
  }

  lemma AcceptRespectsQueue(s: State, input: Submission, p: Id, ids: seq<Id>, now: Time)
    requires Coherent(s.tables) && IdsFor(input, ids) && FreshIds(s.tables, p, ids) && WellFormed(input)
    requires |Unfinished(s.tables)| <= s.config.maxQueuedJobs && !Overflows(s, input)
    ensures |Unfinished(Accept(s, input, p, ids, now).tables)| <= s.config.maxQueuedJobs
  {
    hide Coherent, Evolves, Unfinished, Create, GenerationOf, AllIssued;
    AcceptTables(s, input, p, ids, now);
    AdvanceEvolves(s, input, now);
    AdvanceAddsNoJobs(s, input, now);
    hide Accept, Advance, Joined;
    var t1 := Advance(s, input, now).tables;
    FewerUnfinished(s.tables, t1);
    if !input.closed {
      var order := Planner.Plan(input.spec).value;
      CreateJoins(t1, input, order, p, ids, GenerationOf(s, input), now);
      JoinedUnfinished(t1, Create(t1, input, order, p, ids, GenerationOf(s, input), now), ids);
    }
  }

  lemma QueueBounded(s: State, step: Step)
    requires Coherent(s.tables) && Enabled(s, step) && |Unfinished(s.tables)| <= s.config.maxQueuedJobs
    ensures |Unfinished(Apply(s, step).tables)| <= s.config.maxQueuedJobs
  {
    hide Coherent, Unfinished, Evolves, Classify, FreshIds, IdsFor, SameRevision, Submit;
    if step.SubmitStep? {
      SubmitRespectsQueue(s, step.input, step.p, step.ids, step.pick, step.now);
    } else {
      hide Apply, Enabled;
      OnlySubmissionsAsk(s, step);
      StepEvolves(s, step);
      FewerUnfinished(s.tables, Apply(s, step).tables);
    }
  }

  lemma AttemptsStayEmployed(s: State, s': State)
    requires Employed(s) && Evolves(s.tables, s'.tables) && s'.tables.attempts.Keys <= s.tables.attempts.Keys
    requires s.workers.Keys <= s'.workers.Keys
    ensures Employed(s')
  {
    hide NoReturn, Rank;
    forall a | a in s'.tables.attempts ensures s'.tables.attempts[a].workerID in s'.workers {
      assert AttemptEvolves(s.tables.attempts[a], s'.tables.attempts[a]);
    }
    hide Evolves;
  }

  // A worker that was not there before has nothing to do yet.
  lemma NewWorkerIsIdle(s: State, w: Id)
    requires Employed(s) && w != "" && w !in s.workers
    ensures ActiveAttempts(s.tables, "", w) == {} && Used(s.tables, "", w) == Resources(0, 0)
  {
    assert ActiveAttempts(s.tables, "", w) == {};
  }

  lemma RegisterStaysWithin(s: State, w: Id, worker: Worker, now: Time)
    requires WithinLimits(s)
    requires w in s.workers ==> worker.capacity == s.workers[w].capacity && worker.resources == s.workers[w].resources
    ensures WithinLimits(Register(s, w, worker, now))
  {
    var s' := Register(s, w, worker, now);
    if w !in s.workers && w != "" {
      NewWorkerIsIdle(s, w);
    }
    hide Used, ActiveJobs, ActiveAttempts, Unfinished, TenantLimit;
    forall tenant ensures TenantFits(s', tenant) {
      assert TenantFits(s, tenant);
    }
    hide TenantFits;
    forall v | v in s'.workers ensures WorkerFits(s', v) {
      assert v in s.workers ==> WorkerFits(s, v);
    }
  }

  lemma WorkerBeatStaysWithin(s: State, w: Id, now: Time)
    requires WithinLimits(s)
    ensures WithinLimits(WorkerBeat(s, w, now))
  {
    var s' := WorkerBeat(s, w, now);
    hide Used, ActiveJobs, ActiveAttempts, Unfinished, TenantLimit;
    forall tenant ensures TenantFits(s', tenant) {
      assert TenantFits(s, tenant);
    }
    hide TenantFits;
    forall v | v in s'.workers ensures WorkerFits(s', v) {
      assert WorkerFits(s, v);
    }
  }

  lemma WorkerStepStaysWithin(s: State, step: Step)
    requires WithinLimits(s) && KeepsOffer(s, step) && (step.RegisterStep? || step.WorkerBeatStep?)
    ensures Enabled(s, step) && WithinLimits(Apply(s, step))
  {
    hide WithinLimits, Register, WorkerBeat;
    if step.RegisterStep? {
      RegisterStaysWithin(s, step.w, step.worker, step.now);
    } else {
      WorkerBeatStaysWithin(s, step.w, step.now);
    }
  }

  lemma OtherStepStaysWithin(s: State, step: Step)
    requires Coherent(s.tables) && WithinLimits(s) && Enabled(s, step)
    requires !step.RegisterStep? && !step.WorkerBeatStep? && !step.ScheduleStep?
    ensures WithinLimits(Apply(s, step))
  {
    hide Coherent, Enabled, Apply, Evolves, Releases, Unfinished, TenantFits, WorkerFits, ConfigOk, Employed;
    var s' := Apply(s, step);
    StepKeepsCoherent(s, step);
    StepEvolves(s, step);
    OnlySchedulingLeases(s, step);
    EvolvingReleases(s.tables, s'.tables);
    StepKeepsConfig(s, step);
    OthersLeaveWorkers(s, step);
    QueueBounded(s, step);
    AttemptsStayEmployed(s, s');
    ReleasingStaysWithin(s, s');
  }

  lemma StepStaysWithin(s: State, step: Step)
    requires Coherent(s.tables) && WithinLimits(s) && Enabled(s, step) && KeepsOffer(s, step)
    ensures WithinLimits(Apply(s, step))
  {
    hide Coherent, WithinLimits, KeepsOffer, Enabled, Schedule, Register, WorkerBeat;
    if step.ScheduleStep? {
      ScheduleStaysWithin(s, step.order, step.grant, step.a, step.token, step.now);
    } else if step.RegisterStep? || step.WorkerBeatStep? {
      WorkerStepStaysWithin(s, step);
    } else {
      OtherStepStaysWithin(s, step);
    }
    hide Apply;
  }

  // In every reachable state: per tenant, active jobs and the summed demand of its active attempts stay
  // within the limits; per worker, active attempts and summed demand stay within what it advertised;
  // and the queue holds no more than it may.
  lemma {:induction false} LimitsHoldThroughout(states: seq<State>, steps: seq<Step>, i: nat)
    requires SteadyRun(states, steps) && i < |states|
    ensures WithinLimits(states[i])
  {
    hide WithinLimits, Coherent, Apply, Enabled;
    if i > 0 {
      LimitsHoldThroughout(states, steps, i - 1);
      CoherentThroughout(states, steps, i - 1);
      assert Taken(states, steps, i - 1) && KeepsOffer(states[i - 1], steps[i - 1]);
      StepStaysWithin(states[i - 1], steps[i - 1]);
    } else {
      EmptyIsWithin(states[0].config);
    }
  }

  lemma EmptyIsWithin(c: Config)
    requires ConfigOk(c)
    ensures WithinLimits(Init(c))
  {
    var s := Init(c);
    forall tenant ensures TenantFits(s, tenant) {
      assert ActiveJobs(s.tables, tenant) == {} && ActiveAttempts(s.tables, tenant, "") == {};
    }
    assert Unfinished(s.tables) == {};
  }
}
