// Runs after which the number of leases counted as expired depends on the order of the sweep.

module LapsedLeases {
  import opened Domain
  import opened Ordering
  import opened TableModel
  import opened Model
  import opened Coherence
  import opened Steps
  import opened Capacity
  import opened Confluence
  import Planner

  // What a store is configured with unless told otherwise.
  const DEFAULTS :=
    Config(30 * SECOND, 45 * SECOND, 2, map[], "preview.local", 5 * SECOND, 1000, 16, 32768, 7 * 24 * 60 * MINUTE)

  // When leases granted at time 0 run out.
  const LAPSE: Time := 30 * SECOND

  const POOL := Worker("pool", {}, 2, false, Resources(0, 0), 0)

  function Attemptable(limit: int): JobSpec {
    JobSpec("command", "image", ["run"], [], 0, [], false, Resources(0, 0), None, 0, limit, None)
  }

  // Two jobs that need nothing: m may be attempted once, n three times.
  predicate TwoJobs(spec: PipelineSpec, m: string, n: string) {
    && spec.version == 1 && spec.jobs.Keys == {m, n} && m != "" && Less(m, n)
    && spec.jobs[m] == Attemptable(1) && spec.jobs[n] == Attemptable(3)
  }

  // Different identifiers, all of them in use.
  predicate Separate(p: Id, j: Id, k: Id, x: Id, y: Id) {
    && "" !in [p, j, k, x, y]
    && p != j && p != k && p != x && p != y && j != k && j != x && j != y && k != x && k != y && x != y
  }

  function Push(spec: PipelineSpec): Submission {
    Submission("1", "t", "r", "r", "c", "push", 0, false, false, false, 0, 0, spec)
  }

  lemma TwoJobsPlan(spec: PipelineSpec, m: string, n: string)
    requires TwoJobs(spec, m, n)
    ensures Planner.Plan(spec) == Some([m, n]) && OneEnvironment(spec) && m != n
  {
    var order := [m, n];
    LessTotal(m, n);
    assert order[..0] == [] && order[..1] == [m];
    assert m in order && n in order;
    assert Planner.Greedy(spec.jobs, order);
    Planner.GreedyIsSmallest(spec.jobs, order);
    Planner.SmallestIsUnique(spec.jobs, order, Planner.Plan(spec).value);
  }

  // ---- The states of the run ----

  ghost function Staffed(w: Id): State {
    Init(DEFAULTS).(workers := map[w := POOL])
  }

  function QueuedJob(p: Id, name: string, limit: int, sequence: nat): Job {
    Job(p, "t", name, Attemptable(limit), Queued, 0, sequence, [])
  }

  ghost function Planted(spec: PipelineSpec, m: string, n: string, p: Id, j: Id, k: Id): Tables {
    Tables(map[p := NewPipeline(Push(spec), [j, k], 0, 0)],
           map[j := QueuedJob(p, m, 1, 1), k := QueuedJob(p, n, 3, 2)],
           map[], Tally(0, 0, 0), 2, {p, j, k})
  }

  ghost function Filled(spec: PipelineSpec, m: string, n: string, p: Id, j: Id, k: Id, w: Id): State {
    Remember(CountAccepted(Staffed(w)), Push(spec), p).(tables := Planted(spec, m, n, p, j, k))
  }

  // ---- The steps ----

  lemma Registers(w: Id)
    requires w != ""
    ensures var step := RegisterStep(w, POOL, 0);
      Enabled(Init(DEFAULTS), step) && Assumed(Init(DEFAULTS), step) && Apply(Init(DEFAULTS), step) == Staffed(w)
  {
  }

  lemma PushIsFresh(spec: PipelineSpec, m: string, n: string, w: Id)
    requires Planner.Plan(spec) == Some([m, n])
    ensures WellFormed(Push(spec)) && Classify(Staffed(w), Push(spec), 0) == Fresh
  {
    assert Unfinished(Staffed(w).tables) == {};
  }

  lemma PushedJobs(spec: PipelineSpec, m: string, n: string, p: Id, j: Id, k: Id)
    requires TwoJobs(spec, m, n) && j != k
    ensures NewJobs(Push(spec), [m, n], p, [j, k], 0, 0) == map[j := QueuedJob(p, m, 1, 1), k := QueuedJob(p, n, 3, 2)]
  {
    var ids := [j, k];
    assert j in ids && k in ids;
    assert IndexOf(ids, j) == 0 && IndexOf(ids, k) == 1;
    hide IndexOf, QueuedJob, Less;
  }

  lemma PushCreates(spec: PipelineSpec, m: string, n: string, p: Id, j: Id, k: Id, w: Id)
    requires TwoJobs(spec, m, n) && j != k
    ensures Create(Staffed(w).tables, Push(spec), [m, n], p, [j, k], 0, 0) == Planted(spec, m, n, p, j, k)
  {
    PushedJobs(spec, m, n, p, j, k);
    hide NewJobs, NewPipeline, QueuedJob, Less, Attemptable;
    assert (set i | i in [j, k]) == {j, k};
  }

  lemma AcceptFills(spec: PipelineSpec, m: string, n: string, p: Id, j: Id, k: Id, w: Id)
    requires TwoJobs(spec, m, n) && j != k && Planner.Plan(spec) == Some([m, n])
    ensures Accept(Staffed(w), Push(spec), p, [j, k], 0) == Filled(spec, m, n, p, j, k, w)
  {
    PushCreates(spec, m, n, p, j, k, w);
    hide Create, TwoJobs, Planted;
  }

  lemma PushIsEnabled(spec: PipelineSpec, m: string, n: string, p: Id, j: Id, k: Id, w: Id)
    requires Planner.Plan(spec) == Some([m, n]) && OneEnvironment(spec)
    requires p != "" && j != "" && k != "" && p != j && p != k && j != k
    ensures var step := SubmitStep(Push(spec), p, [j, k], "", 0); Enabled(Staffed(w), step) && Assumed(Staffed(w), step)
  {
    hide Classify, WellFormed, OneEnvironment;
    PushIsFresh(spec, m, n, w);
    assert FreshIds(Staffed(w).tables, p, [j, k]) by {
      assert Distinct([j, k]);
    }
    hide FreshIds;
  }

  lemma Submits(spec: PipelineSpec, m: string, n: string, p: Id, j: Id, k: Id, w: Id)
    requires TwoJobs(spec, m, n) && p != "" && j != "" && k != "" && p != j && p != k && j != k
    ensures var step := SubmitStep(Push(spec), p, [j, k], "", 0);
      && Enabled(Staffed(w), step) && Assumed(Staffed(w), step)
      && Apply(Staffed(w), step) == Filled(spec, m, n, p, j, k, w)
  {
    TwoJobsPlan(spec, m, n);
    PushIsEnabled(spec, m, n, p, j, k, w);
    PushIsFresh(spec, m, n, w);
    AcceptFills(spec, m, n, p, j, k, w);
    hide Accept, Classify, WellFormed, TwoJobs, Planted, OneEnvironment, Enabled, Assumed, Push, Staffed, Filled;
    SubmitIsAccept(Staffed(w), Push(spec), p, [j, k], "", 0);
    hide Submit;
  }

  // ---- Scheduling jobs that ask for nothing ----

  ghost predicate Modest(t: Tables) {
    forall j :: j in t.jobs ==> t.jobs[j].spec.resources == Resources(0, 0)
  }

  lemma {:induction false} ModestTotal(t: Tables, attempts: set<Id>)
    requires Modest(t)
    ensures Total(t, attempts) == Resources(0, 0)
  {
    if attempts != {} {
      var a :| a in attempts;
      hide Total;
      ModestTotal(t, attempts - {a});
      TotalInsert(t, attempts - {a}, a);
      assert attempts - {a} + {a} == attempts;
    }
  }

  // The only worker takes the job that goes first.
  lemma FirstIsGranted(s: State, j: Id, w: Id, now: Time)
    requires s.config == DEFAULTS && s.workers == map[w := POOL] && Modest(s.tables) && 0 <= now <= LAPSE
    requires Runnable(s.tables, j) && !s.tables.jobs[j].spec.trusted && s.tables.jobs[j].spec.capabilities == []
    requires |ActiveJobs(s.tables, s.tables.jobs[j].tenant)| < 2 && |ActiveAttempts(s.tables, "", w)| < 2
    requires forall k :: Runnable(s.tables, k) && k != j ==>
      s.tables.jobs[k].tenant == s.tables.jobs[j].tenant && JobBefore(s.tables.jobs[j], s.tables.jobs[k])
    ensures IsGrant(s, Grant(j, w), now)
  {
    var t := s.tables;
    ModestTotal(t, ActiveAttempts(t, t.jobs[j].tenant, ""));
    ModestTotal(t, ActiveAttempts(t, "", w));
    assert WithinTenant(s, j);
    assert Eligible(s, w, t.jobs[j].spec, now);
    hide Runnable, WithinTenant, Used, ActiveJobs, ActiveAttempts, JobBefore, Total;
  }

  lemma NothingToSweep(s: State, order: seq<Id>, now: Time)
    requires |order| <= 1 && forall a :: a in order ==> !Expired(s.tables, a, now)
    ensures SweepState(s, order, now) == s
  {
    hide Expired;
    if order != [] {
      assert order[..|order| - 1] == [] && order[0] in order;
      assert Sweep(s.tables, [], now) == s.tables && Swept(s.tables, [], now) == 0;
      assert Sweep(s.tables, order, now) == s.tables && Swept(s.tables, order, now) == 0;
    }
  }

  // The step that grants the lease of one job, when no lease has run out.
  lemma Schedules(s: State, order: seq<Id>, j: Id, w: Id, a: Id)
    requires |order| <= 1 && Enumerates(order, s.tables.attempts.Keys)
    requires forall x :: x in order ==> !Expired(s.tables, x, 0)
    requires IsGrant(s, Grant(j, w), 0) && a !in s.tables.issued && a != ""
    ensures var step := ScheduleStep(order, Some(Grant(j, w)), a, "", 0);
      && Enabled(s, step) && Assumed(s, step) && Apply(s, step) == Place(s, Some(Grant(j, w)), a, "", 0)
  {
    NothingToSweep(s, order, 0);
    hide SweepState, Place, IsGrant, Expired;
  }

  // ---- The two grants ----

  ghost function LeasedOne(spec: PipelineSpec, m: string, n: string, p: Id, j: Id, k: Id, w: Id, x: Id): Tables {
    Tables(map[p := NewPipeline(Push(spec), [j, k], 0, 0).(status := Running)],
           map[j := LeasedJob(QueuedJob(p, m, 1, 1), x), k := QueuedJob(p, n, 3, 2)],
           map[x := NewAttempt(j, 1, w, "", LAPSE, 0)], Tally(0, 0, 0), 2, {p, j, k, x})
  }

  ghost function LeasedBoth(spec: PipelineSpec, m: string, n: string, p: Id, j: Id, k: Id, w: Id, x: Id,
                            y: Id): Tables {
    Tables(map[p := NewPipeline(Push(spec), [j, k], 0, 0).(status := Running)],
           map[j := LeasedJob(QueuedJob(p, m, 1, 1), x), k := LeasedJob(QueuedJob(p, n, 3, 2), y)],
           map[x := NewAttempt(j, 1, w, "", LAPSE, 0), y := NewAttempt(k, 1, w, "", LAPSE, 0)],
           Tally(0, 0, 0), 2, {p, j, k, x, y})
  }

  lemma LeasesFirst(spec: PipelineSpec, m: string, n: string, p: Id, j: Id, k: Id, w: Id, x: Id)
    requires j != k
    ensures Lease(Planted(spec, m, n, p, j, k), j, w, x, "", LAPSE, 0) == LeasedOne(spec, m, n, p, j, k, w, x)
  {
    hide NewPipeline;
    var t, t' := Planted(spec, m, n, p, j, k), LeasedOne(spec, m, n, p, j, k, w, x);
    assert t.jobs[j := LeasedJob(t.jobs[j], x)] == t'.jobs;
    assert t.issued + {x} == t'.issued;
  }

  lemma LeasesSecond(spec: PipelineSpec, m: string, n: string, p: Id, j: Id, k: Id, w: Id, x: Id, y: Id)
    requires j != k && x != y
    ensures Lease(LeasedOne(spec, m, n, p, j, k, w, x), k, w, y, "", LAPSE, 0)
      == LeasedBoth(spec, m, n, p, j, k, w, x, y)
  {
    hide NewPipeline;
  }

  lemma FirstInLine(spec: PipelineSpec, m: string, n: string, p: Id, j: Id, k: Id, w: Id)
    requires j != k
    ensures IsGrant(Filled(spec, m, n, p, j, k, w), Grant(j, w), 0)
  {
    var s := Filled(spec, m, n, p, j, k, w);
    assert ActiveJobs(s.tables, "t") == {} && ActiveAttempts(s.tables, "", w) == {};
    hide NewPipeline, IsGrant;
    FirstIsGranted(s, j, w, 0);
  }

  lemma SecondInLine(s: State, spec: PipelineSpec, m: string, n: string, p: Id, j: Id, k: Id, w: Id, x: Id)
    requires j != k && s.config == DEFAULTS && s.workers == map[w := POOL]
    requires s.tables == LeasedOne(spec, m, n, p, j, k, w, x)
    ensures IsGrant(s, Grant(k, w), 0)
  {
    hide NewPipeline, IsGrant;
    assert ActiveJobs(s.tables, "t") == {j} && ActiveAttempts(s.tables, "", w) == {x};
    FirstIsGranted(s, k, w, 0);
  }

  lemma Granted(s: State, j: Id, w: Id, a: Id)
    requires Grantable(s, Grant(j, w)) && s.config == DEFAULTS
    ensures var s' := Place(s, Some(Grant(j, w)), a, "", 0);
      && s'.tables == Lease(s.tables, j, w, a, "", LAPSE, 0)
      && s'.config == s.config && s'.workers == s.workers && s'.metrics.leasesExpired == s.metrics.leasesExpired
  {
    hide Lease;
  }

  // ---- Both leases run out ----

  lemma BothLapse(t: Tables, spec: PipelineSpec, m: string, n: string, p: Id, j: Id, k: Id, w: Id, x: Id, y: Id)
    requires t == LeasedBoth(spec, m, n, p, j, k, w, x, y) && j != k && x != y
    ensures Mixed(t, x, y, LAPSE) && Enumerates([x, y], t.attempts.Keys) && Enumerates([y, x], t.attempts.Keys)
  {
    hide NewPipeline;
    assert Located(t, x) && Located(t, y);
    assert JobTimeout(t.jobs[k].spec) == 900 * SECOND;
  }

  lemma Reconciles(s: State, order: seq<Id>, now: Time)
    ensures Reconcile(s, order, now).metrics.leasesExpired == s.metrics.leasesExpired + Swept(s.tables, order, now)
  {
    hide Sweep, Swept, Drop;
  }

  lemma CountsOf(s: State, x: Id, y: Id)
    requires Enumerates([x, y], s.tables.attempts.Keys) && Enumerates([y, x], s.tables.attempts.Keys)
    requires s.metrics.leasesExpired == 0
    ensures Enabled(s, ReconcileStep([x, y], LAPSE)) && Enabled(s, ReconcileStep([y, x], LAPSE))
    ensures Apply(s, ReconcileStep([x, y], LAPSE)).metrics.leasesExpired == Swept(s.tables, [x, y], LAPSE)
    ensures Apply(s, ReconcileStep([y, x], LAPSE)).metrics.leasesExpired == Swept(s.tables, [y, x], LAPSE)
  {
    Reconciles(s, [x, y], LAPSE);
    Reconciles(s, [y, x], LAPSE);
    hide Reconcile, Swept;
  }

  lemma FirstStillHeld(t: Tables, spec: PipelineSpec, m: string, n: string, p: Id, j: Id, k: Id, w: Id, x: Id)
    requires t == LeasedOne(spec, m, n, p, j, k, w, x)
    ensures Enumerates([x], t.attempts.Keys) && !Expired(t, x, 0)
  {
    hide NewPipeline;
  }

  // Each step can be taken where the last one led, and meets all assumptions.
  ghost predicate Chain(states: seq<State>, steps: seq<Step>) {
    && |states| == |steps| + 1
    && forall i {:trigger steps[i]} :: 0 <= i < |steps| ==>
      Enabled(states[i], steps[i]) && Assumed(states[i], steps[i]) && states[i + 1] == Apply(states[i], steps[i])
  }

  lemma IsRun(states: seq<State>, steps: seq<Step>)
    requires Chain(states, steps) && states[0] == Init(DEFAULTS)
    ensures AssumedRun(states, steps)
  {
    hide Enabled, Apply, NamesTenant, KeepsOffer, SpellsRepository, AsksForOnePreview, ReportsDeletion;
  }

  lemma BothAreLeased(spec: PipelineSpec, m: string, n: string, p: Id, j: Id, k: Id, w: Id, x: Id, y: Id)
    returns (states: seq<State>, steps: seq<Step>, s: State)
    requires TwoJobs(spec, m, n) && Separate(p, j, k, x, y) && w != ""
    ensures AssumedRun(states, steps) && |states| == |steps| + 1 && s == states[|steps|]
    ensures s.tables == LeasedBoth(spec, m, n, p, j, k, w, x, y) && s.metrics.leasesExpired == 0
  {
    hide TwoJobs, Enabled, Assumed, Apply, AssumedRun, Staffed, Push, LeasedOne, LeasedBoth;
    var s0, s1, s2 := Init(DEFAULTS), Staffed(w), Filled(spec, m, n, p, j, k, w);
    Registers(w);
    Submits(spec, m, n, p, j, k, w);
    var step2, s3 := LeaseFirst(s2, spec, m, n, p, j, k, w, x);
    var step3;
    step3, s := LeaseSecond(s3, spec, m, n, p, j, k, w, x, y);
    hide Filled;
    steps := [RegisterStep(w, POOL, 0), SubmitStep(Push(spec), p, [j, k], "", 0), step2, step3];
    states := [s0, s1, s2, s3, s];
    IsRun(states, steps);
  }

  lemma LeaseFirst(s: State, spec: PipelineSpec, m: string, n: string, p: Id, j: Id, k: Id, w: Id, x: Id)
    returns (step: Step, s': State)
    requires s == Filled(spec, m, n, p, j, k, w) && x != "" && x !in {p, j, k} && j != k
    ensures Enabled(s, step) && Assumed(s, step) && s' == Apply(s, step)
    ensures s'.tables == LeasedOne(spec, m, n, p, j, k, w, x)
    ensures s'.config == DEFAULTS && s'.workers == map[w := POOL] && s'.metrics.leasesExpired == 0
  {
    step, s' := ScheduleStep([], Some(Grant(j, w)), x, "", 0), Place(s, Some(Grant(j, w)), x, "", 0);
    hide Place, IsGrant, Enabled, Assumed, Apply, Lease, LeasedOne, NewPipeline;
    FirstInLine(spec, m, n, p, j, k, w);
    Granted(s, j, w, x);
    LeasesFirst(spec, m, n, p, j, k, w, x);
    assert s.tables.attempts.Keys == {};
    Schedules(s, [], j, w, x);
  }

  lemma LeaseSecond(s: State, spec: PipelineSpec, m: string, n: string, p: Id, j: Id, k: Id, w: Id, x: Id, y: Id)
    returns (step: Step, s': State)
    requires s.tables == LeasedOne(spec, m, n, p, j, k, w, x) && y != "" && y !in {p, j, k, x} && j != k
    requires s.config == DEFAULTS && s.workers == map[w := POOL] && s.metrics.leasesExpired == 0
    ensures Enabled(s, step) && Assumed(s, step) && s' == Apply(s, step)
    ensures s'.tables == LeasedBoth(spec, m, n, p, j, k, w, x, y) && s'.metrics.leasesExpired == 0
  {
    step, s' := ScheduleStep([x], Some(Grant(k, w)), y, "", 0), Place(s, Some(Grant(k, w)), y, "", 0);
    hide Place, IsGrant, Enabled, Assumed, Apply, Lease, LeasedBoth, NewPipeline, Expired;
    SecondInLine(s, spec, m, n, p, j, k, w, x);
    FirstStillHeld(s.tables, spec, m, n, p, j, k, w, x);
    Granted(s, k, w, y);
    LeasesSecond(spec, m, n, p, j, k, w, x, y);
    Schedules(s, [x], k, w, y);
  }

  // From the empty store: a worker registers, a pipeline of two independent jobs is submitted, one of them with a
  // single attempt, both are leased, and both leases run out. Reconciling then counts one expired lease or two.
  lemma CountDependsOnOrder(spec: PipelineSpec, m: string, n: string, p: Id, j: Id, k: Id, w: Id, x: Id, y: Id)
    returns (states: seq<State>, steps: seq<Step>)
    requires TwoJobs(spec, m, n) && Separate(p, j, k, x, y) && w != ""
    ensures AssumedRun(states, steps) && |states| == |steps| + 1
    ensures var s := states[|steps|];
      && Mixed(s.tables, x, y, LAPSE)
      && Enabled(s, ReconcileStep([x, y], LAPSE)) && Enabled(s, ReconcileStep([y, x], LAPSE))
      && Apply(s, ReconcileStep([x, y], LAPSE)).metrics.leasesExpired == 1
      && Apply(s, ReconcileStep([y, x], LAPSE)).metrics.leasesExpired == 2
  {
    var s;
    states, steps, s := BothAreLeased(spec, m, n, p, j, k, w, x, y);
    hide Apply, Enabled, Assumed, LeasedBoth, Mixed;
    CoherentThroughout(states, steps, |steps|);
    BothLapse(s.tables, spec, m, n, p, j, k, w, x, y);
    hide Coherent, Run;
    SwapFirst(s.tables, x, y, LAPSE);
    CountsOf(s, x, y);
  }

  // There are such configurations and identifiers, and so there is such a run.
  lemma CountMayDiffer() returns (states: seq<State>, steps: seq<Step>, x: Id, y: Id)
    ensures AssumedRun(states, steps) && |states| == |steps| + 1
    ensures var s := states[|steps|];
      && Enabled(s, ReconcileStep([x, y], LAPSE)) && Enabled(s, ReconcileStep([y, x], LAPSE))
      && Apply(s, ReconcileStep([x, y], LAPSE)).metrics.leasesExpired == 1
      && Apply(s, ReconcileStep([y, x], LAPSE)).metrics.leasesExpired == 2
  {
    hide Apply, Enabled, AssumedRun;
    var spec := PipelineSpec(1, map["a" := Attemptable(1), "b" := Attemptable(3)]);
    assert TwoJobs(spec, "a", "b");
    hide TwoJobs;
    x, y := "x", "y";
    states, steps := CountDependsOnOrder(spec, "a", "b", "p", "j", "k", "w", x, y);
  }
}
