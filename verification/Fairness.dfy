// The scheduler's choice is determined by the state, and tenants take turns.

module Fairness {
  import opened Domain
  import opened Ordering
  import opened TableModel
  import opened Model
  import opened Coherence
  import opened Steps
  import opened Evolution
  import opened Counters
  import opened Fence

  // ---- The turn order ----

  lemma TurnIsTotal(last: string, x: string, y: string)
    ensures x != y ==> (TurnBefore(last, x, y) <==> !TurnBefore(last, y, x))
    ensures !TurnBefore(last, x, x)
  {
    LessTotal(x, y);
    LessTotal(x, x);
  }

  lemma TurnIsTransitive(last: string, x: string, y: string, z: string)
    requires TurnBefore(last, x, y) && TurnBefore(last, y, z)
    ensures TurnBefore(last, x, z)
  {
    LessIsStrictTotalOrder();
  }

  // Seen from last, everything between x and z lies behind x and before z.
  lemma TurnAdvances(last: string, x: string, y: string, z: string)
    requires x != "" && TurnBefore(last, x, z) && TurnBefore(x, y, z)
    ensures TurnBefore(last, x, y) && TurnBefore(last, y, z)
  {
    LessIsStrictTotalOrder();
  }

  // ---- One grant fits ----

  lemma JobOrderIsTotal(t: Tables, j: Id, k: Id)
    requires Numbered(t) && j in t.jobs && k in t.jobs && j != k
    ensures JobBefore(t.jobs[j], t.jobs[k]) <==> !JobBefore(t.jobs[k], t.jobs[j])
  {
  }

  // Whatever order the maps are ranged over in, the scheduler can only make one choice.
  lemma GrantIsUnique(s: State, g: Grant, h: Grant, now: Time)
    requires Numbered(s.tables) && IsGrant(s, g, now) && IsGrant(s, h, now)
    ensures g == h
  {
    var x, y := s.tables.jobs[g.job].tenant, s.tables.jobs[h.job].tenant;
    hide Placeable, Eligible;
    TurnIsTotal(s.lastTenant, x, y);
    if g.job != h.job {
      assert g.job in s.tables.jobs && h.job in s.tables.jobs;
      JobOrderIsTotal(s.tables, g.job, h.job);
    }
    LessTotal(g.worker, h.worker);
  }

  lemma PlaceableIsJob(s: State, j: Id, now: Time)
    requires Placeable(s, j, now)
    ensures j in s.tables.jobs
  {
  }

  // A job comes before another: an earlier tenant, or the same tenant and an earlier job.
  ghost predicate Ahead(s: State, j: Id, k: Id)
    requires j in s.tables.jobs && k in s.tables.jobs
  {
    var x, y := s.tables.jobs[j].tenant, s.tables.jobs[k].tenant;
    if x != y then TurnBefore(s.lastTenant, x, y) else JobBefore(s.tables.jobs[j], s.tables.jobs[k])
  }

  lemma AheadIsOrder(s: State, i: Id, j: Id, k: Id)
    requires Numbered(s.tables) && i in s.tables.jobs && j in s.tables.jobs && k in s.tables.jobs
    ensures j != k ==> (Ahead(s, j, k) <==> !Ahead(s, k, j))
    ensures Ahead(s, i, j) && Ahead(s, j, k) ==> Ahead(s, i, k)
  {
    var x, y, z := s.tables.jobs[i].tenant, s.tables.jobs[j].tenant, s.tables.jobs[k].tenant;
    TurnIsTotal(s.lastTenant, y, z);
    TurnIsTotal(s.lastTenant, x, y);
    if TurnBefore(s.lastTenant, x, y) && TurnBefore(s.lastTenant, y, z) {
      TurnIsTransitive(s.lastTenant, x, y, z);
    }
    hide TurnBefore;
  }

  lemma {:induction false} FirstAhead(s: State, jobs: set<Id>) returns (j: Id)
    requires Numbered(s.tables) && jobs != {} && jobs <= s.tables.jobs.Keys
    ensures j in jobs && forall k :: k in jobs && k != j ==> Ahead(s, j, k)
  {
    hide Ahead, Numbered;
    var x :| x in jobs;
    j := x;
    var rest := jobs - {x};
    assert forall k :: k in jobs && k != x ==> k in rest;
    if rest != {} {
      var i := FirstAhead(s, rest);
      AheadIsOrder(s, i, i, x);
      if Ahead(s, i, x) {
        j := i;
      } else {
        forall k | k in rest && k != i ensures Ahead(s, x, k) {
          AheadIsOrder(s, x, i, k);
        }
      }
    }
  }

  // As long as some job can be placed, there is a grant.
  lemma GrantExists(s: State, now: Time) returns (grant: Option<Grant>)
    requires Numbered(s.tables)
    ensures GrantFits(s, grant, now)
    ensures grant.None? <==> forall j :: !Placeable(s, j, now)
  {
    var jobs := set j | j in s.tables.jobs && Placeable(s, j, now);
    grant := None;
    if j :| Placeable(s, j, now) {
      PlaceableIsJob(s, j, now);
      assert j in jobs;
      hide Numbered, Ahead;
      var first := FirstAhead(s, jobs);
      var w := FirstWorker(s, first, now);
      grant := Some(Grant(first, w));
      FirstIsGrant(s, jobs, grant.value, now);
    }
  }

  lemma FirstWorker(s: State, j: Id, now: Time) returns (w: Id)
    requires Placeable(s, j, now)
    ensures Eligible(s, w, s.tables.jobs[j].spec, now)
    ensures forall v :: Eligible(s, v, s.tables.jobs[j].spec, now) && v != w ==> Less(w, v)
  {
    var spec := s.tables.jobs[j].spec;
    var workers := set v | v in s.workers && Eligible(s, v, spec, now);
    var v :| Eligible(s, v, spec, now);
    assert v in workers;
    w := Min(workers);
    assert forall u :: Eligible(s, u, spec, now) ==> u in workers;
    hide Eligible;
  }

  lemma FirstIsGrant(s: State, jobs: set<Id>, g: Grant, now: Time)
    requires jobs == (set j | j in s.tables.jobs && Placeable(s, j, now))
    requires g.job in jobs && forall k :: k in jobs && k != g.job ==> Ahead(s, g.job, k)
    requires Eligible(s, g.worker, s.tables.jobs[g.job].spec, now)
    requires forall v :: Eligible(s, v, s.tables.jobs[g.job].spec, now) && v != g.worker ==> Less(g.worker, v)
    ensures IsGrant(s, g, now)
  {
    forall k | Placeable(s, k, now) ensures k in jobs {
      PlaceableIsJob(s, k, now);
    }
    hide Placeable, Eligible, JobBefore, TurnBefore;
  }

  // ---- Whose turn it was last ----

  lemma OthersKeepTurn(s: State, step: Step)
    requires Enabled(s, step) && !step.ScheduleStep?
    ensures Apply(s, step).lastTenant == s.lastTenant
  {
    hide IdsFor, FreshIds, Classify, SameRevision, GrantFits;
    if !step.RegisterStep? && !step.WorkerBeatStep? {
      StepSpares(s, step);
      hide Apply, Enabled;
    }
  }

  lemma GrantTakesTurn(s: State, order: seq<Id>, grant: Option<Grant>, a: Id, token: string, now: Time)
    requires Coherent(s.tables) && GrantFits(SweepState(s, order, now), grant, now)
    ensures var s1, s' := SweepState(s, order, now), Schedule(s, order, grant, a, token, now);
      if grant.Some? then grant.value.job in s1.tables.jobs && s'.lastTenant == s1.tables.jobs[grant.value.job].tenant
      else s'.lastTenant == s.lastTenant
  {
    SweepKeeps(s.tables, order, now);
    if grant.Some? {
      GrantIsRunnable(SweepState(s, order, now), grant.value, now);
    }
    hide Coherent, Sweep, Lease, IsGrant, Runnable;
  }

  // ---- Tenants have names ----

  ghost predicate Named(t: Tables) {
    forall p :: p in t.pipelines ==> t.pipelines[p].tenant != ""
  }

  lemma StepStaysNamed(s: State, step: Step)
    requires Coherent(s.tables) && Named(s.tables) && Enabled(s, step) && NamesTenant(step)
    ensures Named(Apply(s, step).tables)
  {
    hide Coherent, Classify, Submit, IdsFor, FreshIds, SameRevision, NoReturn, Rank;
    StepEvolves(s, step);
    if step.SubmitStep? {
      CreatedAt(s, step.input, step.p, step.ids, step.pick, step.now);
    } else {
      OnlySubmissionsAsk(s, step);
      hide Apply, Enabled;
    }
  }

  lemma {:induction false} NamedThroughout(states: seq<State>, steps: seq<Step>, i: nat)
    requires NamedRun(states, steps) && i < |states|
    ensures Named(states[i].tables)
  {
    hide Apply, Enabled, Coherent;
    if i > 0 {
      NamedThroughout(states, steps, i - 1);
      CoherentThroughout(states, steps, i - 1);
      assert Taken(states, steps, i - 1) && NamesTenant(steps[i - 1]);
      StepStaysNamed(states[i - 1], steps[i - 1]);
    }
  }

  // ---- Rounds ----

  // Step m is a scheduling round, and some job of the tenant can be placed in it.
  ghost predicate Waits(states: seq<State>, steps: seq<Step>, m: int, tenant: string) {
    0 <= m < |steps| && m < |states| && steps[m].ScheduleStep?
    && TenantPlaceable(SweepState(states[m], steps[m].order, steps[m].now), tenant, steps[m].now)
  }

  predicate IsRound(steps: seq<Step>, m: int) {
    0 <= m < |steps| && steps[m].ScheduleStep?
  }

  // The tenant waits in every round of a stretch.
  ghost predicate WaitsThroughout(states: seq<State>, steps: seq<Step>, i: nat, k: nat, tenant: string) {
    forall m {:trigger IsRound(steps, m)} :: i <= m < k && IsRound(steps, m) ==> Waits(states, steps, m, tenant)
  }

  predicate Served(states: seq<State>, steps: seq<Step>, m: int, tenant: string) {
    0 <= m < |steps| && m + 1 < |states| && steps[m].ScheduleStep? && steps[m].grant.Some?
      && states[m + 1].lastTenant == tenant
  }

  predicate NotServed(states: seq<State>, steps: seq<Step>, i: nat, k: nat, tenant: string) {
    forall m {:trigger IsRound(steps, m)} :: i <= m < k && IsRound(steps, m) ==> !Served(states, steps, m, tenant)
  }

  // In a round in which a tenant waits, somebody is served, and if it is another tenant then one whose
  // turn comes before.
  lemma RoundServes(states: seq<State>, steps: seq<Step>, m: nat, tenant: string)
    requires NamedRun(states, steps) && m < |steps| && Waits(states, steps, m, tenant)
    ensures m + 1 < |states| && states[m + 1].lastTenant != "" && Served(states, steps, m, states[m + 1].lastTenant)
    ensures states[m + 1].lastTenant != tenant ==> TurnBefore(states[m].lastTenant, states[m + 1].lastTenant, tenant)
  {
    hide Apply, Enabled, Coherent, TenantPlaceable, TurnBefore;
    assert Taken(states, steps, m);
    CoherentThroughout(states, steps, m);
    NamedThroughout(states, steps, m);
    hide Run;
    OneRound(states[m], steps[m], tenant);
  }

  lemma OneRound(s: State, step: Step, tenant: string)
    requires Coherent(s.tables) && Named(s.tables) && Enabled(s, step) && step.ScheduleStep?
    requires TenantPlaceable(SweepState(s, step.order, step.now), tenant, step.now)
    ensures var s' := Apply(s, step);
      step.grant.Some? && s'.lastTenant != ""
        && (s'.lastTenant != tenant ==> TurnBefore(s.lastTenant, s'.lastTenant, tenant))
  {
    hide Coherent, SweepState, Schedule, TurnBefore, Eligible, Runnable, WithinTenant;
    var s1 := SweepState(s, step.order, step.now);
    GrantTakesTurn(s, step.order, step.grant, step.a, step.token, step.now);
    SweepTurn(s, step.order, step.now);
    SweepKeeps(s.tables, step.order, step.now);
    SweepNames(s, step.order, step.now);
    assert TenantPlaceable(s1, tenant, step.now);
    if step.grant.Some? {
      JobIsNamed(s1.tables, step.grant.value.job);
    }
  }

  lemma SweepTurn(s: State, order: seq<Id>, now: Time)
    ensures SweepState(s, order, now).lastTenant == s.lastTenant
    ensures SweepState(s, order, now).tables == Sweep(s.tables, order, now)
  {
  }

  lemma SweepNames(s: State, order: seq<Id>, now: Time)
    requires Coherent(s.tables) && Named(s.tables)
    ensures Named(Sweep(s.tables, order, now))
  {
    SweepEvolves(s.tables, order, now);
    SweepAddsNothing(s.tables, order, now);
    hide NoReturn, Rank, Coherent, Sweep;
  }

  lemma JobIsNamed(t: Tables, j: Id)
    requires Coherent(t) && Named(t) && j in t.jobs
    ensures t.jobs[j].tenant != ""
  {
    assert JobRefs(t, j);
  }

  // Steps in which nobody is served leave the turn where it is.
  lemma IdleKeepsTurn(states: seq<State>, steps: seq<Step>, m: nat)
    requires Run(states, steps) && m < |steps| && !IsRound(steps, m)
    ensures states[m + 1].lastTenant == states[m].lastTenant
  {
    hide Apply, Enabled;
    assert Taken(states, steps, m);
    OthersKeepTurn(states[m], steps[m]);
  }

  // The rounds from i to k serve tenants ever further along the interval from the last one served to the
  // waiting one.
  ghost predicate Along(states: seq<State>, steps: seq<Step>, i: nat, k: nat, tenant: string) {
    && i <= k < |states| == |steps| + 1
    && var last, y := states[i].lastTenant, states[k].lastTenant;
    && (y == last ==> forall m {:trigger IsRound(steps, m)} :: i <= m < k ==> !IsRound(steps, m))
    && (y != last ==> y != "" && TurnBefore(last, y, tenant))
    && (forall m {:trigger IsRound(steps, m)} :: i <= m < k && IsRound(steps, m) ==>
          && TurnBefore(last, states[m + 1].lastTenant, tenant)
          && (states[m + 1].lastTenant == y || TurnBefore(last, states[m + 1].lastTenant, y)))
    && forall m, n {:trigger IsRound(steps, m), IsRound(steps, n)} ::
         i <= m < n < k && IsRound(steps, m) && IsRound(steps, n)
         ==> TurnBefore(last, states[m + 1].lastTenant, states[n + 1].lastTenant)
  }

  lemma AlongOneRound(states: seq<State>, steps: seq<Step>, i: nat, k: nat, tenant: string)
    requires Along(states, steps, i, k, tenant) && IsRound(steps, k)
    requires states[k + 1].lastTenant != "" && TurnBefore(states[k].lastTenant, states[k + 1].lastTenant, tenant)
    ensures Along(states, steps, i, k + 1, tenant)
  {
    var last, y, z := states[i].lastTenant, states[k].lastTenant, states[k + 1].lastTenant;
    NobodyBeforeItself(last, z, tenant);
    if y != last {
      TurnAdvances(last, y, z, tenant);
      forall x | TurnBefore(last, x, y) ensures TurnBefore(last, x, z) {
        TurnIsTransitive(last, x, y, z);
      }
    }
    hide TurnBefore;
  }

  lemma NobodyBeforeItself(last: string, x: string, tenant: string)
    requires x != ""
    ensures !TurnBefore(x, x, tenant)
    ensures TurnBefore(last, x, tenant) ==> x != last
  {
    LessTotal(x, x);
  }

  lemma {:induction false} RoundsGoAlong(states: seq<State>, steps: seq<Step>, i: nat, k: nat, tenant: string)
    requires NamedRun(states, steps) && i <= k <= |steps|
    requires WaitsThroughout(states, steps, i, k, tenant) && NotServed(states, steps, i, k, tenant)
    ensures Along(states, steps, i, k, tenant)
  {
    hide NamedRun, Waits, TurnBefore;
    RunLength(states, steps);
    if i < k {
      RoundsGoAlong(states, steps, i, k - 1, tenant);
      if IsRound(steps, k - 1) {
        RoundServes(states, steps, k - 1, tenant);
        AlongOneRound(states, steps, i, k - 1, tenant);
      } else {
        NamedIdle(states, steps, k - 1);
      }
    }
  }

  // While a tenant waits and is not served, every round serves a tenant strictly inside the cyclic interval
  // from the last tenant served to the waiting one, each further along than all before: nobody is served twice.
  lemma BoundedBypass(states: seq<State>, steps: seq<Step>, i: nat, k: nat, tenant: string)
    requires NamedRun(states, steps) && i <= k <= |steps|
    requires WaitsThroughout(states, steps, i, k, tenant) && NotServed(states, steps, i, k, tenant)
    ensures |states| == |steps| + 1
    ensures forall m {:trigger IsRound(steps, m)} :: i <= m < k && IsRound(steps, m) ==>
      && Served(states, steps, m, states[m + 1].lastTenant)
      && TurnBefore(states[i].lastTenant, states[m + 1].lastTenant, tenant)
    ensures forall m, n {:trigger IsRound(steps, m), IsRound(steps, n)} ::
      i <= m < n < k && IsRound(steps, m) && IsRound(steps, n) ==> states[m + 1].lastTenant != states[n + 1].lastTenant
  {
    hide NamedRun, Waits, TurnBefore;
    RunLength(states, steps);
    RoundsGoAlong(states, steps, i, k, tenant);
    forall m | i <= m < k && IsRound(steps, m) ensures Served(states, steps, m, states[m + 1].lastTenant) {
      RoundServes(states, steps, m, tenant);
    }
    forall m, n | i <= m < n < k && IsRound(steps, m) && IsRound(steps, n)
      ensures states[m + 1].lastTenant != states[n + 1].lastTenant
    {
      TurnIsTotal(states[i].lastTenant, states[m + 1].lastTenant, states[n + 1].lastTenant);
    }
  }

  // ---- Two tenants over a window ----

  function TimesServed(states: seq<State>, steps: seq<Step>, i: nat, k: nat, tenant: string): nat
    decreases k
  {
    if k <= i then 0
    else TimesServed(states, steps, i, k - 1, tenant) + if Served(states, steps, k - 1, tenant) then 1 else 0
  }

  lemma AlongLeaves(states: seq<State>, steps: seq<Step>, i: nat, k: nat, tenant: string, n: nat)
    requires Along(states, steps, i, k, tenant) && i <= n < k && IsRound(steps, n) && states[i].lastTenant != ""
    ensures states[n + 1].lastTenant != states[i].lastTenant
  {
    NobodyBeforeItself(states[i].lastTenant, states[i].lastTenant, tenant);
    hide TurnBefore;
  }

  // Between two rounds that serve one waiting tenant there is a round that serves the other.
  lemma NotTwice(states: seq<State>, steps: seq<Step>, m: nat, n: nat, tenant: string, other: string)
    requires NamedRun(states, steps) && m < n < |steps| && tenant != other && tenant != ""
    requires Served(states, steps, m, tenant) && Served(states, steps, n, tenant)
    requires WaitsThroughout(states, steps, m + 1, n + 1, other)
    ensures !NotServed(states, steps, m + 1, n + 1, other)
  {
    hide NamedRun, Waits, TurnBefore;
    if NotServed(states, steps, m + 1, n + 1, other) {
      RoundsGoAlong(states, steps, m + 1, n + 1, other);
      AlongLeaves(states, steps, m + 1, n + 1, other, n);
    }
  }

  // The last round that served one of two tenants.
  ghost predicate LastServed(states: seq<State>, steps: seq<Step>, i: nat, k: nat, m: int, tenant: string,
                             other: string) {
    && i <= m < k && Served(states, steps, m, tenant)
    && NotServed(states, steps, m + 1, k, tenant) && NotServed(states, steps, m + 1, k, other)
  }

  ghost predicate Even(states: seq<State>, steps: seq<Step>, i: nat, k: nat, m: int, tenant: string, other: string) {
    var x, y := TimesServed(states, steps, i, k, tenant), TimesServed(states, steps, i, k, other);
    || (x == y == 0 && NotServed(states, steps, i, k, tenant) && NotServed(states, steps, i, k, other))
    || (LastServed(states, steps, i, k, m, tenant, other) && y <= x <= y + 1)
    || (LastServed(states, steps, i, k, m, other, tenant) && x <= y <= x + 1)
  }

  lemma {:induction false} ServedEvenly(states: seq<State>, steps: seq<Step>, i: nat, k: nat,
                                        tenant: string, other: string)
    returns (m: int)
    requires NamedRun(states, steps) && i <= k <= |steps| && tenant != other && tenant != "" && other != ""
    requires WaitsThroughout(states, steps, i, k, tenant) && WaitsThroughout(states, steps, i, k, other)
    ensures Even(states, steps, i, k, m, tenant, other)
  {
    hide NamedRun, Waits;
    m := -1;
    if i < k {
      m := ServedEvenly(states, steps, i, k - 1, tenant, other);
      if Served(states, steps, k - 1, tenant) {
        if LastServed(states, steps, i, k - 1, m, tenant, other) {
          NotTwice(states, steps, m, k - 1, tenant, other);
        }
        m := k - 1;
      } else if Served(states, steps, k - 1, other) {
        if LastServed(states, steps, i, k - 1, m, other, tenant) {
          NotTwice(states, steps, m, k - 1, other, tenant);
        }
        m := k - 1;
      }
    }
  }

  // Two tenants that wait in every round of a stretch are served equally often, give or take one.
  lemma TurnsAreFair(states: seq<State>, steps: seq<Step>, i: nat, k: nat, tenant: string, other: string)
    requires NamedRun(states, steps) && i <= k <= |steps| && tenant != "" && other != ""
    requires WaitsThroughout(states, steps, i, k, tenant) && WaitsThroughout(states, steps, i, k, other)
    ensures -1 <= TimesServed(states, steps, i, k, tenant) - TimesServed(states, steps, i, k, other) <= 1
  {
    hide NamedRun, Waits;
    if tenant != other {
      var m := ServedEvenly(states, steps, i, k, tenant, other);
    }
  }

  lemma RunLength(states: seq<State>, steps: seq<Step>)
    requires NamedRun(states, steps)
    ensures |states| == |steps| + 1
  {
  }

  lemma NamedIdle(states: seq<State>, steps: seq<Step>, m: nat)
    requires NamedRun(states, steps) && m < |steps| && !IsRound(steps, m)
    ensures |states| == |steps| + 1 && states[m + 1].lastTenant == states[m].lastTenant
  {
    IdleKeepsTurn(states, steps, m);
  }
}
