// Pipelines come to an end: every grant, first renewal, completion, loss and cancellation uses up some of a
// pipeline's work, there is never more of it than three times the attempts its jobs are allowed, and as long as
// some is left there is a step that uses it up.

module Termination {
  import opened Domain
  import opened Ordering
  import opened TableModel
  import opened Model
  import opened Coherence
  import opened Steps
  import opened Evolution
  import opened Leases
  import opened Progress
  import opened Confluence

  // ---- How much a pipeline can still do ----

  ghost function Left(t: Tables, jobs: seq<Id>): int {
    if jobs == [] then 0
    else
      var j := jobs[|jobs| - 1];
      Left(t, jobs[..|jobs| - 1]) + if j in t.jobs then Rank(t.jobs[j]) else 0
  }

  // The attempts the jobs are allowed.
  ghost function Allowed(t: Tables, jobs: seq<Id>): int {
    if jobs == [] then 0
    else
      var j := jobs[|jobs| - 1];
      Allowed(t, jobs[..|jobs| - 1]) + if j in t.jobs then RetryLimit(t.jobs[j].spec) else 0
  }

  // The attempts the jobs were given.
  ghost function Given(t: Tables, jobs: seq<Id>): nat {
    if jobs == [] then 0
    else
      var j := jobs[|jobs| - 1];
      Given(t, jobs[..|jobs| - 1]) + if j in t.jobs then |t.jobs[j].attemptIDs| else 0
  }

  ghost function Work(t: Tables, p: Id): int
    requires p in t.pipelines
  {
    Left(t, t.pipelines[p].jobIDs)
  }

  ghost function Allowance(t: Tables, p: Id): int
    requires p in t.pipelines
  {
    Allowed(t, t.pipelines[p].jobIDs)
  }

  lemma {:induction false} LeftIsBounded(t: Tables, jobs: seq<Id>)
    requires Coherent(t) && forall j :: j in jobs ==> j in t.jobs
    ensures 0 <= Left(t, jobs) <= 3 * Allowed(t, jobs) && Given(t, jobs) <= Allowed(t, jobs)
    ensures Left(t, jobs) == 0 <==> forall j :: j in jobs ==> IsTerminal(t.jobs[j].status)
  {
    hide Coherent, Rank;
    if jobs != [] {
      var before, j := jobs[..|jobs| - 1], jobs[|jobs| - 1];
      assert jobs == before + [j];
      LeftIsBounded(t, before);
      JobRanked(t, j);
      FitsRank(t, j);
    }
  }

  lemma FitsRank(t: Tables, j: Id)
    requires Coherent(t) && j in t.jobs
    ensures Rank(t.jobs[j]) == 0 <==> IsTerminal(t.jobs[j].status)
  {
    assert JobFits(t.jobs[j]);
    UnfinishedHasRank(t.jobs[j]);
  }

  // A pipeline has work left exactly until it is over, and never more than three steps per allowed attempt.
  lemma WorkIsBounded(t: Tables, p: Id)
    requires Coherent(t) && p in t.pipelines
    ensures 0 <= Work(t, p) <= 3 * Allowance(t, p) && Given(t, t.pipelines[p].jobIDs) <= Allowance(t, p)
    ensures Work(t, p) == 0 <==> IsTerminal(t.pipelines[p].status)
  {
    assert PipelineRefs(t, p);
    PipelineSumsUpJobs(t, p);
    hide Coherent;
    LeftIsBounded(t, t.pipelines[p].jobIDs);
  }

  // ---- Work only falls ----

  // A job of the pipeline is not what it was.
  ghost predicate Changed(t: Tables, t': Tables, j: Id) {
    j in t.jobs && j in t'.jobs && t'.jobs[j] != t.jobs[j]
  }

  lemma {:induction false} LeftFalls(t: Tables, t': Tables, jobs: seq<Id>)
    requires Evolves(t, t') && forall j :: j in jobs ==> j in t.jobs && j in t'.jobs
    ensures Left(t', jobs) <= Left(t, jobs) && Allowed(t', jobs) == Allowed(t, jobs)
    ensures (exists j :: j in jobs && Changed(t, t', j)) ==> Left(t', jobs) < Left(t, jobs)
  {
    hide Evolves, Rank;
    if jobs != [] {
      var before, j := jobs[..|jobs| - 1], jobs[|jobs| - 1];
      assert jobs == before + [j];
      LeftFalls(t, t', before);
      JobFalls(t, t', j);
      hide Changed;
    }
  }

  lemma JobFalls(t: Tables, t': Tables, j: Id)
    requires Evolves(t, t') && j in t.jobs && j in t'.jobs
    ensures Rank(t'.jobs[j]) <= Rank(t.jobs[j]) && t'.jobs[j].spec == t.jobs[j].spec
    ensures Changed(t, t', j) ==> Rank(t'.jobs[j]) < Rank(t.jobs[j])
  {
    assert JobEvolves(t.jobs[j], t'.jobs[j]);
    hide Evolves, Rank;
  }

  // Some job of the pipeline changes.
  ghost predicate Moves(t: Tables, t': Tables, p: Id) {
    exists j :: Has(t, p, j) && Changed(t, t', j)
  }

  lemma WorkFalls(t: Tables, t': Tables, p: Id)
    requires Coherent(t) && Coherent(t') && Evolves(t, t') && p in t.pipelines && p in t'.pipelines
    ensures Work(t', p) <= Work(t, p) && Allowance(t', p) == Allowance(t, p)
    ensures Moves(t, t', p) ==> Work(t', p) < Work(t, p)
  {
    SameJobs(t, t', p);
    hide Coherent, Evolves, Changed;
    LeftFalls(t, t', t.pipelines[p].jobIDs);
  }

  lemma SameJobs(t: Tables, t': Tables, p: Id)
    requires Coherent(t) && Coherent(t') && Evolves(t, t') && p in t.pipelines && p in t'.pipelines
    ensures t'.pipelines[p].jobIDs == t.pipelines[p].jobIDs
    ensures forall j :: j in t.pipelines[p].jobIDs ==> j in t.jobs && j in t'.jobs
    ensures forall j :: Has(t, p, j) ==> j in t.pipelines[p].jobIDs
  {
    assert PipelineEvolves(t.pipelines[p], t'.pipelines[p]);
    assert PipelineRefs(t, p) && PipelineRefs(t', p);
    hide Evolves, Coherent;
    assert forall j :: j in t.pipelines[p].jobIDs ==> Has(t, p, j) && Has(t', p, j);
  }

  // ---- How often a pipeline can move ----

  // The number of steps from i to k that move the pipeline.
  ghost function TimesMoved(states: seq<State>, i: nat, k: nat, p: Id): nat
    requires k < |states|
    decreases k
  {
    if k <= i then 0
    else TimesMoved(states, i, k - 1, p) + if Moves(states[k - 1].tables, states[k].tables, p) then 1 else 0
  }

  // A pipeline that is there at both ends of a stretch was there throughout.
  lemma StillThere(states: seq<State>, steps: seq<Step>, i: nat, m: nat, k: nat, p: Id)
    requires Run(states, steps) && i <= m <= k < |states|
    requires p in states[i].tables.pipelines && p in states[k].tables.pipelines
    ensures p in states[m].tables.pipelines
  {
    hide Run, PipelineEvolves, JobEvolves, AttemptEvolves;
    CoherentThroughout(states, steps, i);
    assert AllIssued(states[i].tables);
    hide Coherent, AllIssued;
    RunEvolves(states, steps, i, m);
    RunEvolves(states, steps, m, k);
    assert p in states[i].tables.issued && p in states[m].tables.issued;
  }

  lemma {:induction false} MovesUseUpWork(states: seq<State>, steps: seq<Step>, i: nat, k: nat, p: Id)
    requires Run(states, steps) && i <= k < |states|
    requires p in states[i].tables.pipelines && p in states[k].tables.pipelines
    ensures TimesMoved(states, i, k, p) <= Work(states[i].tables, p) - Work(states[k].tables, p)
    ensures Allowance(states[k].tables, p) == Allowance(states[i].tables, p)
  {
    hide Run, Coherent, Evolves, Work, Allowance, Moves;
    if i < k {
      StillThere(states, steps, i, k - 1, k, p);
      MovesUseUpWork(states, steps, i, k - 1, p);
      CoherentThroughout(states, steps, k - 1);
      CoherentThroughout(states, steps, k);
      RunEvolves(states, steps, k - 1, k);
      WorkFalls(states[k - 1].tables, states[k].tables, p);
    }
  }

  // ---- What moves a pipeline ----

  // A lease of one of its jobs is granted or renewed for the first time, or a result is committed.
  ghost predicate Acts(s: State, step: Step, p: Id) {
    match step
    case ScheduleStep(order, grant, a, token, now) => grant.Some? && Has(s.tables, p, grant.value.job)
    case BeatStep(a, token, now) =>
      LeaseHeld(s.tables, a, token, now) && PipelineOf(s.tables, a) == p && s.tables.attempts[a].status == Leased
    case FinishStep(a, token, report, now) => LeaseHeld(s.tables, a, token, now) && PipelineOf(s.tables, a) == p
    case _ => false
  }

  lemma GrantMoves(s: State, order: seq<Id>, grant: Option<Grant>, a: Id, token: string, now: Time, p: Id)
    requires Coherent(s.tables) && Enabled(s, ScheduleStep(order, grant, a, token, now))
    requires grant.Some? && Has(s.tables, p, grant.value.job)
    ensures Moves(s.tables, Schedule(s, order, grant, a, token, now).tables, p)
  {
    hide Sweep, Coherent, IsGrant, Runnable, Evolves, Schedule, Changed;
    var s1, j := SweepState(s, order, now), grant.value.job;
    SweepKeeps(s.tables, order, now);
    SweepEvolves(s.tables, order, now);
    GrantIsRunnable(s1, grant.value, now);
    assert GrantFits(s1, grant, now);
    GrantedJob(s, order, grant.value, a, token, now);
    SweptJob(s.tables, s1.tables, j);
    LeasingChanges(s.tables, s1.tables, Schedule(s, order, grant, a, token, now).tables, j, a);
  }

  lemma GrantedJob(s: State, order: seq<Id>, g: Grant, a: Id, token: string, now: Time)
    requires Grantable(SweepState(s, order, now), g)
    ensures var t1, t' := SweepState(s, order, now).tables, Schedule(s, order, Some(g), a, token, now).tables;
      g.job in t'.jobs && t'.jobs[g.job] == LeasedJob(t1.jobs[g.job], a)
  {
    hide SweepState;
  }

  lemma SweptJob(t: Tables, t1: Tables, j: Id)
    requires Evolves(t, t1) && j in t.jobs && j in t1.jobs
    ensures t.jobs[j].attemptIDs <= t1.jobs[j].attemptIDs
  {
    assert JobEvolves(t.jobs[j], t1.jobs[j]);
    hide Evolves, Rank;
  }

  lemma LeasingChanges(t: Tables, t1: Tables, t': Tables, j: Id, a: Id)
    requires j in t.jobs && j in t1.jobs && t.jobs[j].attemptIDs <= t1.jobs[j].attemptIDs
    requires j in t'.jobs && t'.jobs[j] == LeasedJob(t1.jobs[j], a)
    ensures Changed(t, t', j)
  {
  }

  lemma RenewalMoves(s: State, a: Id, token: string, now: Time)
    requires LeaseHeld(s.tables, a, token, now) && s.tables.attempts[a].status == Leased && Coherent(s.tables)
    ensures Moves(s.tables, Beat(s, a, token, now).tables, PipelineOf(s.tables, a))
  {
    ActiveIsLast(s.tables, a);
    hide Coherent;
    assert Changed(s.tables, Beat(s, a, token, now).tables, s.tables.attempts[a].jobID);
  }

  lemma CompletionMoves(s: State, a: Id, token: string, report: Report, now: Time)
    requires LeaseHeld(s.tables, a, token, now) && Coherent(s.tables)
    ensures Moves(s.tables, Finish(s, a, token, report, now).tables, PipelineOf(s.tables, a))
  {
    ActiveIsLast(s.tables, a);
    FinishIsAtomic(s, a, token, report, now);
    hide Coherent, Finish, LeaseHeld;
    assert Changed(s.tables, Finish(s, a, token, report, now).tables, s.tables.attempts[a].jobID);
  }

  // Each grant, first renewal and completion moves its pipeline.
  lemma ActsMove(s: State, step: Step, p: Id)
    requires Coherent(s.tables) && Enabled(s, step) && Acts(s, step, p)
    ensures Moves(s.tables, Apply(s, step).tables, p)
  {
    hide Coherent, Moves, LeaseHeld, Schedule, Beat, Finish;
    match step
    case ScheduleStep(order, grant, a, token, now) => GrantMoves(s, order, grant, a, token, now, p);
    case BeatStep(a, token, now) => RenewalMoves(s, a, token, now);
    case FinishStep(a, token, report, now) => CompletionMoves(s, a, token, report, now);
    case _ =>
  }

  // The number of grants, first renewals and completions of a pipeline from i to k.
  ghost function TimesActed(states: seq<State>, steps: seq<Step>, i: nat, k: nat, p: Id): nat
    requires k < |states| && k <= |steps|
    decreases k
  {
    if k <= i then 0
    else TimesActed(states, steps, i, k - 1, p) + if Acts(states[k - 1], steps[k - 1], p) then 1 else 0
  }

  lemma {:induction false} ActsAreMoves(states: seq<State>, steps: seq<Step>, i: nat, k: nat, p: Id)
    requires Run(states, steps) && i <= k < |states| && k <= |steps|
    ensures TimesActed(states, steps, i, k, p) <= TimesMoved(states, i, k, p)
  {
    hide Coherent, Moves, Acts, Apply, Enabled;
    if i < k {
      ActsAreMoves(states, steps, i, k - 1, p);
      CoherentThroughout(states, steps, k - 1);
      assert Taken(states, steps, k - 1);
      if Acts(states[k - 1], steps[k - 1], p) {
        ActsMove(states[k - 1], steps[k - 1], p);
      }
    }
  }

  // ---- The bound ----

  lemma RunHasLength(states: seq<State>, steps: seq<Step>)
    requires Run(states, steps)
    ensures |states| == |steps| + 1
  {
  }

  // However a run goes, from any moment on a pipeline moves no more often than it has work left, which is at most
  // three times per attempt its jobs are allowed. This bounds its grants, first renewals and completions together;
  // its jobs get no more attempts than they are allowed; and once the work is used up the pipeline is over.
  lemma PipelinesComeToAnEnd(states: seq<State>, steps: seq<Step>, i: nat, k: nat, p: Id)
    requires Run(states, steps) && i <= k < |states|
    requires p in states[i].tables.pipelines && p in states[k].tables.pipelines
    ensures |states| == |steps| + 1 && TimesActed(states, steps, i, k, p) <= TimesMoved(states, i, k, p)
    ensures var t, t' := states[i].tables, states[k].tables;
      && TimesMoved(states, i, k, p) <= Work(t, p) <= 3 * Allowance(t, p)
      && Given(t', t'.pipelines[p].jobIDs) <= Allowance(t, p)
      && (TimesMoved(states, i, k, p) == Work(t, p) ==> IsTerminal(t'.pipelines[p].status))
      && (IsTerminal(t.pipelines[p].status) ==> TimesMoved(states, i, k, p) == 0)
  {
    hide Run, Coherent, Work, Allowance;
    RunHasLength(states, steps);
    ActsAreMoves(states, steps, i, k, p);
    MovesUseUpWork(states, steps, i, k, p);
    CoherentThroughout(states, steps, i);
    CoherentThroughout(states, steps, k);
    WorkIsBounded(states[i].tables, p);
    WorkIsBounded(states[k].tables, p);
  }

  // ---- As long as there is work there is a way to use it up ----

  // The attempt's lease has not run out under the token it was granted with.
  ghost predicate Held(t: Tables, a: Id, now: Time) {
    a in t.attempts && LeaseHeld(t, a, t.attempts[a].token, now)
  }

  lemma HeldOrExpired(t: Tables, a: Id, now: Time)
    requires Coherent(t) && a in t.attempts && IsActive(t.attempts[a].status)
    ensures Held(t, a, now) <==> !Expired(t, a, now)
  {
    ActiveIsLast(t, a);
    hide Coherent;
  }

  // A lease that has run out is taken back by the next sweep, in whatever order it looks at the attempts.
  lemma ExpiryMoves(t: Tables, a: Id, order: seq<Id>, now: Time)
    requires Coherent(t) && Expired(t, a, now) && Enumerates(order, t.attempts.Keys)
    ensures Moves(t, Sweep(t, order, now), PipelineOf(t, a))
  {
    var t', j := Sweep(t, order, now), t.attempts[a].jobID;
    ActiveIsLast(t, a);
    SweepDecides(t, order, now);
    SweepKeeps(t, order, now);
    SweepAddsNothing(t, order, now);
    assert !Survives(t, a, now);
    hide Sweep, Survives, Fated, FatedPipelines;
    if t'.jobs[j] == t.jobs[j] {
      AttemptsMirrorJob(t', j, |t.jobs[j].attemptIDs| - 1);
    }
    hide Coherent;
    assert Changed(t, t', j);
  }

  // A reconciliation that sweeps up a lease moves the pipeline, or sees it off altogether.
  lemma ReconcileMoves(s: State, a: Id, order: seq<Id>, now: Time)
    requires Coherent(s.tables) && Expired(s.tables, a, now) && Enumerates(order, s.tables.attempts.Keys)
    ensures var t', p := Reconcile(s, order, now).tables, PipelineOf(s.tables, a);
      p in t'.pipelines ==> Moves(s.tables, t', p)
  {
    var t1, t', p := Sweep(s.tables, order, now), Reconcile(s, order, now).tables, PipelineOf(s.tables, a);
    ExpiryMoves(s.tables, a, order, now);
    SweepKeeps(s.tables, order, now);
    SweepEvolves(s.tables, order, now);
    var j :| Has(s.tables, p, j) && Changed(s.tables, t1, j);
    assert JobEvolves(s.tables.jobs[j], t1.jobs[j]);
    hide Sweep, Coherent, Expired, Evolves, Rank, Reconcile;
    if p in t'.pipelines {
      PruningSpares(s, order, now, p, j);
      assert Changed(s.tables, t', j);
    }
  }

  // Pruning leaves the jobs of a pipeline it keeps.
  lemma PruningSpares(s: State, order: seq<Id>, now: Time, p: Id, j: Id)
    requires var t1 := Sweep(s.tables, order, now); Has(t1, p, j)
    requires p in Reconcile(s, order, now).tables.pipelines
    ensures var t' := Reconcile(s, order, now).tables; j in t'.jobs && t'.jobs[j] == Sweep(s.tables, order, now).jobs[j]
  {
    hide Sweep, Prunable;
  }

  // The job is being executed, and at any time either its lease is held, and whatever result is reported under it
  // moves the pipeline, or the next reconciliation does.
  ghost predicate EndsInTime(s: State, p: Id, j: Id, a: Id) {
    && a in s.tables.attempts && s.tables.attempts[a].jobID == j
    && forall now {:trigger Held(s.tables, a, now)} ::
         if Held(s.tables, a, now) then ResultsMove(s, p, a, now) else SweepsMove(s, p, now)
  }

  ghost predicate ResultsMove(s: State, p: Id, a: Id, now: Time)
    requires a in s.tables.attempts
  {
    var token := s.tables.attempts[a].token;
    forall report {:trigger Finish(s, a, token, report, now)} ::
      Moves(s.tables, Finish(s, a, token, report, now).tables, p)
  }

  ghost predicate SweepsMove(s: State, p: Id, now: Time) {
    forall order {:trigger Reconcile(s, order, now)} ::
      Enumerates(order, s.tables.attempts.Keys) && p in Reconcile(s, order, now).tables.pipelines
      ==> Moves(s.tables, Reconcile(s, order, now).tables, p)
  }

  // The job can be executed, and a grant of it moves the pipeline.
  ghost predicate StartsWhenGranted(s: State, p: Id, j: Id) {
    && Runnable(s.tables, j)
    && forall order, w, a, token, now {:trigger ScheduleStep(order, Some(Grant(j, w)), a, token, now)} ::
         var step := ScheduleStep(order, Some(Grant(j, w)), a, token, now);
         Enabled(s, step) ==> Moves(s.tables, Apply(s, step).tables, p)
  }

  lemma ActiveEndsInTime(s: State, p: Id, j: Id) returns (a: Id)
    requires Coherent(s.tables) && Has(s.tables, p, j) && IsActive(s.tables.jobs[j].status)
    ensures EndsInTime(s, p, j, a)
  {
    var t := s.tables;
    assert JobFits(t.jobs[j]) && JobRefs(t, j);
    var last := |t.jobs[j].attemptIDs| - 1;
    AttemptsMirrorJob(t, j, last);
    a := t.jobs[j].attemptIDs[last];
    ActiveIsLast(t, a);
    hide Coherent, Moves, Held, Expired, JobRefs, JobFits, LeaseHeld, Finish, Reconcile;
    forall now ensures if Held(t, a, now) then ResultsMove(s, p, a, now) else SweepsMove(s, p, now) {
      HeldOrExpired(t, a, now);
      if Held(t, a, now) {
        HeldMoves(s, a, now);
      } else {
        forall order | Enumerates(order, t.attempts.Keys) && p in Reconcile(s, order, now).tables.pipelines
          ensures Moves(t, Reconcile(s, order, now).tables, p)
        {
          ReconcileMoves(s, a, order, now);
        }
      }
    }
  }

  lemma HeldMoves(s: State, a: Id, now: Time)
    requires Coherent(s.tables) && Held(s.tables, a, now)
    ensures ResultsMove(s, PipelineOf(s.tables, a), a, now)
  {
    var token := s.tables.attempts[a].token;
    forall report ensures Moves(s.tables, Finish(s, a, token, report, now).tables, PipelineOf(s.tables, a)) {
      CompletionMoves(s, a, token, report, now);
    }
  }

  // In every state of a run an unfinished pipeline has work left, and a job that uses it up: one that is executed
  // until a result is reported or its lease runs out, or one that a grant is all that it waits for.
  lemma WorkCanGoOn(states: seq<State>, steps: seq<Step>, i: nat, p: Id) returns (j: Id, a: Id)
    requires Run(states, steps) && i < |states| && p in states[i].tables.pipelines
    requires !IsTerminal(states[i].tables.pipelines[p].status)
    ensures Work(states[i].tables, p) > 0 && Has(states[i].tables, p, j)
    ensures EndsInTime(states[i], p, j, a) || StartsWhenGranted(states[i], p, j)
  {
    var s := states[i];
    CoherentThroughout(states, steps, i);
    hide Run, Coherent, Runnable, EndsInTime, StartsWhenGranted, Work;
    WorkIsBounded(s.tables, p);
    j := NeverStuck(s.tables, p);
    a := "";
    if IsActive(s.tables.jobs[j].status) {
      a := ActiveEndsInTime(s, p, j);
    } else {
      RunnableStarts(s, p, j);
    }
  }

  lemma RunnableStarts(s: State, p: Id, j: Id)
    requires Coherent(s.tables) && Has(s.tables, p, j) && Runnable(s.tables, j)
    ensures StartsWhenGranted(s, p, j)
  {
    hide Coherent, Runnable, Moves, Enabled, Apply;
    forall order, w, a, token, now
      ensures var step := ScheduleStep(order, Some(Grant(j, w)), a, token, now);
        Enabled(s, step) ==> Moves(s.tables, Apply(s, step).tables, p)
    {
      var step := ScheduleStep(order, Some(Grant(j, w)), a, token, now);
      if Enabled(s, step) {
        ActsMove(s, step, p);
      }
    }
  }
}
