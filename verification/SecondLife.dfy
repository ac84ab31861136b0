// A run in which the clock turns back and a preview that was deleted comes to life again: what is said about
// incarnations and observations does need a clock that never turns back.

module SecondLife {
  import opened Domain
  import opened Ordering
  import opened TableModel
  import opened Model
  import opened Steps
  import opened Supersession
  import opened Progress
  import opened Incarnations
  import opened LapsedLeases
  import Planner

  // A preview that is to live for a minute.
  const BRIEF := Environment(1, "", "image", 0, "")

  const SHOWN := JobSpec("command", "image", ["run"], [], 0, [], false, Resources(0, 0), Some(BRIEF), 0, 1, None)

  const KEY := PRKey("r", 1)

  const CLOCK := PRState(1, false, 1, "c")

  const PASSED := Report(true, "", "", "", [])

  // The configuration, its one job, and who takes part: pipeline, job, worker and attempt.
  datatype Cast = Cast(spec: PipelineSpec, name: string, p: Id, j: Id, w: Id, x: Id) {
    predicate Sensible() {
      && spec.version == 1 && spec.jobs == map[name := SHOWN] && name != ""
      && p != "" && j != "" && w != "" && x != "" && p != j && p != x && j != x
    }
  }

  function Opening(c: Cast): Submission {
    Event("1", "r", false, 1, c.spec)
  }

  lemma OneJobPlan(c: Cast)
    requires c.Sensible()
    ensures Planner.Plan(c.spec) == Some([c.name]) && OneEnvironment(c.spec)
  {
    var order := [c.name];
    assert order[..0] == [] && c.name in order;
    assert Planner.Greedy(c.spec.jobs, order);
    Planner.GreedyIsSmallest(c.spec.jobs, order);
    Planner.SmallestIsUnique(c.spec.jobs, order, Planner.Plan(c.spec).value);
  }

  // ---- The states of the run ----

  ghost function Entered(c: Cast): Tables {
    Tables(map[c.p := NewPipeline(Opening(c), [c.j], 1, 0)],
           map[c.j := Job(c.p, "t", c.name, SHOWN, Queued, 0, 1, [])],
           map[], Tally(0, 0, 0), 1, {c.p, c.j})
  }

  ghost function Begun(c: Cast): Tables {
    Tables(map[c.p := NewPipeline(Opening(c), [c.j], 1, 0).(status := Running)],
           map[c.j := Job(c.p, "t", c.name, SHOWN, Leased, 0, 1, [c.x])],
           map[c.x := NewAttempt(c.j, 1, c.w, "", LAPSE, 0)], Tally(0, 0, 0), 1, {c.p, c.j, c.x})
  }

  ghost function Done(c: Cast): Tables {
    Tables(map[c.p := NewPipeline(Opening(c), [c.j], 1, 0).(status := Succeeded)],
           map[c.j := Job(c.p, "t", c.name, SHOWN, Succeeded, 0, 1, [c.x])],
           map[c.x := CommittedRecord(NewAttempt(c.j, 1, c.w, "", LAPSE, 0), PASSED, 0)],
           Tally(1, 0, 0), 1, {c.p, c.j, c.x})
  }

  // The preview as it is activated at time 0.
  function Born(c: Cast): Preview {
    PreviewOf(NewPipeline(Opening(c), [c.j], 1, 0), c.p, "image", BRIEF, 0)
  }

  function Dying(c: Cast): Preview {
    Buried(Born(c), 2, MINUTE)
  }

  ghost predicate At(s: State, c: Cast, t: Tables, previews: map<PRKey, Preview>) {
    && s.config == DEFAULTS && s.workers == map[c.w := POOL] && s.prStates == map[KEY := CLOCK]
    && s.tables == t && s.previews == previews
  }

  // ---- Opening the pull request ----

  lemma KeyOfAll(c: Cast)
    ensures SubmissionKey(Opening(c)) == KEY && KeyOf(NewPipeline(Opening(c), [c.j], 1, 0)) == KEY
  {
    assert Lower("r") == "r";
  }

  lemma OpeningIsFresh(c: Cast)
    requires Planner.Plan(c.spec) == Some([c.name])
    ensures WellFormed(Opening(c)) && Classify(Staffed(c.w), Opening(c), 0) == Fresh
  {
    assert ByteLength("1") == 1;
    assert Unfinished(Staffed(c.w).tables) == {};
  }

  lemma OpeningCreates(c: Cast)
    requires c.Sensible()
    ensures Create(Staffed(c.w).tables, Opening(c), [c.name], c.p, [c.j], 1, 0) == Entered(c)
  {
    assert c.j in [c.j] && IndexOf([c.j], c.j) == 0;
    hide IndexOf, NewPipeline;
    assert NewJobs(Opening(c), [c.name], c.p, [c.j], 0, 0)
        == map[c.j := Job(c.p, "t", c.name, SHOWN, Queued, 0, 1, [])];
    hide NewJobs;
    assert (set i | i in [c.j]) == {c.j};
  }

  lemma OpeningAdvances(c: Cast)
    ensures var s := Staffed(c.w);
      var s1 := Advance(s, Opening(c), 0);
      && s1.tables == s.tables && s1.previews == map[] && s1.prStates == map[KEY := CLOCK]
      && s1.config == s.config && s1.workers == s.workers && GenerationOf(s, Opening(c)) == 1
  {
    KeyOfAll(c);
    var s := Staffed(c.w);
    assert CancelPipelines(s.tables, Superseded(s.tables, Opening(c)), 0) == s.tables;
    hide CancelPipelines, Superseded, SubmissionKey;
  }

  lemma OpeningIsEnabled(c: Cast)
    requires c.Sensible() && Planner.Plan(c.spec) == Some([c.name]) && OneEnvironment(c.spec)
    ensures var step := SubmitStep(Opening(c), c.p, [c.j], "", 0);
      Enabled(Staffed(c.w), step) && Assumed(Staffed(c.w), step)
  {
    hide Classify, WellFormed, OneEnvironment;
    OpeningIsFresh(c);
    assert FreshIds(Staffed(c.w).tables, c.p, [c.j]) by {
      assert Distinct([c.j]);
    }
    hide FreshIds;
  }

  lemma Opens(c: Cast)
    requires c.Sensible()
    ensures var step := SubmitStep(Opening(c), c.p, [c.j], "", 0);
      && Enabled(Staffed(c.w), step) && Assumed(Staffed(c.w), step)
      && At(Apply(Staffed(c.w), step), c, Entered(c), map[])
  {
    OneJobPlan(c);
    OpeningIsEnabled(c);
    OpeningIsFresh(c);
    OpeningCreates(c);
    OpeningAdvances(c);
    hide Classify, WellFormed, Entered, OneEnvironment, Enabled, Assumed, Opening, Create, Advance, GenerationOf;
    SubmitIsAccept(Staffed(c.w), Opening(c), c.p, [c.j], "", 0);
    AcceptTables(Staffed(c.w), Opening(c), c.p, [c.j], 0);
    assert !Opening(c).closed by {
      OpeningIsOpen(c);
    }
  }

  lemma OpeningIsOpen(c: Cast)
    ensures !Opening(c).closed && Opening(c).spec == c.spec
  {
  }

  // ---- Executing its one job ----

  lemma JobIsNext(s: State, c: Cast)
    requires At(s, c, Entered(c), map[])
    ensures IsGrant(s, Grant(c.j, c.w), 0)
  {
    assert ActiveJobs(s.tables, "t") == {} && ActiveAttempts(s.tables, "", c.w) == {};
    hide NewPipeline, IsGrant;
    FirstIsGranted(s, c.j, c.w, 0);
  }

  lemma Places(s: State, c: Cast)
    requires At(s, c, Entered(c), map[])
    ensures At(Place(s, Some(Grant(c.j, c.w)), c.x, "", 0), c, Begun(c), map[])
  {
    hide NewPipeline;
    var t, t' := Entered(c), Begun(c);
    assert LeasedJob(t.jobs[c.j], c.x) == t'.jobs[c.j];
    assert t.jobs[c.j := LeasedJob(t.jobs[c.j], c.x)] == t'.jobs;
    assert t.issued + {c.x} == t'.issued;
  }

  lemma Starts(s: State, c: Cast)
    requires c.Sensible() && At(s, c, Entered(c), map[])
    ensures var step := ScheduleStep([], Some(Grant(c.j, c.w)), c.x, "", 0);
      && Enabled(s, step) && Assumed(s, step) && At(Apply(s, step), c, Begun(c), map[])
  {
    hide IsGrant, Place, Enabled, Assumed, Apply, Begun, NewPipeline;
    JobIsNext(s, c);
    Places(s, c);
    assert s.tables.attempts.Keys == {};
    Schedules(s, [], c.j, c.w, c.x);
  }

  lemma Settles(c: Cast)
    ensures var t, record := Begun(c), CommittedRecord(NewAttempt(c.j, 1, c.w, "", LAPSE, 0), PASSED, 0);
      && LeaseHeld(t, c.x, "", 0) && t.attempts[c.x] == NewAttempt(c.j, 1, c.w, "", LAPSE, 0)
      && PipelineOf(t, c.x) == c.p && c.p in Settle(t, c.x, record).pipelines
      && !AnyFailed(Settle(t, c.x, record), c.p) && AllSucceeded(Settle(t, c.x, record), c.p)
      && UpdateTables(Settle(t, c.x, record), c.p, 0) == Done(c)
      && Settle(t, c.x, record).pipelines[c.p].jobIDs == [c.j]
  {
  }

  // Looking at the pipeline's one job puts its preview into the vacant place.
  lemma Activates(s: State, c: Cast, late: bool)
    requires At(s, c, Done(c), map[])
    ensures At(ActivateJobs(s, c.p, [c.j], 0, late), c, Done(c), map[KEY := Born(c)])
  {
    KeyOfAll(c);
    assert [c.j][..0] == [];
    assert ActivateJobs(s, c.p, [], 0, late) == s;
    assert ActivateJobs(s, c.p, [c.j], 0, late) == ActivateFor(s, c.p, c.j, 0, late);
    assert Wants(s.tables, c.p, c.j, 0, late);
    hide ActivateJobs, Lower;
  }

  lemma Completes(s: State, c: Cast)
    requires At(s, c, Begun(c), map[])
    ensures At(Finish(s, c.x, "", PASSED, 0), c, Done(c), map[KEY := Born(c)])
  {
    Settles(c);
    hide Begun, Done, Settle, UpdateTables, AnyFailed, AllSucceeded, ActivateJobs, LeaseHeld, CommittedRecord,
         NewAttempt, PipelineOf, Born, NewPipeline;
    var s2 := WithTables(s, Done(c));
    assert Finish(s, c.x, "", PASSED, 0) == ActivateJobs(s2, c.p, [c.j], 0, false);
    Activates(s2, c, false);
  }

  lemma Passes(s: State, c: Cast)
    requires At(s, c, Begun(c), map[])
    ensures var step := FinishStep(c.x, "", PASSED, 0);
      && Enabled(s, step) && Assumed(s, step) && At(Apply(s, step), c, Done(c), map[KEY := Born(c)])
  {
    hide At, Submit, Schedule, Beat, Finish, Cancel, Reconcile, Ensure, Observe, Register, WorkerBeat, RecordCheck,
         Classify, GrantFits, FreshIds, IdsFor, SameRevision, SpellsAlike, OneEnvironment;
    Completes(s, c);
  }

  // ---- The preview's end, and its second life ----

  lemma NothingLapses(s: State, c: Cast)
    requires s.tables == Done(c)
    ensures SweepState(s, [c.x], MINUTE) == s && Enumerates([c.x], s.tables.attempts.Keys)
  {
    hide NewPipeline;
    assert !Expired(s.tables, c.x, MINUTE);
    NothingToSweep(s, [c.x], MINUTE);
  }

  lemma NothingIsPruned(s: State, c: Cast)
    requires s.tables == Done(c) && s.config == DEFAULTS
    ensures Prune(s, MINUTE) == s
  {
    assert forall p :: p in s.tables.pipelines ==> !Prunable(s, p, MINUTE);
    hide Prunable;
    assert (set p | p in s.tables.pipelines && Prunable(s, p, MINUTE)) == {};
    assert Drop(s.tables, {}) == s.tables;
    hide Drop;
  }

  lemma Ages(s: State, c: Cast, v: Preview)
    requires At(s, c, Done(c), map[KEY := v])
    ensures Enumerates([c.x], s.tables.attempts.Keys)
    ensures At(Reconcile(s, [c.x], MINUTE), c, Done(c),
               if Removable(Aged(v, MINUTE)) then map[] else map[KEY := Aged(v, MINUTE)])
  {
    hide Done, Prune, Aged;
    NothingLapses(s, c);
    NothingIsPruned(AgePreviews(s, MINUTE), c);
    hide SweepState, Removable;
  }

  lemma Reconciled(s: State, c: Cast, v: Preview)
    requires At(s, c, Done(c), map[KEY := v])
    ensures var step := ReconcileStep([c.x], MINUTE);
      && Enabled(s, step) && Assumed(s, step)
      && At(Apply(s, step), c, Done(c), if Removable(Aged(v, MINUTE)) then map[] else map[KEY := Aged(v, MINUTE)])
  {
    hide At, Aged, Submit, Schedule, Beat, Finish, Cancel, Reconcile, Ensure, Observe, Register, WorkerBeat,
         RecordCheck, Classify, GrantFits, FreshIds, IdsFor, SameRevision, SpellsAlike, OneEnvironment;
    Ages(s, c, v);
  }

  lemma Deletes(s: State, c: Cast)
    requires At(s, c, Done(c), map[KEY := Dying(c)])
    ensures At(Observe(s, Dying(c), Deleted, "", ""), c, Done(c), map[KEY := Observed(Dying(c), Deleted, "", "")])
  {
    assert Lower("r") == "r";
    hide Done, Lower;
  }

  lemma Observes(s: State, c: Cast)
    requires At(s, c, Done(c), map[KEY := Dying(c)])
    ensures var step := ObserveStep(Dying(c), Deleted, "", "", MINUTE);
      && Enabled(s, step) && Assumed(s, step)
      && At(Apply(s, step), c, Done(c), map[KEY := Observed(Dying(c), Deleted, "", "")])
  {
    hide At, Submit, Schedule, Beat, Finish, Cancel, Reconcile, Ensure, Observe, Register, WorkerBeat, RecordCheck,
         Classify, GrantFits, FreshIds, IdsFor, SameRevision, SpellsAlike, OneEnvironment;
    Deletes(s, c);
  }

  lemma Restores(s: State, c: Cast)
    requires At(s, c, Done(c), map[])
    ensures Enumerates([c.p], s.tables.pipelines.Keys)
    ensures At(Ensure(s, [c.p], 0), c, Done(c), map[KEY := Born(c)])
  {
    KeyOfAll(c);
    assert [c.p][..0] == [];
    assert Ensure(s, [], 0) == s;
    assert Ensure(s, [c.p], 0) == EnsureOne(s, c.p, 0);
    Activates(s, c, true);
    assert Lacking(s, c.p);
    hide Ensure, ActivateJobs, Lower;
  }

  lemma Revives(s: State, c: Cast)
    requires At(s, c, Done(c), map[])
    ensures var step := EnsureStep([c.p], 0);
      && Enabled(s, step) && Assumed(s, step) && At(Apply(s, step), c, Done(c), map[KEY := Born(c)])
  {
    hide At, Submit, Schedule, Beat, Finish, Cancel, Reconcile, Ensure, Observe, Register, WorkerBeat, RecordCheck,
         Classify, GrantFits, FreshIds, IdsFor, SameRevision, SpellsAlike, OneEnvironment;
    Restores(s, c);
  }

  // ---- The run ----

  lemma Begins(c: Cast) returns (states: seq<State>, steps: seq<Step>)
    requires c.Sensible()
    ensures Chain(states, steps) && |steps| == 4 && states[0] == Init(DEFAULTS)
    ensures At(states[4], c, Done(c), map[KEY := Born(c)]) && forall i :: 0 <= i < 4 ==> steps[i].now == 0
  {
    hide Apply, Enabled, Assumed, Staffed, Opening, Entered, Begun, Done, At, Born;
    var s0, s1, step0 := Init(DEFAULTS), Staffed(c.w), RegisterStep(c.w, POOL, 0);
    Registers(c.w);
    var step1 := SubmitStep(Opening(c), c.p, [c.j], "", 0);
    Opens(c);
    var s2 := Apply(s1, step1);
    var step2 := ScheduleStep([], Some(Grant(c.j, c.w)), c.x, "", 0);
    Starts(s2, c);
    var s3 := Apply(s2, step2);
    var step3 := FinishStep(c.x, "", PASSED, 0);
    Passes(s3, c);
    states, steps := [s0, s1, s2, s3, Apply(s3, step3)], [step0, step1, step2, step3];
  }

  lemma Ends(s: State, c: Cast) returns (states: seq<State>, steps: seq<Step>)
    requires At(s, c, Done(c), map[KEY := Born(c)])
    ensures Chain(states, steps) && |steps| == 4 && states[0] == s
    ensures At(states[3], c, Done(c), map[]) && At(states[4], c, Done(c), map[KEY := Born(c)])
    ensures steps[0].now == steps[1].now == steps[2].now == MINUTE && steps[3].now == 0
  {
    hide Apply, Enabled, Assumed, Done, At, Born;
    var again := ReconcileStep([c.x], MINUTE);
    Reconciled(s, c, Born(c));
    BornAges(c);
    var s1 := Apply(s, again);
    var step1 := ObserveStep(Dying(c), Deleted, "", "", MINUTE);
    Observes(s1, c);
    var s2, v := Apply(s1, step1), Observed(Dying(c), Deleted, "", "");
    Reconciled(s2, c, v);
    var s3 := Apply(s2, again);
    var step3 := EnsureStep([c.p], 0);
    Revives(s3, c);
    states, steps := [s, s1, s2, s3, Apply(s3, step3)], [again, step1, again, step3];
  }

  lemma BornAges(c: Cast)
    ensures Aged(Born(c), MINUTE) == Dying(c) && !Removable(Dying(c))
    ensures var v := Observed(Dying(c), Deleted, "", ""); Removable(Aged(v, MINUTE))
  {
  }

  lemma Joins(states: seq<State>, steps: seq<Step>, states': seq<State>, steps': seq<Step>)
    requires Chain(states, steps) && Chain(states', steps') && states[|steps|] == states'[0]
    ensures Chain(states + states'[1..], steps + steps')
  {
    hide Enabled, Assumed, Apply;
  }

  // From the empty store: a pull request is opened, its pipeline succeeds and gets a preview that is to live for a
  // minute. The minute passes, the preview is deleted and gone. Then the clock turns back, and the pipeline is given
  // the very same preview again: an observation of the first one is accepted as being about the second.
  lemma LivesAgain(c: Cast) returns (states: seq<State>, steps: seq<Step>)
    requires c.Sensible()
    ensures AssumedRun(states, steps) && |steps| == 8 && |states| == 9 && !Monotone(steps) && Monotone(steps[..7])
    ensures Owns(states[4], c.p, KEY) && KEY !in states[7].previews && Owns(states[8], c.p, KEY)
    ensures Current(states[8], states[4].previews[KEY])
  {
    hide Chain, AssumedRun, Done, Born, Current, Monotone;
    var before, opening := Begins(c);
    ChainLength(before, opening);
    var after, ending := Ends(before[4], c);
    ChainLength(after, ending);
    states, steps := before + after[1..], opening + ending;
    Joins(before, opening, after, ending);
    IsRun(states, steps);
    TurnsBack(steps);
    BornBelongs(c);
    SameIsCurrent(states[8], c);
  }

  lemma TurnsBack(steps: seq<Step>)
    requires |steps| == 8 && forall i :: 0 <= i < 8 ==> steps[i].now == if 4 <= i < 7 then MINUTE else 0
    ensures !Monotone(steps) && Monotone(steps[..7])
  {
    assert steps[6].now > steps[7].now;
  }

  lemma ChainLength(states: seq<State>, steps: seq<Step>)
    requires Chain(states, steps)
    ensures |states| == |steps| + 1
  {
  }

  lemma BornBelongs(c: Cast)
    ensures Born(c).pipelineID == c.p
  {
  }

  lemma SameIsCurrent(s: State, c: Cast)
    requires s.previews == map[KEY := Born(c)]
    ensures Current(s, Born(c))
  {
    assert Lower("r") == "r";
  }

  // There is such a run.
  lemma MayLiveTwice() returns (states: seq<State>, steps: seq<Step>, p: Id)
    ensures AssumedRun(states, steps) && |steps| == 8 && |states| == 9 && !Monotone(steps) && Monotone(steps[..7])
    ensures Owns(states[4], p, KEY) && KEY !in states[7].previews && Owns(states[8], p, KEY)
    ensures Current(states[8], states[4].previews[KEY])
  {
    hide AssumedRun, Current;
    p := "p";
    states, steps := LivesAgain(Cast(PipelineSpec(1, map["a" := SHOWN]), "a", p, "j", "w", "x"));
  }
}
