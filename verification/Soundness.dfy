// What every call on the store may rely on, without any assumption about the surroundings.

module Soundness {
  import opened Domain
  import opened TableModel
  import opened Model
  import opened Coherence
  import opened Steps
  import opened Evolution
  import opened Counters
  import opened Fence
  import Capacity

  // No pipeline is ahead of its pull request's clock, and one at the clock's generation is of its commit; only
  // pull requests have clocks.
  ghost predicate Bounded(s: State) {
    && (forall p {:trigger BoundedAt(s, p)} :: p in s.tables.pipelines ==> BoundedAt(s, p))
    && (forall k :: k in s.prStates ==> k.pr > 0)
  }

  ghost predicate BoundedAt(s: State, p: Id) {
    && p in s.tables.pipelines
    && var q := s.tables.pipelines[p];
    && (q.pr > 0 ==> KeyOf(q) in s.prStates && NotAhead(q, s.prStates[KeyOf(q)]))
  }

  predicate NotAhead(q: Pipeline, clock: PRState) {
    q.generation <= clock.generation && (q.generation == clock.generation ==> q.commit == clock.commit)
  }

  ghost predicate Sound(s: State) {
    Coherent(s.tables) && Numbered(s.tables) && Bounded(s) && "" !in s.workers
  }

  // The scan for the same revision after the clock advanced can never find a pipeline.
  lemma SecondScanIsIdle(s: State, input: Submission, now: Time, p: Id)
    requires Bounded(s) && Classify(s, input, now) == Fresh && !input.closed && !input.rerun
    ensures !SameRevision(Advance(s, input, now).tables, input, GenerationOf(s, input), p)
  {
    hide Lower, WellFormed, Late, Overflows, EventTime;
    AdvanceTables(s, input, now);
    hide Advance;
    assert p in s.tables.pipelines ==> BoundedAt(s, p);
    if input.pr <= 0 {
      assert !SameRevision(s.tables, input, Prior(s, input).generation, p);
    }
  }

  lemma StaysBounded(s: State, s': State, p: Id)
    requires Bounded(s) && Evolves(s.tables, s'.tables) && ClocksAdvance(s, s') && p in s.tables.pipelines
    requires p in s'.tables.pipelines
    ensures BoundedAt(s', p)
  {
    assert BoundedAt(s, p);
    hide Lower, NoReturn, Rank;
    assert PipelineEvolves(s.tables.pipelines[p], s'.tables.pipelines[p]);
  }

  lemma NewIsBounded(s: State, step: Step, p: Id)
    requires Coherent(s.tables) && Enabled(s, step) && p in Apply(s, step).tables.pipelines && p !in s.tables.pipelines
    ensures BoundedAt(Apply(s, step), p)
  {
    hide Submit, Coherent, Classify, IdsFor, FreshIds, SameRevision, SubmissionKey, Prior, EventTime;
    var s' := Apply(s, step);
    var q := s'.tables.pipelines[p];
    NewPipelines(s, step, KeyOf(q));
    if q.pr > 0 {
      assert p in PipelinesAt(s', KeyOf(q));
      SubmitClocks(s, step.input, step.p, step.ids, step.pick, step.now);
    }
  }

  lemma ClocksOfPullRequests(s: State, step: Step)
    requires Bounded(s) && Enabled(s, step)
    ensures forall k :: k in Apply(s, step).prStates ==> k.pr > 0
  {
    if step.SubmitStep? {
      SubmitClocks(s, step.input, step.p, step.ids, step.pick, step.now);
      hide Submit, Classify, Lower, Prior, EventTime, FreshIds, IdsFor;
    } else {
      OnlySubmissionsAsk(s, step);
      hide Apply, Enabled;
    }
  }

  lemma StepStaysBounded(s: State, step: Step)
    requires Coherent(s.tables) && Bounded(s) && Enabled(s, step)
    ensures Bounded(Apply(s, step))
  {
    hide Apply, Enabled, Coherent, Evolves, ClocksAdvance, BoundedAt;
    var s' := Apply(s, step);
    StepEvolves(s, step);
    StepAdvancesClocks(s, step);
    ClocksOfPullRequests(s, step);
    forall p | p in s'.tables.pipelines ensures BoundedAt(s', p) {
      if p in s.tables.pipelines {
        StaysBounded(s, s', p);
      } else {
        NewIsBounded(s, step, p);
      }
    }
  }

  lemma WorkersStayNamed(s: State, step: Step)
    requires Enabled(s, step) && "" !in s.workers
    ensures "" !in Apply(s, step).workers
  {
    if !step.RegisterStep? && !step.WorkerBeatStep? {
      Capacity.OthersLeaveWorkers(s, step);
      hide Apply, Enabled;
    }
  }

  lemma StepKeepsSound(s: State, step: Step)
    requires Sound(s) && Enabled(s, step)
    ensures Sound(Apply(s, step))
  {
    hide Apply, Enabled, Coherent, Numbered, Bounded;
    StepKeepsCoherent(s, step);
    StepStaysNumbered(s, step);
    StepStaysBounded(s, step);
    WorkersStayNamed(s, step);
  }

  lemma {:induction false} SoundThroughout(states: seq<State>, steps: seq<Step>, i: nat)
    requires Run(states, steps) && i < |states|
    ensures Sound(states[i])
  {
    hide Apply, Enabled, Sound;
    if i > 0 {
      SoundThroughout(states, steps, i - 1);
      assert Taken(states, steps, i - 1);
      StepKeepsSound(states[i - 1], steps[i - 1]);
    } else {
      EmptyIsSound(states[0].config);
    }
  }

  lemma EmptyIsSound(c: Config)
    ensures Sound(Init(c))
  {
  }

  // The sweep on its own.
  lemma SweepKeepsSound(s: State, order: seq<Id>, now: Time)
    requires Sound(s)
    ensures Sound(SweepState(s, order, now))
  {
    hide Coherent, Numbered, Sweep, Evolves, ClocksAdvance, BoundedAt;
    var s' := SweepState(s, order, now);
    SweepKeeps(s.tables, order, now);
    SweepEvolves(s.tables, order, now);
    SweepAddsNothing(s.tables, order, now);
    NoNewJobsStaysNumbered(s.tables, s'.tables);
    assert ClocksAdvance(s, s') by {
      ClocksReflexive(s.prStates);
      SameClocksAdvance(s, s');
    }
    forall p | p in s'.tables.pipelines ensures BoundedAt(s', p) {
      StaysBounded(s, s', p);
    }
  }

  lemma SameClocksAdvance(s: State, s': State)
    requires s'.prStates == s.prStates
    ensures ClocksAdvance(s, s')
  {
  }
}
