// Pull-request events over whole runs: clocks only advance, a close holds until a later open
// event is accepted, and no generation is ever given out twice.

module Fence {
  import opened Domain
  import opened TableModel
  import opened Model
  import opened Coherence
  import opened Steps
  import opened Clocks
  import opened Requests

  // Later, or at the same time and not reopened; generations never fall, and the commit changes only with them.
  predicate ClockAdvances(x: PRState, y: PRState) {
    && x.generation <= y.generation && (x.generation == y.generation ==> x.commit == y.commit)
    && (x.updatedAt < y.updatedAt || (x.updatedAt == y.updatedAt && (x.closed ==> y.closed)))
  }

  ghost predicate ClocksAdvance(s: State, s': State) {
    forall k :: k in s.prStates ==> k in s'.prStates && ClockAdvances(s.prStates[k], s'.prStates[k])
  }

  lemma AdvanceClocks(s: State, input: Submission, now: Time)
    ensures Advance(s, input, now).prStates ==
      if input.pr <= 0 then s.prStates else s.prStates[SubmissionKey(input) := NextClock(s, input, now)]
  {
    hide CancelPipelines, Superseded, SubmissionKey, NextClock;
  }

  // The clocks a submission leaves behind, case by case.
  ghost predicate ClocksAfter(s: State, input: Submission, now: Time, clocks: map<PRKey, PRState>) {
    clocks ==
    if input.pr <= 0 then s.prStates
    else match Classify(s, input, now)
      case Known => s.prStates[SubmissionKey(input) := Prior(s, input).(updatedAt := EventTime(input, now))]
      case Fresh => s.prStates[SubmissionKey(input) := NextClock(s, input, now)]
      case _ => s.prStates
  }

  lemma SubmitClocks(s: State, input: Submission, p: Id, ids: seq<Id>, pick: Id, now: Time)
    requires IdsFor(input, ids)
    ensures ClocksAfter(s, input, now, Submit(s, input, p, ids, pick, now).prStates)
  {
    AdvanceClocks(s, input, now);
    hide Advance, Create, Classify, SubmissionKey, EventTime, NextClock, Prior;
    match Classify(s, input, now)
    case _ =>
  }

  lemma AdvancesByEvent(s: State, input: Submission, now: Time)
    requires input.pr > 0 && SubmissionKey(input) in s.prStates && !Late(s, input, now)
    ensures ClockAdvances(s.prStates[SubmissionKey(input)], NextClock(s, input, now))
    ensures !input.closed && !Prior(s, input).closed ==>
      ClockAdvances(s.prStates[SubmissionKey(input)], Prior(s, input).(updatedAt := EventTime(input, now)))
  {
    hide EventTime, SubmissionKey;
  }

  lemma AcceptedIsNotLate(s: State, input: Submission, now: Time)
    ensures Classify(s, input, now) == Fresh || Classify(s, input, now) == Known ==> !Late(s, input, now)
    ensures Classify(s, input, now) == Known ==> !input.closed && !Prior(s, input).closed
  {
    hide Late, WellFormed, Overflows, Prior;
  }

  lemma SubmitAdvancesClocks(s: State, input: Submission, p: Id, ids: seq<Id>, pick: Id, now: Time)
    requires IdsFor(input, ids)
    ensures ClocksAdvance(s, Submit(s, input, p, ids, pick, now))
  {
    hide Submit, ClocksAfter, IdsFor, ClockAdvances;
    SubmitClocks(s, input, p, ids, pick, now);
    ClocksAfterAdvance(s, input, now, Submit(s, input, p, ids, pick, now).prStates);
  }

  lemma ClocksAfterAdvance(s: State, input: Submission, now: Time, clocks: map<PRKey, PRState>)
    requires ClocksAfter(s, input, now, clocks)
    ensures forall k :: k in s.prStates ==> k in clocks && ClockAdvances(s.prStates[k], clocks[k])
  {
    AcceptedIsNotLate(s, input, now);
    hide Classify, Late, SubmissionKey, EventTime, NextClock, Prior, ClockAdvances;
    var key := SubmissionKey(input);
    ClocksReflexive(s.prStates);
    if input.pr > 0 && !Late(s, input, now) {
      if key in s.prStates {
        AdvancesByEvent(s, input, now);
      }
      if Classify(s, input, now) == Known {
        UpdateAdvances(s.prStates, key, Prior(s, input).(updatedAt := EventTime(input, now)));
      }
      if Classify(s, input, now) == Fresh {
        UpdateAdvances(s.prStates, key, NextClock(s, input, now));
      }
    }
  }

  lemma ClocksReflexive(clocks: map<PRKey, PRState>)
    ensures forall k :: k in clocks ==> ClockAdvances(clocks[k], clocks[k])
  {
  }

  lemma UpdateAdvances(clocks: map<PRKey, PRState>, key: PRKey, clock: PRState)
    requires key in clocks ==> ClockAdvances(clocks[key], clock)
    ensures forall k :: k in clocks ==> k in clocks[key := clock] && ClockAdvances(clocks[k], clocks[key := clock][k])
  {
  }

  // No step turns a clock back.
  lemma StepAdvancesClocks(s: State, step: Step)
    requires Enabled(s, step)
    ensures ClocksAdvance(s, Apply(s, step))
  {
    hide Submit, Classify, FreshIds, IdsFor;
    if step.SubmitStep? {
      SubmitAdvancesClocks(s, step.input, step.p, step.ids, step.pick, step.now);
    } else {
      OnlySubmissionsAsk(s, step);
      hide Apply, Enabled;
    }
  }

  lemma {:induction false} ClocksNeverTurnBack(states: seq<State>, steps: seq<Step>, i: nat, k: nat)
    requires Run(states, steps) && i <= k < |states|
    ensures ClocksAdvance(states[i], states[k])
  {
    if i < k {
      ClocksNeverTurnBack(states, steps, i, k - 1);
      assert Taken(states, steps, k - 1);
      StepAdvancesClocks(states[k - 1], steps[k - 1]);
    }
  }

  // ---- The close fence ----

  // An open event of this pull request, later than the given time, is accepted.
  ghost predicate Opens(s: State, step: Step, key: PRKey, time: Time) {
    && step.SubmitStep? && step.input.pr > 0 && !step.input.closed && SubmissionKey(step.input) == key
    && Classify(s, step.input, step.now) == Fresh && EventTime(step.input, step.now) > time
  }

  ghost function PipelinesAt(s: State, key: PRKey): set<Id> {
    set p | p in s.tables.pipelines && s.tables.pipelines[p].pr > 0 && KeyOf(s.tables.pipelines[p]) == key
  }

  predicate ClosedSince(s: State, key: PRKey, time: Time) {
    key in s.prStates && s.prStates[key].closed && s.prStates[key].updatedAt >= time
  }

  lemma CreatedAt(s: State, input: Submission, p: Id, ids: seq<Id>, pick: Id, now: Time)
    requires Coherent(s.tables) && Enabled(s, SubmitStep(input, p, ids, pick, now))
    ensures var t' := Submit(s, input, p, ids, pick, now).tables;
      if Classify(s, input, now) == Fresh && !input.closed
      then t'.pipelines.Keys == s.tables.pipelines.Keys + {p}
        && t'.pipelines[p] == NewPipeline(input, ids, GenerationOf(s, input), now)
      else t'.pipelines.Keys == s.tables.pipelines.Keys
    ensures p !in s.tables.pipelines
  {
    hide IdsFor, SameRevision, Classify, GenerationOf, NewPipeline, Accept, Submit, WellFormed;
    assert AllIssued(s.tables) && p !in s.tables.pipelines;
    hide Coherent, AllIssued, FreshIds;
    if Classify(s, input, now) == Fresh {
      FreshIsAccepted(s, input, p, ids, pick, now);
      FreshPipelines(s, input, p, ids, now);
    } else {
      SubmitLeavesTables(s, input, p, ids, pick, now);
    }
  }

  // Only the identifiers handed to an accepted open event can name new pipelines.
  lemma NewPipelines(s: State, step: Step, key: PRKey)
    requires Coherent(s.tables) && Enabled(s, step)
    ensures forall p :: p in PipelinesAt(Apply(s, step), key) && p !in s.tables.pipelines ==>
      && step.SubmitStep? && p == step.p && step.input.pr > 0 && !step.input.closed && SubmissionKey(step.input) == key
      && Classify(s, step.input, step.now) == Fresh
      && Apply(s, step).tables.pipelines[p].generation == GenerationOf(s, step.input)
      && Apply(s, step).tables.pipelines[p].commit == step.input.commit
  {
    hide Classify, Submit, FreshIds, IdsFor, SameRevision, Coherent;
    if step.SubmitStep? {
      CreatedAt(s, step.input, step.p, step.ids, step.pick, step.now);
      hide GenerationOf;
    } else {
      OnlySubmissionsAsk(s, step);
      hide Apply, Enabled;
    }
  }

  // An accepted close, or a close already known, holds unless a later open event is accepted.
  lemma ClosedStays(s: State, step: Step, key: PRKey, time: Time)
    requires Coherent(s.tables) && Enabled(s, step) && ClosedSince(s, key, time) && !Opens(s, step, key, time)
    ensures ClosedSince(Apply(s, step), key, time)
    ensures forall p :: p in PipelinesAt(Apply(s, step), key) ==> p in s.tables.pipelines
  {
    hide Coherent, PipelinesAt, Submit, IdsFor, FreshIds, SameRevision, ClocksAfter, Classify, GenerationOf,
         SubmissionKey, ClockAdvances, EventTime;
    NewPipelines(s, step, key);
    StepAdvancesClocks(s, step);
    if step.SubmitStep? {
      var s' := Apply(s, step);
      SubmitClocks(s, step.input, step.p, step.ids, step.pick, step.now);
      ClockStaysClosed(s, step.input, step.now, s'.prStates, key, time);
    } else {
      OnlySubmissionsAsk(s, step);
      hide Apply, Enabled;
    }
  }

  lemma ClockStaysClosed(s: State, input: Submission, now: Time, clocks: map<PRKey, PRState>, key: PRKey, time: Time)
    requires ClosedSince(s, key, time) && ClocksAfter(s, input, now, clocks)
    requires input.pr > 0 && !input.closed && SubmissionKey(input) == key && Classify(s, input, now) == Fresh
      ==> EventTime(input, now) <= time
    ensures key in clocks && clocks[key].closed && clocks[key].updatedAt >= time
    ensures !(input.pr > 0 && !input.closed && SubmissionKey(input) == key && Classify(s, input, now) == Fresh)
  {
    AcceptedIsNotLate(s, input, now);
    hide Classify, SubmissionKey, EventTime;
  }

  // An accepted close closes.
  lemma CloseCloses(s: State, input: Submission, p: Id, ids: seq<Id>, pick: Id, now: Time)
    requires IdsFor(input, ids) && input.closed && input.pr > 0 && Classify(s, input, now) == Fresh
    ensures ClosedSince(Submit(s, input, p, ids, pick, now), SubmissionKey(input), EventTime(input, now))
  {
    SubmitClocks(s, input, p, ids, pick, now);
    hide Submit, Classify, SubmissionKey, EventTime, Prior;
  }

  lemma ClosedWantsNothing(s: State, key: PRKey, time: Time)
    requires Timed(s) && ClosedSince(s, key, time)
    ensures key in s.previews ==> s.previews[key].desired == Deleting
  {
    assert key in s.previews ==> PreviewTimed(s, key);
  }

  // Once a close with event time `time` stands, and until a later open event is accepted: the pull request
  // stays closed, no pipeline is created for it, and no preview of it is wanted ACTIVE.
  lemma {:induction false} CloseFence(states: seq<State>, steps: seq<Step>, i: nat, k: nat, key: PRKey, time: Time)
    requires Run(states, steps) && i <= k < |states|
    requires ClosedSince(states[i], key, time)
    requires forall m {:trigger states[m]} :: i <= m < k ==> !Opens(states[m], steps[m], key, time)
    ensures ClosedSince(states[k], key, time)
    ensures forall p :: p in PipelinesAt(states[k], key) ==> p in states[i].tables.pipelines
    ensures key in states[k].previews ==> states[k].previews[key].desired == Deleting
  {
    hide Timed, Coherent, Apply, Enabled, Opens;
    if i < k {
      CloseFence(states, steps, i, k - 1, key, time);
      CoherentThroughout(states, steps, k - 1);
      assert Taken(states, steps, k - 1);
      assert !Opens(states[k - 1], steps[k - 1], key, time);
      ClosedStays(states[k - 1], steps[k - 1], key, time);
      EarlierPipelines(states, steps, i, k, key);
    }
    TimedThroughout(states, steps, k);
    ClosedWantsNothing(states[k], key, time);
  }

  // A pipeline that is there at both ends of a stretch was there throughout.
  lemma EarlierPipelines(states: seq<State>, steps: seq<Step>, i: nat, k: nat, key: PRKey)
    requires Run(states, steps) && i < k < |states|
    requires forall p :: p in PipelinesAt(states[k - 1], key) ==> p in states[i].tables.pipelines
    requires forall p :: p in PipelinesAt(states[k], key) ==> p in states[k - 1].tables.pipelines
    ensures forall p :: p in PipelinesAt(states[k], key) ==> p in states[i].tables.pipelines
  {
    Identity(states, steps, k - 1);
    forall p | p in PipelinesAt(states[k], key) ensures p in states[i].tables.pipelines {
      assert p in PipelinesAt(states[k - 1], key);
    }
  }

  // What identifies a pipeline does not change in a step.
  lemma Identity(states: seq<State>, steps: seq<Step>, i: nat)
    requires Run(states, steps) && i < |steps|
    ensures forall p :: p in states[i].tables.pipelines && p in states[i + 1].tables.pipelines ==>
      var x, y := states[i].tables.pipelines[p], states[i + 1].tables.pipelines[p];
      y.pr == x.pr && y.repo == x.repo && KeyOf(y) == KeyOf(x) && y.generation == x.generation
  {
    Evolution.RunEvolves(states, steps, i, i + 1);
    hide KeyOf;
  }

  // ---- Generations ----

  // A pipeline created after a state carries a generation above the clock of that state.
  lemma {:induction false} LaterGeneration(states: seq<State>, steps: seq<Step>, i: nat, k: nat, key: PRKey, q: Id)
    requires Run(states, steps) && i <= k < |states| && key in states[i].prStates
    requires q in PipelinesAt(states[k], key) && q !in states[i].tables.pipelines
    ensures states[k].tables.pipelines[q].generation > states[i].prStates[key].generation
  {
    hide Coherent, Apply, Enabled;
    if q in states[k - 1].tables.pipelines {
      Identity(states, steps, k - 1);
      hide Run;
      LaterGeneration(states, steps, i, k - 1, key, q);
    } else {
      CoherentThroughout(states, steps, k - 1);
      assert Taken(states, steps, k - 1);
      ClocksNeverTurnBack(states, steps, i, k - 1);
      hide Run;
      CreatedLater(states[k - 1], steps[k - 1], key, q);
    }
  }

  lemma CreatedLater(s: State, step: Step, key: PRKey, q: Id)
    requires Coherent(s.tables) && Enabled(s, step) && key in s.prStates
    requires q in PipelinesAt(Apply(s, step), key) && q !in s.tables.pipelines
    ensures Apply(s, step).tables.pipelines[q].generation > s.prStates[key].generation
  {
    NewPipelines(s, step, key);
    hide Apply, Enabled, Coherent, Classify, PipelinesAt;
  }

  // Two pipelines of one pull request never carry the same generation, even if one is pruned
  // before the other is created.
  lemma GenerationsNeverRepeat(states: seq<State>, steps: seq<Step>, i: nat, k: nat, key: PRKey, p: Id, q: Id)
    requires Run(states, steps) && i <= k < |states| && p != q
    requires p in PipelinesAt(states[i], key) && q in PipelinesAt(states[k], key)
    ensures states[i].tables.pipelines[p].generation != states[k].tables.pipelines[q].generation
  {
    TimedThroughout(states, steps, i);
    assert PipelineTimed(states[i], p);
    hide Run;
    if q in states[i].tables.pipelines {
      Evolution.RunEvolves(states, steps, i, k);
      assert Apart(states[i].tables, p, q);
    } else {
      LaterGeneration(states, steps, i, k, key, q);
    }
  }
}
