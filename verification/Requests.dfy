// Request identifiers: what a request resolved to is written once, replays find it again, and a
// request that is refused leaves no trace.

module Requests {
  import opened Domain
  import opened TableModel
  import opened Model
  import opened Coherence
  import opened Steps
  import opened Evolution

  // The request was seen and remembered when it came.
  predicate Remembered(c: Case) {
    c == Stale || c == Known || c == Fresh
  }

  // What a remembered request resolves to.
  ghost function Resolution(s: State, input: Submission, p: Id, pick: Id, now: Time): Id {
    match Classify(s, input, now)
    case Known => pick
    case Fresh => if input.closed then "" else p
    case _ => ""
  }

  lemma AdvanceKeepsInbox(s: State, input: Submission, now: Time)
    ensures Advance(s, input, now).inbox == s.inbox
  {
    hide CancelPipelines, Superseded, SubmissionKey, NextClock;
  }

  lemma SubmitInbox(s: State, input: Submission, p: Id, ids: seq<Id>, pick: Id, now: Time)
    requires IdsFor(input, ids)
    ensures Submit(s, input, p, ids, pick, now).inbox ==
      if Remembered(Classify(s, input, now)) then Noted(s.inbox, input, Resolution(s, input, p, pick, now)) else s.inbox
  {
    AdvanceKeepsInbox(s, input, now);
    hide Advance, Create, Classify, SubmissionKey, Noted, Prior, GenerationOf;
  }

  // ---- Refusals leave no trace ----

  // An error leaves the state as it was; a replay only counts itself.
  lemma RefusedOrReplayed(s: State, input: Submission, p: Id, ids: seq<Id>, pick: Id, now: Time)
    requires IdsFor(input, ids)
    ensures SubmitAnswer(s, input, p, pick, now).Rejected? ==> Submit(s, input, p, ids, pick, now) == s
    ensures SubmitAnswer(s, input, p, pick, now).Rejected? <==>
      || !WellFormed(input)
      || (input.requestID in s.inbox.deliveries && input.requestID in s.inbox.hashes
          && s.inbox.hashes[input.requestID] != input)
      || (input.requestID !in s.inbox.deliveries && !Late(s, input, now) && Overflows(s, input))
    ensures Classify(s, input, now) == Replay ==>
      Submit(s, input, p, ids, pick, now)
        == s.(metrics := s.metrics.(webhookDuplicate := s.metrics.webhookDuplicate + 1))
  {
    hide WellFormed, Late, Overflows, Repeats, Accept, Join, IdsFor;
  }

  // ---- Written once ----

  ghost predicate WrittenOnce(s: State, s': State) {
    && (forall r :: r in s.inbox.deliveries ==>
          r in s'.inbox.deliveries && s'.inbox.deliveries[r] == s.inbox.deliveries[r])
    && (forall r :: r in s.inbox.hashes ==> r in s'.inbox.hashes && s'.inbox.hashes[r] == s.inbox.hashes[r])
  }

  ghost predicate Paired(s: State) {
    s.inbox.hashes.Keys == s.inbox.deliveries.Keys
  }

  lemma RememberedIsNew(s: State, input: Submission, now: Time)
    ensures Remembered(Classify(s, input, now)) ==> input.requestID !in s.inbox.deliveries
  {
    hide WellFormed, Late, Overflows, Repeats;
  }

  lemma StepWritesOnce(s: State, step: Step)
    requires Paired(s) && Enabled(s, step)
    ensures WrittenOnce(s, Apply(s, step)) && Paired(Apply(s, step))
  {
    hide Submit, Classify, FreshIds, IdsFor, SameRevision, Remembered, Resolution, WrittenOnce, Paired;
    if step.SubmitStep? {
      SubmitWritesOnce(s, step.input, step.p, step.ids, step.pick, step.now);
    } else {
      OnlySubmissionsAsk(s, step);
      hide Apply, Enabled;
      NothingWritten(s, Apply(s, step));
    }
  }

  lemma NothingWritten(s: State, s': State)
    requires Paired(s) && s'.inbox == s.inbox
    ensures WrittenOnce(s, s') && Paired(s')
  {
  }

  lemma SubmitWritesOnce(s: State, input: Submission, p: Id, ids: seq<Id>, pick: Id, now: Time)
    requires Paired(s) && IdsFor(input, ids)
    ensures var s' := Submit(s, input, p, ids, pick, now); WrittenOnce(s, s') && Paired(s')
  {
    hide Submit, Classify, IdsFor, Remembered, Resolution;
    SubmitInbox(s, input, p, ids, pick, now);
    RememberedIsNew(s, input, now);
  }

  lemma {:induction false} WrittenOnceThroughout(states: seq<State>, steps: seq<Step>, i: nat, k: nat)
    requires Run(states, steps) && i <= k < |states|
    ensures Paired(states[k]) && WrittenOnce(states[i], states[k])
    decreases k
  {
    hide Apply, Enabled;
    if k > 0 {
      WrittenOnceThroughout(states, steps, if i < k then i else k - 1, k - 1);
      assert Taken(states, steps, k - 1);
      StepWritesOnce(states[k - 1], steps[k - 1]);
    }
  }

  lemma StepRemembers(s: State, step: Step)
    requires step.SubmitStep? && Enabled(s, step) && Remembered(Classify(s, step.input, step.now))
    ensures var s' := Apply(s, step);
      && step.input.requestID in s'.inbox.deliveries && step.input.requestID in s'.inbox.hashes
      && s'.inbox.hashes[step.input.requestID] == step.input
      && s'.inbox.deliveries[step.input.requestID] == Resolution(s, step.input, step.p, step.pick, step.now)
  {
    SubmitInbox(s, step.input, step.p, step.ids, step.pick, step.now);
    hide Classify, IdsFor, FreshIds, SameRevision, Submit, Resolution;
  }

  // What was remembered is found again at every later state.
  lemma StaysRemembered(states: seq<State>, steps: seq<Step>, i: nat, k: nat)
    requires Run(states, steps) && i < k < |states|
    requires steps[i].SubmitStep? && Remembered(Classify(states[i], steps[i].input, steps[i].now))
    ensures var step := steps[i];
      && step.input.requestID in states[k].inbox.deliveries && step.input.requestID in states[k].inbox.hashes
      && states[k].inbox.hashes[step.input.requestID] == step.input
      && states[k].inbox.deliveries[step.input.requestID]
           == Resolution(states[i], step.input, step.p, step.pick, step.now)
  {
    hide Apply, Enabled, Classify, Resolution;
    assert Taken(states, steps, i);
    StepRemembers(states[i], steps[i]);
    WrittenOnceThroughout(states, steps, i + 1, k);
  }

  // A remembered request, replayed at any later state of the run with the same body, resolves to what it
  // resolved to then and counts as a duplicate; with any other acceptable body it conflicts. Neither
  // changes anything but the duplicate counter.
  lemma ReplayResolves(states: seq<State>, steps: seq<Step>, i: nat, k: nat, input: Submission,
                       p: Id, ids: seq<Id>, pick: Id, now: Time)
    requires Run(states, steps) && i < k < |states|
    requires steps[i].SubmitStep? && steps[i].input.requestID == input.requestID
    requires Remembered(Classify(states[i], steps[i].input, steps[i].now)) && IdsFor(input, ids) && WellFormed(input)
    ensures var s := states[k];
      if input == steps[i].input then
        && SubmitAnswer(s, input, p, pick, now)
             == Resolved(View(s.tables.pipelines,
                              Resolution(states[i], input, steps[i].p, steps[i].pick, steps[i].now)), true)
        && Submit(s, input, p, ids, pick, now) == CountDuplicate(s)
      else
        && SubmitAnswer(s, input, p, pick, now) == Rejected(Conflict)
        && Submit(s, input, p, ids, pick, now) == s
  {
    hide Run, Classify, WellFormed, Accept, Join, IdsFor, Resolution, Remembered;
    StaysRemembered(states, steps, i, k);
    ClassifySeen(states[k], input, now);
  }

  lemma ClassifySeen(s: State, input: Submission, now: Time)
    requires WellFormed(input) && input.requestID in s.inbox.deliveries
    ensures Classify(s, input, now) ==
      if input.requestID in s.inbox.hashes && s.inbox.hashes[input.requestID] != input then Clash else Replay
  {
    hide WellFormed, Late, Overflows, Repeats;
  }

  // The step creates a pipeline.
  ghost predicate Creates(s: State, step: Step) {
    step.SubmitStep? && !step.input.closed && Classify(s, step.input, step.now) == Fresh
  }

  // No request creates two pipelines in a run.
  lemma OnePipelinePerRequest(states: seq<State>, steps: seq<Step>, i: nat, k: nat)
    requires Run(states, steps) && i < k < |steps|
    requires Creates(states[i], steps[i]) && Creates(states[k], steps[k])
    ensures steps[i].input.requestID != steps[k].input.requestID
  {
    StaysRemembered(states, steps, i, k);
    RememberedIsNew(states[k], steps[k].input, steps[k].now);
    hide Run, Classify, Resolution;
  }

  // ---- A request resolves to a pipeline of its own revision ----

  predicate OfRevision(q: Pipeline, input: Submission) {
    && q.tenant == input.tenant && q.repo == input.repo && q.sourceRepo == input.sourceRepo
    && q.pr == input.pr && q.commit == input.commit && q.config == input.spec
  }

  ghost predicate ResolvesWell(s: State, r: string) {
    && r in s.inbox.deliveries && r in s.inbox.hashes
    && var p := s.inbox.deliveries[r];
    && (p == "" || p in s.tables.issued)
    && (p in s.tables.pipelines ==> OfRevision(s.tables.pipelines[p], s.inbox.hashes[r]))
  }

  ghost predicate Resolving(s: State) {
    && Paired(s) && "" !in s.tables.pipelines
    && forall r {:trigger ResolvesWell(s, r)} :: r in s.inbox.deliveries ==> ResolvesWell(s, r)
  }

  lemma ResolutionFits(s: State, input: Submission, p: Id, ids: seq<Id>, pick: Id, now: Time)
    requires Coherent(s.tables) && Enabled(s, SubmitStep(input, p, ids, pick, now))
    requires Remembered(Classify(s, input, now))
    ensures var s' := Submit(s, input, p, ids, pick, now);
      var x := Resolution(s, input, p, pick, now);
      && (x == "" || x in s'.tables.issued)
      && (x in s'.tables.pipelines && x != "" ==> OfRevision(s'.tables.pipelines[x], input))
  {
    assert AllIssued(s.tables);
    hide Coherent, Classify, Submit, Accept, IdsFor, FreshIds, AllIssued, WellFormed, SameRevision, OfRevision;
    if Classify(s, input, now) == Fresh {
      FreshIsAccepted(s, input, p, ids, pick, now);
      if !input.closed {
        AcceptedFits(s, input, p, ids, now);
      }
    } else {
      SubmitLeavesTables(s, input, p, ids, pick, now);
      IssuedKeys(s.tables, pick);
      SameFits(s.tables, input, Prior(s, input).generation, pick);
    }
  }

  lemma FreshIsAccepted(s: State, input: Submission, p: Id, ids: seq<Id>, pick: Id, now: Time)
    requires IdsFor(input, ids) && Classify(s, input, now) == Fresh
    ensures WellFormed(input) && Submit(s, input, p, ids, pick, now) == Accept(s, input, p, ids, now)
  {
    hide Accept, Late, Overflows, SubmissionKey, EventTime, Prior;
  }

  lemma AcceptedFits(s: State, input: Submission, p: Id, ids: seq<Id>, now: Time)
    requires IdsFor(input, ids) && WellFormed(input) && !input.closed
    ensures var t' := Accept(s, input, p, ids, now).tables;
      p in t'.issued && p in t'.pipelines && OfRevision(t'.pipelines[p], input)
  {
    hide Accept, Advance, CancelPipelines, GenerationOf, NewJobs;
    AcceptTables(s, input, p, ids, now);
  }

  lemma SameFits(t: Tables, input: Submission, generation: int, p: Id)
    ensures SameRevision(t, input, generation, p) ==> p in t.pipelines && OfRevision(t.pipelines[p], input)
  {
  }

  lemma IssuedKeys(t: Tables, p: Id)
    requires AllIssued(t)
    ensures p in t.pipelines ==> p in t.issued
  {
  }

  lemma StaysResolved(s: State, s': State, r: string)
    requires ResolvesWell(s, r) && Evolves(s.tables, s'.tables) && WrittenOnce(s, s')
    requires "" !in s.tables.pipelines && "" !in s'.tables.pipelines
    ensures ResolvesWell(s', r)
  {
  }

  lemma NeverBlank(s: State, step: Step)
    requires Coherent(s.tables) && Enabled(s, step) && "" !in s.tables.pipelines
    ensures "" !in Apply(s, step).tables.pipelines
  {
    if step.SubmitStep? {
      SubmitNamesPipelines(s, step.input, step.p, step.ids, step.pick, step.now);
      hide Submit, Coherent;
    } else {
      OnlySubmissionsAsk(s, step);
      hide Apply, Enabled;
    }
  }

  lemma FreshPipelines(s: State, input: Submission, p: Id, ids: seq<Id>, now: Time)
    requires IdsFor(input, ids) && WellFormed(input)
    ensures var t' := Accept(s, input, p, ids, now).tables;
      if input.closed then t'.pipelines.Keys == s.tables.pipelines.Keys
      else
        && t'.pipelines.Keys == s.tables.pipelines.Keys + {p}
        && t'.pipelines[p] == NewPipeline(input, ids, GenerationOf(s, input), now)
  {
    hide Accept, Advance, Superseded, CancelPipelines, GenerationOf, NewPipeline, NewJobs;
    AcceptTables(s, input, p, ids, now);
    AdvanceTables(s, input, now);
    CancelledKeys(s.tables, Superseded(s.tables, input), now);
  }

  lemma CancelledKeys(t: Tables, ps: set<Id>, now: Time)
    ensures CancelPipelines(t, ps, now).pipelines.Keys == t.pipelines.Keys
  {
  }

  lemma SubmitNamesPipelines(s: State, input: Submission, p: Id, ids: seq<Id>, pick: Id, now: Time)
    requires IdsFor(input, ids)
    ensures Submit(s, input, p, ids, pick, now).tables.pipelines.Keys <= s.tables.pipelines.Keys + {p}
  {
    if Classify(s, input, now) == Fresh {
      FreshPipelines(s, input, p, ids, now);
      hide IdsFor, Accept, Classify;
    } else {
      SubmitLeavesTables(s, input, p, ids, pick, now);
      hide Submit;
    }
  }

  lemma StepKeepsResolving(s: State, step: Step)
    requires Resolving(s) && Coherent(s.tables) && Enabled(s, step)
    ensures Resolving(Apply(s, step))
  {
    var s' := Apply(s, step);
    StepWritesOnce(s, step);
    StepEvolves(s, step);
    NeverBlank(s, step);
    if step.SubmitStep? {
      SubmitInbox(s, step.input, step.p, step.ids, step.pick, step.now);
      if Remembered(Classify(s, step.input, step.now)) {
        ResolutionFits(s, step.input, step.p, step.ids, step.pick, step.now);
      }
    } else {
      OnlySubmissionsAsk(s, step);
    }
    hide Apply, Enabled, Submit, Coherent, Evolves, WrittenOnce, Resolution, Classify;
    forall r | r in s'.inbox.deliveries ensures ResolvesWell(s', r) {
      if r in s.inbox.deliveries {
        assert ResolvesWell(s, r);
        StaysResolved(s, s', r);
      }
    }
  }

  lemma {:induction false} ResolvingThroughout(states: seq<State>, steps: seq<Step>, i: nat)
    requires Run(states, steps) && i < |states|
    ensures Resolving(states[i])
  {
    hide Coherent, Apply, Enabled;
    if i > 0 {
      ResolvingThroughout(states, steps, i - 1);
      CoherentThroughout(states, steps, i - 1);
      assert Taken(states, steps, i - 1);
      hide Run, Resolving;
      StepKeepsResolving(states[i - 1], steps[i - 1]);
    }
  }
}
