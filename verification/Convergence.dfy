// However the events of a pull request are delivered, its clock ends at the latest of them.

module Convergence {
  import opened Domain
  import opened TableModel
  import opened Model
  import opened Steps
  import opened Requests
  import opened Fence
  import opened Soundness

  // What an event says about when, and whether the pull request closed.
  datatype Stamp = Stamp(time: Time, closed: bool)

  // Earlier, or at the same time and not overridden by a close.
  predicate AtMost(x: Stamp, y: Stamp) {
    x.time < y.time || (x.time == y.time && (x.closed ==> y.closed))
  }

  function ClockStamp(c: PRState): Stamp {
    Stamp(c.updatedAt, c.closed)
  }

  function EventStamp(input: Submission, now: Time): Stamp {
    Stamp(EventTime(input, now), input.closed)
  }

  function StampAt(step: Step): Stamp {
    if step.SubmitStep? then EventStamp(step.input, step.now) else Stamp(0, false)
  }

  // The step brings an event of this pull request that is not refused and not a replay.
  ghost predicate Hears(s: State, step: Step, key: PRKey) {
    && step.SubmitStep? && step.input.pr > 0 && SubmissionKey(step.input) == key
    && Remembered(Classify(s, step.input, step.now))
  }

  lemma KnownCommit(s: State, input: Submission, pick: Id)
    requires Bounded(s) && input.pr > 0 && SameRevision(s.tables, input, Prior(s, input).generation, pick)
    ensures SubmissionKey(input) in s.prStates && Prior(s, input).commit == input.commit
  {
    hide Lower;
    assert BoundedAt(s, pick);
  }

  lemma LateIsAtMost(s: State, input: Submission, now: Time)
    requires input.pr > 0 && SubmissionKey(input) in s.prStates
    ensures Late(s, input, now) <==> AtMost(EventStamp(input, now), ClockStamp(s.prStates[SubmissionKey(input)]))
  {
    hide SubmissionKey, EventTime;
  }

  lemma StaleIsLate(s: State, input: Submission, now: Time)
    ensures Classify(s, input, now) == Stale ==> Late(s, input, now)
  {
    hide WellFormed, Late, Overflows, Repeats;
  }

  lemma LateNeedsClock(s: State, input: Submission, now: Time)
    ensures Late(s, input, now) ==> SubmissionKey(input) in s.prStates
  {
    hide SubmissionKey, EventTime, Prior;
  }

  // The clock took the event's stamp and commit if the event is later, and otherwise stayed.
  ghost predicate TakesTheLater(clocks: map<PRKey, PRState>, clocks': map<PRKey, PRState>, key: PRKey,
                                stamp: Stamp, commit: string) {
    key in clocks' &&
    if key in clocks && AtMost(stamp, ClockStamp(clocks[key])) then clocks'[key] == clocks[key]
    else ClockStamp(clocks'[key]) == stamp && clocks'[key].commit == commit
  }

  ghost predicate SameClock(clocks: map<PRKey, PRState>, clocks': map<PRKey, PRState>, key: PRKey) {
    (key in clocks' <==> key in clocks) && (key in clocks ==> clocks'[key] == clocks[key])
  }

  // What an event that is heard makes of the clocks, by its case.
  ghost predicate Heard(s: State, input: Submission, now: Time, clocks': map<PRKey, PRState>) {
    match Classify(s, input, now)
    case Known => clocks' == s.prStates[SubmissionKey(input) := Prior(s, input).(updatedAt := EventTime(input, now))]
    case Fresh => clocks' == s.prStates[SubmissionKey(input) := NextClock(s, input, now)]
    case Stale => clocks' == s.prStates
    case _ => false
  }

  lemma StaleClock(s: State, input: Submission, now: Time, clocks': map<PRKey, PRState>)
    requires input.pr > 0 && Classify(s, input, now) == Stale && clocks' == s.prStates
    ensures TakesTheLater(s.prStates, clocks', SubmissionKey(input), EventStamp(input, now), input.commit)
  {
    hide Classify, Late, SubmissionKey, EventTime, AtMost;
    StaleIsLate(s, input, now);
    LateNeedsClock(s, input, now);
    LateIsAtMost(s, input, now);
  }

  lemma FreshClock(s: State, input: Submission, now: Time, clocks': map<PRKey, PRState>)
    requires input.pr > 0 && Classify(s, input, now) == Fresh
    requires clocks' == s.prStates[SubmissionKey(input) := NextClock(s, input, now)]
    ensures TakesTheLater(s.prStates, clocks', SubmissionKey(input), EventStamp(input, now), input.commit)
  {
    hide Classify, Late, SubmissionKey, EventTime, AtMost, Prior;
    AcceptedIsNotLate(s, input, now);
    if SubmissionKey(input) in s.prStates {
      LateIsAtMost(s, input, now);
    }
  }

  lemma KnownClock(s: State, input: Submission, pick: Id, now: Time, clocks': map<PRKey, PRState>)
    requires Bounded(s) && input.pr > 0 && Classify(s, input, now) == Known
    requires SameRevision(s.tables, input, Prior(s, input).generation, pick)
    requires clocks' == s.prStates[SubmissionKey(input) := Prior(s, input).(updatedAt := EventTime(input, now))]
    ensures TakesTheLater(s.prStates, clocks', SubmissionKey(input), EventStamp(input, now), input.commit)
  {
    hide Bounded, Classify, Late, SubmissionKey, EventTime, AtMost, SameRevision;
    AcceptedIsNotLate(s, input, now);
    KnownCommit(s, input, pick);
    LateIsAtMost(s, input, now);
  }

  lemma HearingTakesTheLater(s: State, step: Step, key: PRKey)
    requires Bounded(s) && Enabled(s, step) && Hears(s, step, key)
    ensures TakesTheLater(s.prStates, Apply(s, step).prStates, key, StampAt(step), step.input.commit)
  {
    var input, now, clocks' := step.input, step.now, Apply(s, step).prStates;
    SubmitClocks(s, input, step.p, step.ids, step.pick, now);
    hide Submit, Bounded, Classify, SubmissionKey, EventTime, NextClock, Prior, IdsFor, FreshIds, SameRevision,
         TakesTheLater, EventStamp;
    assert Heard(s, input, now, clocks');
    match Classify(s, input, now)
    case Known => KnownClock(s, input, step.pick, now, clocks');
    case Fresh => FreshClock(s, input, now, clocks');
    case Stale => StaleClock(s, input, now, clocks');
    case _ =>
  }

  lemma DeafStep(s: State, step: Step, key: PRKey)
    requires Enabled(s, step) && !(step.SubmitStep? && Hears(s, step, key))
    ensures SameClock(s.prStates, Apply(s, step).prStates, key)
  {
    hide Submit, Classify, SubmissionKey, EventTime, NextClock, Prior, IdsFor, FreshIds, SameRevision;
    if step.SubmitStep? {
      SubmitClocks(s, step.input, step.p, step.ids, step.pick, step.now);
    } else {
      OnlySubmissionsAsk(s, step);
      hide Apply, Enabled;
    }
  }

  // ---- Runs ----

  ghost predicate HeardAt(states: seq<State>, steps: seq<Step>, m: int, key: PRKey) {
    0 <= m < |steps| && m < |states| && steps[m].SubmitStep? && Hears(states[m], steps[m], key)
  }

  // The clock of the pull request is that of the m-th step's event, and no event heard before k is later.
  ghost predicate Latest(states: seq<State>, steps: seq<Step>, k: nat, key: PRKey, m: int) {
    && k < |states| && 0 <= m < k <= |steps| && key in states[k].prStates
    && HeardAt(states, steps, m, key)
    && ClockStamp(states[k].prStates[key]) == StampAt(steps[m])
    && states[k].prStates[key].commit == steps[m].input.commit
    && forall n {:trigger HeardAt(states, steps, n, key)} :: 0 <= n < k && HeardAt(states, steps, n, key)
         ==> AtMost(StampAt(steps[n]), StampAt(steps[m]))
  }

  ghost predicate NoneHeard(states: seq<State>, steps: seq<Step>, k: nat, key: PRKey) {
    forall n {:trigger HeardAt(states, steps, n, key)} :: 0 <= n < k ==> !HeardAt(states, steps, n, key)
  }

  lemma BoundedStep(states: seq<State>, steps: seq<Step>, i: nat)
    requires Run(states, steps) && i < |steps|
    ensures |states| == |steps| + 1 && Bounded(states[i])
    ensures Enabled(states[i], steps[i]) && states[i + 1] == Apply(states[i], steps[i])
  {
    hide Bounded, Apply, Enabled;
    SoundThroughout(states, steps, i);
    assert Taken(states, steps, i);
  }

  lemma Lengths(states: seq<State>, steps: seq<Step>)
    requires Run(states, steps)
    ensures |states| == |steps| + 1
  {
  }

  lemma StartsEmpty(states: seq<State>, steps: seq<Step>)
    requires Run(states, steps)
    ensures |states| == |steps| + 1 && states[0].prStates == map[]
  {
  }

  // After any run the clock of a pull request is the maximum of the events heard: latest time first,
  // a close winning ties. There is a clock as soon as there is an event.
  lemma {:induction false} ClockIsLatest(states: seq<State>, steps: seq<Step>, k: nat, key: PRKey) returns (m: int)
    requires Run(states, steps) && k < |states|
    ensures key !in states[k].prStates ==> NoneHeard(states, steps, k, key)
    ensures key in states[k].prStates ==> Latest(states, steps, k, key, m)
  {
    hide Run, Bounded, Apply, Enabled, Hears, Latest;
    Lengths(states, steps);
    m := -1;
    if k == 0 {
      StartsEmpty(states, steps);
    } else {
      var m0 := ClockIsLatest(states, steps, k - 1, key);
      BoundedStep(states, steps, k - 1);
      if steps[k - 1].SubmitStep? && Hears(states[k - 1], steps[k - 1], key) {
        HearingTakesTheLater(states[k - 1], steps[k - 1], key);
      } else {
        DeafStep(states[k - 1], steps[k - 1], key);
      }
      m := LatestStep(states, steps, k, key, m0);
    }
  }

  lemma LatestStep(states: seq<State>, steps: seq<Step>, k: nat, key: PRKey, m0: int) returns (m: int)
    requires 0 < k < |states| == |steps| + 1
    requires key in states[k - 1].prStates ==> Latest(states, steps, k - 1, key, m0)
    requires key !in states[k - 1].prStates ==> NoneHeard(states, steps, k - 1, key)
    requires var step := steps[k - 1];
      var clocks, clocks' := states[k - 1].prStates, states[k].prStates;
      if step.SubmitStep? && Hears(states[k - 1], step, key)
      then TakesTheLater(clocks, clocks', key, StampAt(step), step.input.commit)
      else SameClock(clocks, clocks', key)
    ensures key !in states[k].prStates ==> NoneHeard(states, steps, k, key)
    ensures key in states[k].prStates ==> Latest(states, steps, k, key, m)
  {
    hide Hears, EventStamp;
    m := m0;
    if HeardAt(states, steps, k - 1, key) {
      if !(key in states[k - 1].prStates && AtMost(StampAt(steps[k - 1]), ClockStamp(states[k - 1].prStates[key]))) {
        m := k - 1;
      }
    }
  }

  // Every event heard in one run was heard in the other.
  ghost predicate HeardIn(statesA: seq<State>, stepsA: seq<Step>, statesB: seq<State>, stepsB: seq<Step>, key: PRKey) {
    forall m {:trigger HeardAt(statesA, stepsA, m, key)} :: HeardAt(statesA, stepsA, m, key) ==>
      exists n :: HeardAt(statesB, stepsB, n, key) && stepsB[n].input == stepsA[m].input
  }

  // Events carry their own time, and no two of them the same one.
  ghost predicate Dated(states: seq<State>, steps: seq<Step>, key: PRKey) {
    forall m {:trigger HeardAt(states, steps, m, key)} :: HeardAt(states, steps, m, key) ==>
      steps[m].input.eventTime != 0
  }

  ghost predicate TimesDiffer(states: seq<State>, steps: seq<Step>, key: PRKey) {
    forall m, n {:trigger HeardAt(states, steps, m, key), HeardAt(states, steps, n, key)} ::
      HeardAt(states, steps, m, key) && HeardAt(states, steps, n, key)
        && steps[m].input.eventTime == steps[n].input.eventTime
      ==> steps[m].input == steps[n].input
  }

  // Two runs that hear the same events of a pull request, in whatever order and whatever else happens in
  // between, end with the same clock; and with the same commit if no two events share a time.
  lemma DeliveryOrderIsFree(statesA: seq<State>, stepsA: seq<Step>, statesB: seq<State>, stepsB: seq<Step>, key: PRKey)
    requires Run(statesA, stepsA) && Run(statesB, stepsB)
    requires HeardIn(statesA, stepsA, statesB, stepsB, key) && HeardIn(statesB, stepsB, statesA, stepsA, key)
    requires Dated(statesA, stepsA, key) && Dated(statesB, stepsB, key)
    ensures var a, b := statesA[|stepsA|].prStates, statesB[|stepsB|].prStates;
      && (key in a <==> key in b)
      && (key in a ==> ClockStamp(a[key]) == ClockStamp(b[key]))
      && (key in a && TimesDiffer(statesA, stepsA, key) ==> a[key].commit == b[key].commit)
  {
    hide Run, HeardAt, HeardIn, Latest, Dated, TimesDiffer, EventStamp;
    Lengths(statesA, stepsA);
    Lengths(statesB, stepsB);
    NoLater(statesA, stepsA, statesB, stepsB, key);
    NoLater(statesB, stepsB, statesA, stepsA, key);
    if key in statesA[|stepsA|].prStates && TimesDiffer(statesA, stepsA, key) {
      var n := ClockIsLatest(statesB, stepsB, |stepsB|, key);
      SameCommit(statesA, stepsA, statesB, stepsB, key, n);
    }
  }

  lemma HeardElsewhere(statesA: seq<State>, stepsA: seq<Step>, statesB: seq<State>, stepsB: seq<Step>, key: PRKey,
                       m: int)
    returns (n: int)
    requires HeardIn(statesA, stepsA, statesB, stepsB, key) && HeardAt(statesA, stepsA, m, key)
    ensures HeardAt(statesB, stepsB, n, key) && stepsB[n].input == stepsA[m].input
  {
    hide Hears;
    n :| HeardAt(statesB, stepsB, n, key) && stepsB[n].input == stepsA[m].input;
  }

  // The clock of the first run is not behind that of the second.
  lemma NoLater(statesA: seq<State>, stepsA: seq<Step>, statesB: seq<State>, stepsB: seq<Step>, key: PRKey)
    requires Run(statesA, stepsA) && Run(statesB, stepsB)
    requires HeardIn(statesA, stepsA, statesB, stepsB, key)
    requires Dated(statesA, stepsA, key)
    ensures var a, b := statesA[|stepsA|].prStates, statesB[|stepsB|].prStates;
      key in a ==> key in b && AtMost(ClockStamp(a[key]), ClockStamp(b[key]))
  {
    var m := ClockIsLatest(statesA, stepsA, |stepsA|, key);
    var n := ClockIsLatest(statesB, stepsB, |stepsB|, key);
    hide Run, Hears, HeardIn;
    if key in statesA[|stepsA|].prStates {
      var m' := HeardElsewhere(statesA, stepsA, statesB, stepsB, key, m);
      assert 0 <= m' < |stepsB|;
    }
  }

  lemma SameCommit(statesA: seq<State>, stepsA: seq<Step>, statesB: seq<State>, stepsB: seq<Step>, key: PRKey, n: int)
    requires Run(statesA, stepsA) && |statesB| == |stepsB| + 1
    requires HeardIn(statesB, stepsB, statesA, stepsA, key) && Latest(statesB, stepsB, |stepsB|, key, n)
    requires Dated(statesA, stepsA, key) && TimesDiffer(statesA, stepsA, key)
    requires key in statesA[|stepsA|].prStates
    requires ClockStamp(statesA[|stepsA|].prStates[key]) == ClockStamp(statesB[|stepsB|].prStates[key])
    ensures statesA[|stepsA|].prStates[key].commit == statesB[|stepsB|].prStates[key].commit
  {
    var m := ClockIsLatest(statesA, stepsA, |stepsA|, key);
    hide Run, Hears, HeardIn;
    var n' := HeardElsewhere(statesB, stepsB, statesA, stepsA, key, n);
    assert HeardAt(statesA, stepsA, m, key) && HeardAt(statesA, stepsA, n', key);
  }

  // ---- Deliveries alone ----

  // A request seen for the first time, in order and not refused for capacity, is heard.
  lemma NewEventIsHeard(s: State, step: Step)
    requires step.SubmitStep? && step.input.pr > 0 && WellFormed(step.input)
    requires step.input.requestID !in s.inbox.deliveries && !Overflows(s, step.input)
    ensures Hears(s, step, SubmissionKey(step.input))
  {
    hide WellFormed, Late, Overflows, Repeats, SubmissionKey;
  }

  ghost predicate AllHeard(states: seq<State>, steps: seq<Step>, key: PRKey) {
    forall m {:trigger HeardAt(states, steps, m, key)} :: 0 <= m < |steps| ==> HeardAt(states, steps, m, key)
  }

  function Inputs(steps: seq<Step>): seq<Submission>
    requires forall m :: 0 <= m < |steps| ==> steps[m].SubmitStep?
  {
    seq(|steps|, m requires 0 <= m < |steps| => steps[m].input)
  }

  lemma PermutedIsHeardIn(statesA: seq<State>, stepsA: seq<Step>, statesB: seq<State>, stepsB: seq<Step>, key: PRKey)
    requires AllHeard(statesA, stepsA, key) && AllHeard(statesB, stepsB, key)
    requires (forall m :: 0 <= m < |stepsA| ==> stepsA[m].SubmitStep?)
    requires forall m :: 0 <= m < |stepsB| ==> stepsB[m].SubmitStep?
    requires multiset(Inputs(stepsA)) == multiset(Inputs(stepsB))
    ensures HeardIn(statesA, stepsA, statesB, stepsB, key)
  {
    hide Hears;
    forall m | HeardAt(statesA, stepsA, m, key)
      ensures exists n :: HeardAt(statesB, stepsB, n, key) && stepsB[n].input == stepsA[m].input
    {
      assert Inputs(stepsA)[m] in multiset(Inputs(stepsA));
      assert Inputs(stepsA)[m] in Inputs(stepsB);
      var n :| 0 <= n < |stepsB| && Inputs(stepsB)[n] == stepsA[m].input;
      assert HeardAt(statesB, stepsB, n, key);
    }
  }

  // The same events of a pull request in any two orders of delivery leave the same clock.
  lemma PermutedDeliveries(statesA: seq<State>, stepsA: seq<Step>, statesB: seq<State>, stepsB: seq<Step>, key: PRKey)
    requires Run(statesA, stepsA) && Run(statesB, stepsB)
    requires AllHeard(statesA, stepsA, key) && AllHeard(statesB, stepsB, key)
    requires (forall m :: 0 <= m < |stepsA| ==> stepsA[m].SubmitStep?)
    requires forall m :: 0 <= m < |stepsB| ==> stepsB[m].SubmitStep?
    requires multiset(Inputs(stepsA)) == multiset(Inputs(stepsB))
    requires Dated(statesA, stepsA, key) && Dated(statesB, stepsB, key)
    ensures var a, b := statesA[|stepsA|].prStates, statesB[|stepsB|].prStates;
      && (key in a <==> key in b)
      && (key in a ==> ClockStamp(a[key]) == ClockStamp(b[key]))
      && (key in a && TimesDiffer(statesA, stepsA, key) ==> a[key].commit == b[key].commit)
  {
    hide Run, Dated, TimesDiffer, HeardIn;
    PermutedIsHeardIn(statesA, stepsA, statesB, stepsB, key);
    PermutedIsHeardIn(statesB, stepsB, statesA, stepsA, key);
    DeliveryOrderIsFree(statesA, stepsA, statesB, stepsB, key);
  }
}
