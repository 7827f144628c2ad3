/** When a sequence rule opens a window and when it fires, told from the events and samples alone, and the proof
    that over every history it does exactly that.
  */
module CorrelationProofs {
  import opened Wrappers
  import opened Correlation

  // -- what an event or a sample is ------------------------------------------------------------------

  /** The sensor event the rule waits for: of its sensor, to be believed, and in its direction. */
  predicate IsAsked(t: Trigger, e: Observed) {
    && e.sourceId == t.sensor.sourceId && e.kind == t.sensor.kind && e.quality == Valid
    && e.value.Flag?
    && (t.sensor.edge == Rising ==> e.value.on)
    && (t.sensor.edge == Falling ==> !e.value.on)
  }

  predicate Elsewhere(t: Trigger, e: Observed, cameraZone: Option<string>) {
    t.sameZone && e.zone.Some? && cameraZone.Some? && e.zone.value != cameraZone.value
  }

  predicate Present(r: Rule, step: Step) {
    step.See? && step.count >= r.trigger.vision.minCount
  }

  predicate Absent(r: Rule, step: Step) {
    step.See? && step.count < r.trigger.vision.minCount
  }

  /** A sample that confirms a window opened at `since`: received after it and not after its end. */
  predicate Confirming(r: Rule, since: real, step: Step) {
    Present(r, step) && since < step.captured <= since + r.trigger.within
  }

  /** Nothing that ends a window opened at `since`. */
  predicate Calm(r: Rule, since: real, step: Step) {
    match step
    case Hear(e, _) =>
      e.sourceId == r.trigger.sensor.sourceId && e.kind == r.trigger.sensor.kind ==>
        e.received <= since + r.trigger.within && e.quality == Valid
    case See(_, captured) => captured <= since + r.trigger.within
    case Tick(now) => now <= since + r.trigger.within
    case Pause => false
    case Gap => false
  }

  /** How many samples in a row, up to the last, confirm it. */
  function InARow(r: Rule, since: real, steps: seq<Step>): nat
    decreases steps
  {
    if steps == [] then 0
    else
      var before, last := InARow(r, since, steps[..|steps| - 1]), steps[|steps| - 1];
      if !last.See? then before else if Confirming(r, since, last) then before + 1 else 0
  }

  /** The same, for the window that the event at step `o` would open. */
  function InARowSince(r: Rule, steps: seq<Step>, o: nat, i: nat): nat
    requires o < i <= |steps| && steps[o].Hear?
  {
    InARow(r, steps[o].event.received, steps[o + 1..i])
  }

  // -- the object out of sight --------------------------------------------------------------------------

  predicate Breaks(r: Rule, step: Step) {
    step.Gap? || Present(r, step)
  }

  /** Before step `i` the object has been out of sight since step `a`: a sample without it, the first such, and
      since then neither a sample with it nor a gap. */
  ghost predicate AwaySince(r: Rule, steps: seq<Step>, a: nat, i: nat): (away: bool)
    ensures away ==> a < i <= |steps| && steps[a].See?
  {
    && a < i <= |steps| && Absent(r, steps[a])
    && (forall j | a <= j < i :: !Breaks(r, steps[j]))
    && (forall b | 0 <= b < a && Absent(r, steps[b]) :: exists c | b < c < a :: Breaks(r, steps[c]))
  }

  /** The samples from step `a` to step `b` saw it out of sight for at least the rearming time. */
  ghost predicate LeftFor(r: Rule, steps: seq<Step>, a: nat, b: nat) {
    && AwaySince(r, steps, a, b + 1) && Absent(r, steps[b])
    && steps[b].captured - steps[a].captured >= r.trigger.vision.rearmAfter
  }

  // -- what opens and what fires --------------------------------------------------------------------------

  /** The window opened at step `o` is still there before step `i`. */
  ghost predicate WindowAt(r: Rule, steps: seq<Step>, o: nat, i: nat): (window: bool)
    requires o < i <= |steps|
    ensures window ==> steps[o].Hear?
    decreases i, 0
  {
    && OpensAt(r, steps, o)
    && (forall j | o < j < i :: Calm(r, steps[o].event.received, steps[j]))
    && (forall j | o < j <= i :: InARowSince(r, steps, o, j) < r.trigger.vision.consecutive)
  }

  /** The rule has fired, and the object has not really left since. */
  ghost predicate LatchedAt(r: Rule, steps: seq<Step>, i: nat)
    requires i <= |steps|
    decreases i, 0
  {
    exists k | 0 <= k < i :: FiresAt(r, steps, k) && forall a, b | k < a <= b < i :: !LeftFor(r, steps, a, b)
  }

  /** A window opens exactly at the sensor event asked for, in the camera's zone, later than every opening before
      it, when no window is there that has not run out, and the object confirmed last has left. */
  ghost predicate OpensAt(r: Rule, steps: seq<Step>, i: nat): (opens: bool)
    requires i < |steps|
    ensures opens ==> steps[i].Hear?
    decreases i, 2
  {
    && steps[i].Hear?
    && IsAsked(r.trigger, steps[i].event) && !Elsewhere(r.trigger, steps[i].event, steps[i].cameraZone)
    && (forall p | 0 <= p < i && OpensAt(r, steps, p) :: steps[p].event.received < steps[i].event.received)
    && (forall o | 0 <= o < i && WindowAt(r, steps, o, i) :: steps[o].event.received + r.trigger.within < steps[i].event.received)
    && !LatchedAt(r, steps, i)
  }

  ghost predicate LastFired(r: Rule, steps: seq<Step>, k: nat, i: nat)
    requires k < i <= |steps|
    decreases i, 0
  {
    FiresAt(r, steps, k) && forall j | k < j < i :: !FiresAt(r, steps, j)
  }

  /** The sample at step `i` completes the samples in a row that confirm the window opened at step `o`. */
  ghost predicate Completes(r: Rule, steps: seq<Step>, o: nat, i: nat)
    requires o < i < |steps|
    decreases i, 1
  {
    && WindowAt(r, steps, o, i) && Confirming(r, steps[o].event.received, steps[i])
    && InARowSince(r, steps, o, i + 1) == r.trigger.vision.consecutive
  }

  /** The rule fires exactly at the sample that completes the samples in a row of a window still there, when the
      last time is long enough ago. */
  ghost predicate FiresAt(r: Rule, steps: seq<Step>, i: nat): (fires: bool)
    requires i < |steps|
    ensures fires ==> steps[i].See?
    decreases i, 2
  {
    && steps[i].See?
    && (exists o | 0 <= o < i :: Completes(r, steps, o, i))
    && (forall k | 0 <= k < i && LastFired(r, steps, k, i) :: steps[i].captured - steps[k].captured >= r.cooldown)
  }

  // -- one step ---------------------------------------------------------------------------------------------

  lemma OpensExactly(r: Rule, s: State, step: Step)
    ensures Opens(r, s, step) <==>
              && step.Hear? && IsAsked(r.trigger, step.event) && !Elsewhere(r.trigger, step.event, step.cameraZone)
              && (s.openedUntil.Some? ==> s.openedUntil.value < step.event.received)
              && (s.candidate.Some? ==> s.candidate.value.deadline < step.event.received)
              && !s.latched
  {
  }

  lemma LatchExactly(r: Rule, s: State, step: Step)
    ensures var since := if s.absentSince.None? && step.See? then Some(step.captured) else s.absentSince;
            Apply(r, s, step).0.latched <==>
              || Fires(r, s, step)
              || (s.latched && !(Absent(r, step) && step.captured - since.value >= r.trigger.vision.rearmAfter))
    ensures Apply(r, s, step).0.lastTrigger == if Fires(r, s, step) then Some(step.captured) else s.lastTrigger
    ensures Fires(r, s, step) ==> Present(r, step)
  {
    hide SensorFires, OtherZone;
  }

  lemma OpenedUntilExactly(r: Rule, s: State, step: Step)
    ensures Apply(r, s, step).0.openedUntil == if Opens(r, s, step) then Some(step.event.received) else s.openedUntil
  {
    hide SensorFires, OtherZone, Cooled;
  }

  lemma AbsenceExactly(r: Rule, s: State, step: Step)
    ensures Apply(r, s, step).0.absentSince ==
              if Breaks(r, step) then None
              else if Absent(r, step) && s.absentSince.None? then Some(step.captured) else s.absentSince
  {
    hide SensorFires, OtherZone, Cooled;
  }

  // -- what the state remembers --------------------------------------------------------------------------------

  ghost predicate AbsenceTold(r: Rule, steps: seq<Step>, since: Option<real>, i: nat)
    requires i <= |steps|
  {
    && (since.None? ==> forall b | 0 <= b < i && Absent(r, steps[b]) :: exists c | b < c < i :: Breaks(r, steps[c]))
    && (since.Some? ==> exists a: nat :: AwaySince(r, steps, a, i) && steps[a].captured == since.value)
  }

  lemma {:induction false} AbsenceIsTold(r: Rule, states: seq<State>, steps: seq<Step>, i: nat)
    requires IsRun(r, states, steps) && i <= |steps|
    ensures AbsenceTold(r, steps, states[i].absentSince, i)
    decreases i
  {
    hide Apply, Absent, Breaks;
    if i > 0 {
      AbsenceIsTold(r, states, steps, i - 1);
      AbsenceExactly(r, states[i - 1], steps[i - 1]);
      var since, after := states[i - 1].absentSince, states[i].absentSince;
      if Breaks(r, steps[i - 1]) {
        BreaksAreNotAbsent(r, steps[i - 1]);
      } else if since.Some? {
        var a: nat :| AwaySince(r, steps, a, i - 1) && steps[a].captured == since.value;
        assert AwaySince(r, steps, a, i);
      } else if Absent(r, steps[i - 1]) {
        assert AwaySince(r, steps, i - 1, i);
      }
    }
  }

  lemma BreaksAreNotAbsent(r: Rule, step: Step)
    ensures Breaks(r, step) ==> !Absent(r, step)
  {
  }

  lemma AwayIsKnown(r: Rule, steps: seq<Step>, since: Option<real>, a: nat, i: nat)
    requires i <= |steps| && AbsenceTold(r, steps, since, i) && AwaySince(r, steps, a, i)
    ensures since == Some(steps[a].captured)
  {
    hide Absent, Breaks;
    if since.Some? {
      var b: nat :| AwaySince(r, steps, b, i) && steps[b].captured == since.value;
    }
  }

  ghost predicate Latching(r: Rule, states: seq<State>, steps: seq<Step>, k: nat, i: nat)
    requires |states| == |steps| + 1 && k < i <= |steps|
  {
    Fires(r, states[k], steps[k]) && forall a, b | k < a <= b < i :: !LeftFor(r, steps, a, b)
  }

  /** What one more step does to a latch, told from the absence. */
  lemma LatchGoesOn(r: Rule, states: seq<State>, steps: seq<Step>, i: nat)
    requires IsRun(r, states, steps) && i < |steps|
    ensures states[i + 1].latched <==>
              Fires(r, states[i], steps[i]) || (states[i].latched && forall a | 0 <= a <= i :: !LeftFor(r, steps, a, i))
  {
    hide Apply, Fires, Breaks;
    LatchExactly(r, states[i], steps[i]);
    AbsenceExactly(r, states[i], steps[i]);
    AbsenceIsTold(r, states, steps, i + 1);
    var since := states[i + 1].absentSince;
    forall a | 0 <= a <= i && LeftFor(r, steps, a, i) ensures since == Some(steps[a].captured) {
      AwayIsKnown(r, steps, since, a, i + 1);
    }
    if Absent(r, steps[i]) {
      BreaksAreNotAbsent(r, steps[i]);
      assert states[i + 1].absentSince.Some?;
      var a: nat :| AwaySince(r, steps, a, i + 1) && steps[a].captured == since.value;
      assert a <= i && (LeftFor(r, steps, a, i) <==> steps[i].captured - since.value >= r.trigger.vision.rearmAfter);
    }
  }

  lemma {:induction false} LatchIsTold(r: Rule, states: seq<State>, steps: seq<Step>, i: nat)
    requires IsRun(r, states, steps) && i <= |steps|
    ensures states[i].latched <==> exists k | 0 <= k < i :: Latching(r, states, steps, k, i)
    decreases i
  {
    hide Apply, Fires, LeftFor;
    if i > 0 {
      LatchIsTold(r, states, steps, i - 1);
      LatchGoesOn(r, states, steps, i - 1);
      if Fires(r, states[i - 1], steps[i - 1]) {
        assert Latching(r, states, steps, i - 1, i);
      } else if states[i].latched {
        var k :| 0 <= k < i - 1 && Latching(r, states, steps, k, i - 1);
        assert Latching(r, states, steps, k, i);
      } else {
        forall k | 0 <= k < i ensures !Latching(r, states, steps, k, i) {
          if k < i - 1 && Latching(r, states, steps, k, i) {
            assert Latching(r, states, steps, k, i - 1);
            var a :| 0 <= a <= i - 1 && LeftFor(r, steps, a, i - 1);
            FiredBefore(r, states, steps, k, a, i - 1);
          }
        }
      }
    }
  }

  /** An absence after which a latch is off began after the rule fired. */
  lemma FiredBefore(r: Rule, states: seq<State>, steps: seq<Step>, k: nat, a: nat, b: nat)
    requires IsRun(r, states, steps) && k < b < |steps| && Fires(r, states[k], steps[k]) && LeftFor(r, steps, a, b)
    ensures k < a <= b
  {
    hide Apply, Fires;
    LatchExactly(r, states[k], steps[k]);
    assert Breaks(r, steps[k]);
  }

  lemma {:induction false} LastTriggerIsTold(r: Rule, states: seq<State>, steps: seq<Step>, i: nat)
    requires IsRun(r, states, steps) && i <= |steps|
    ensures states[i].lastTrigger.None? ==> forall k | 0 <= k < i :: !Fires(r, states[k], steps[k])
    ensures states[i].lastTrigger.Some? ==>
              exists k | 0 <= k < i :: && Fires(r, states[k], steps[k]) && steps[k].See? && steps[k].captured == states[i].lastTrigger.value
                                       && forall j | k < j < i :: !Fires(r, states[j], steps[j])
    decreases i
  {
    hide Apply, Fires;
    if i > 0 {
      LastTriggerIsTold(r, states, steps, i - 1);
      LatchExactly(r, states[i - 1], steps[i - 1]);
    }
  }

  lemma {:induction false} OpenedUntilIsTold(r: Rule, states: seq<State>, steps: seq<Step>, i: nat)
    requires IsRun(r, states, steps) && i <= |steps|
    ensures forall p | 0 <= p < i && Opens(r, states[p], steps[p]) ::
              steps[p].Hear? && states[i].openedUntil.Some? && steps[p].event.received <= states[i].openedUntil.value
    ensures states[i].openedUntil.Some? ==>
              exists p | 0 <= p < i :: Opens(r, states[p], steps[p]) && steps[p].Hear? && steps[p].event.received == states[i].openedUntil.value
    decreases i
  {
    hide Apply, Opens;
    if i > 0 {
      OpenedUntilIsTold(r, states, steps, i - 1);
      OpensExactly(r, states[i - 1], steps[i - 1]);
      OpenedUntilExactly(r, states[i - 1], steps[i - 1]);
    }
  }

  // -- windows -----------------------------------------------------------------------------------------------------

  lemma {:induction false} HitsAreInARow(r: Rule, steps: seq<Step>, o: nat, i: nat)
    requires o < i <= |steps| && steps[o].Hear?
    ensures HitsAt(r, steps, o, i) == InARowSince(r, steps, o, i)
    decreases i
  {
    hide Samples, Trailing, HitsAt;
    if i == o + 1 {
      HitsStart(r, steps, o);
    } else {
      HitsAreInARow(r, steps, o, i - 1);
      HitsFront(r, steps, o, i - 1);
      assert steps[o + 1..i][..i - o - 2] == steps[o + 1..i - 1];
    }
  }

  lemma CalmIsUndisturbed(r: Rule, e: Observed, step: Step)
    ensures Undisturbed(r, CandidateOf(r.trigger, e), step) <==> Calm(r, e.received, step)
    ensures Counts(r, CandidateOf(r.trigger, e), step) <==> Confirming(r, e.received, step)
  {
  }

  lemma SameWindow(r: Rule, states: seq<State>, steps: seq<Step>, o: nat, i: nat)
    requires IsRun(r, states, steps) && o < i <= |steps|
    requires Opens(r, states[o], steps[o]) <==> OpensAt(r, steps, o)
    ensures OpenSince(r, states, steps, o, i) <==> WindowAt(r, steps, o, i)
  {
    hide Apply, Opens, OpensAt, HitsAt, InARowSince, Undisturbed, Calm;
    if steps[o].Hear? {
      forall j | o < j <= i ensures HitsAt(r, steps, o, j) == InARowSince(r, steps, o, j) {
        HitsAreInARow(r, steps, o, j);
      }
      forall j | o < j < i
        ensures Undisturbed(r, CandidateOf(r.trigger, steps[o].event), steps[j]) <==> Calm(r, steps[o].event.received, steps[j])
      {
        CalmIsUndisturbed(r, steps[o].event, steps[j]);
      }
    }
  }

  // -- exactly this ---------------------------------------------------------------------------------------------------

  /** In every history, whatever comes in whatever order: a window opens, and the rule fires, exactly at the steps
      the events and samples say; and it is latched exactly while it has fired and the object has not left. */
  lemma {:induction false} TheRuleDoesExactlyThis(r: Rule, states: seq<State>, steps: seq<Step>, i: nat)
    requires IsRun(r, states, steps) && i <= |steps| && r.trigger.vision.consecutive >= 1
    ensures states[i].latched <==> LatchedAt(r, steps, i)
    ensures i < |steps| ==> (Opens(r, states[i], steps[i]) <==> OpensAt(r, steps, i))
    ensures i < |steps| ==> (Fires(r, states[i], steps[i]) <==> FiresAt(r, steps, i))
    decreases i
  {
    hide Apply, Opens, Fires, OpensAt, FiresAt, WindowAt, OpenSince, LeftFor;
    forall k | 0 <= k < i
      ensures Opens(r, states[k], steps[k]) <==> OpensAt(r, steps, k)
      ensures Fires(r, states[k], steps[k]) <==> FiresAt(r, steps, k)
    {
      TheRuleDoesExactlyThis(r, states, steps, k);
    }
    LatchToldByFirings(r, states, steps, i);
    if i < |steps| {
      forall o | 0 <= o < i ensures OpenSince(r, states, steps, o, i) <==> WindowAt(r, steps, o, i) {
        SameWindow(r, states, steps, o, i);
      }
      OpensAsTold(r, states, steps, i);
      FiresAsTold(r, states, steps, i);
    }
  }

  lemma LatchToldByFirings(r: Rule, states: seq<State>, steps: seq<Step>, i: nat)
    requires IsRun(r, states, steps) && i <= |steps|
    requires forall k | 0 <= k < i :: Fires(r, states[k], steps[k]) <==> FiresAt(r, steps, k)
    ensures states[i].latched <==> LatchedAt(r, steps, i)
  {
    hide Apply, Fires, FiresAt, LeftFor;
    LatchIsTold(r, states, steps, i);
    if states[i].latched {
      var k :| 0 <= k < i && Latching(r, states, steps, k, i);
      assert FiresAt(r, steps, k);
    }
    if LatchedAt(r, steps, i) {
      var k :| 0 <= k < i && FiresAt(r, steps, k) && forall a, b | k < a <= b < i :: !LeftFor(r, steps, a, b);
      assert Latching(r, states, steps, k, i);
    }
  }

  lemma OpensAsTold(r: Rule, states: seq<State>, steps: seq<Step>, i: nat)
    requires IsRun(r, states, steps) && i < |steps| && r.trigger.vision.consecutive >= 1
    requires forall k | 0 <= k < i :: Opens(r, states[k], steps[k]) <==> OpensAt(r, steps, k)
    requires forall o | 0 <= o < i :: OpenSince(r, states, steps, o, i) <==> WindowAt(r, steps, o, i)
    requires states[i].latched <==> LatchedAt(r, steps, i)
    ensures Opens(r, states[i], steps[i]) <==> OpensAt(r, steps, i)
  {
    hide Apply, Opens, WindowAt, OpenSince, LatchedAt, IsAsked, Elsewhere;
    OpensExactly(r, states[i], steps[i]);
    OpenedUntilIsTold(r, states, steps, i);
    forall o | 0 <= o < i && WindowAt(r, steps, o, i)
      ensures steps[o].Hear? && states[i].candidate.Some?
              && states[i].candidate.value.deadline == steps[o].event.received + r.trigger.within
    {
      OpenSinceMeans(r, states, steps, o, i);
      WindowIsTheCandidate(r, states, steps, o, i);
    }
    if states[i].candidate.Some? {
      var o := CandidateHasAWindow(r, states, steps, i);
      OpenSinceMeans(r, states, steps, o, i);
      assert WindowAt(r, steps, o, i);
    }
  }

  lemma ConfirmsIsCompletes(r: Rule, states: seq<State>, steps: seq<Step>, o: nat, i: nat)
    requires IsRun(r, states, steps) && o < i < |steps|
    requires OpenSince(r, states, steps, o, i) <==> WindowAt(r, steps, o, i)
    ensures Confirms(r, states, steps, o, i) <==> Completes(r, steps, o, i)
  {
    hide WindowAt, OpenSince, HitsAt, InARowSince, Counts, Confirming, Opens;
    if OpenSince(r, states, steps, o, i) {
      OpenSinceMeans(r, states, steps, o, i);
      HitsAreInARow(r, steps, o, i + 1);
      CalmIsUndisturbed(r, steps[o].event, steps[i]);
    }
  }

  lemma ConfirmsIsEarlier(r: Rule, states: seq<State>, steps: seq<Step>, o: nat, i: nat)
    requires |states| == |steps| + 1 && Confirms(r, states, steps, o, i)
    ensures o < i < |steps| && steps[i].See?
  {
    OpenSinceMeans(r, states, steps, o, i);
  }

  lemma FiresAsTold(r: Rule, states: seq<State>, steps: seq<Step>, i: nat)
    requires IsRun(r, states, steps) && i < |steps| && r.trigger.vision.consecutive >= 1
    requires forall k | 0 <= k < i :: Fires(r, states[k], steps[k]) <==> FiresAt(r, steps, k)
    requires forall o | 0 <= o < i :: OpenSince(r, states, steps, o, i) <==> WindowAt(r, steps, o, i)
    ensures Fires(r, states[i], steps[i]) <==> FiresAt(r, steps, i)
  {
    hide Apply, Fires, WindowAt, OpenSince, HitsAt, InARowSince, Confirms, Cooled, LastFired, Opens, Completes;
    FiresExactlyWhenConfirmed(r, states, steps, i);
    forall o: nat | o < i ensures Confirms(r, states, steps, o, i) <==> Completes(r, steps, o, i) {
      ConfirmsIsCompletes(r, states, steps, o, i);
    }
    forall o: nat | Confirms(r, states, steps, o, i) ensures o < i < |steps| && steps[i].See? {
      ConfirmsIsEarlier(r, states, steps, o, i);
    }
    if steps[i].See? {
      CooledAsTold(r, states, steps, i);
    }
  }

  lemma CooledAsTold(r: Rule, states: seq<State>, steps: seq<Step>, i: nat)
    requires IsRun(r, states, steps) && i < |steps| && steps[i].See?
    requires forall k | 0 <= k < i :: Fires(r, states[k], steps[k]) <==> FiresAt(r, steps, k)
    ensures Cooled(states[i], r.cooldown, steps[i].captured) <==>
              forall k | 0 <= k < i && LastFired(r, steps, k, i) :: steps[i].captured - steps[k].captured >= r.cooldown
  {
    hide Apply, Fires, FiresAt;
    LastTriggerIsTold(r, states, steps, i);
    if states[i].lastTrigger.Some? {
      var k :| 0 <= k < i && Fires(r, states[k], steps[k]) && steps[k].See? && steps[k].captured == states[i].lastTrigger.value
        && forall j | k < j < i :: !Fires(r, states[j], steps[j]);
      assert LastFired(r, steps, k, i);
      forall m | 0 <= m < i && LastFired(r, steps, m, i) ensures m == k {
      }
    }
  }

  /** Samples come in the order they were received, which is how the engine hands them on. */
  ghost predicate InOrder(steps: seq<Step>) {
    forall i, j | 0 <= i < j < |steps| && steps[i].See? && steps[j].See? :: steps[i].captured <= steps[j].captured
  }

  /** Then any unbroken absence of the rearming time is part of one that began no later, so the object has left. */
  lemma {:induction false} AnyAbsenceWillDo(r: Rule, steps: seq<Step>, a: nat, b: nat) returns (first: nat)
    requires a <= b < |steps| && OutOfSight(r, steps, a, b) && InOrder(steps)
    requires steps[b].captured - steps[a].captured >= r.trigger.vision.rearmAfter
    ensures first <= a && LeftFor(r, steps, first, b)
    decreases a
  {
    if c :| 0 <= c < a && Absent(r, steps[c]) && forall j | c < j < a :: !Breaks(r, steps[j]) {
      first := AnyAbsenceWillDo(r, steps, c, b);
    } else {
      first := a;
    }
  }

  // -- what is said of it ------------------------------------------------------------------------------------------

  /** The step comes after the end of a window opened at `since`. */
  predicate RunsOut(r: Rule, since: real, step: Step) {
    match step
    case Hear(e, _) =>
      e.sourceId == r.trigger.sensor.sourceId && e.kind == r.trigger.sensor.kind && e.received > since + r.trigger.within
    case See(_, captured) => captured > since + r.trigger.within
    case Tick(now) => now > since + r.trigger.within
    case _ => false
  }

  /** Nothing can be relied on that was seen or heard: a pause, a gap in the samples, or doubt about the sensor. */
  predicate CastsDoubt(r: Rule, step: Step) {
    || step.Pause? || step.Gap?
    || (step.Hear? && step.event.sourceId == r.trigger.sensor.sourceId && step.event.kind == r.trigger.sensor.kind
        && step.event.quality != Valid)
  }

  /** The sensor event asked for, later than every opening, when no window is there that has not run out. */
  ghost predicate FindsNoWindow(r: Rule, steps: seq<Step>, i: nat)
    requires i < |steps|
  {
    && steps[i].Hear? && IsAsked(r.trigger, steps[i].event)
    && (forall p | 0 <= p < i && OpensAt(r, steps, p) :: steps[p].event.received < steps[i].event.received)
    && (forall o | 0 <= o < i && WindowAt(r, steps, o, i) :: steps[o].event.received + r.trigger.within < steps[i].event.received)
  }

  /** What a step says, told by the window there is, whether the rule is latched and has cooled. */
  lemma NotesExactly(r: Rule, s: State, step: Step)
    requires Sound(r, s) && r.trigger.vision.consecutive >= 1
    ensures var (notes, c) := (Apply(r, s, step).1, s.candidate);
            var since := if s.absentSince.None? && step.See? then Some(step.captured) else s.absentSince;
            && (Expired in notes <==> c.Some? && RunsOut(r, c.value.openedAt, step))
            && (Cancelled in notes <==> c.Some? && !RunsOut(r, c.value.openedAt, step) && CastsDoubt(r, step))
            && (Detected in notes <==> c.Some? && Confirming(r, c.value.openedAt, step) && s.hits == 0)
            && (Cooling in notes <==> c.Some? && Confirming(r, c.value.openedAt, step)
                                      && s.hits + 1 == r.trigger.vision.consecutive && !Fires(r, s, step))
            && (Rearmed in notes <==> s.latched && Absent(r, step) && step.captured - since.value >= r.trigger.vision.rearmAfter)
  {
    hide SensorFires, OtherZone, Cooled;
  }

  lemma WhyNoneOpens(r: Rule, s: State, step: Step)
    ensures var notes := Apply(r, s, step).1;
            var asked := && step.Hear? && IsAsked(r.trigger, step.event)
                         && (s.openedUntil.Some? ==> s.openedUntil.value < step.event.received)
                         && (s.candidate.Some? ==> s.candidate.value.deadline < step.event.received);
            && (WrongZone in notes <==> asked && Elsewhere(r.trigger, step.event, step.cameraZone))
            && (StillThere in notes <==> asked && !Elsewhere(r.trigger, step.event, step.cameraZone) && s.latched)
  {
  }

  /** The window there is before a step, and how many samples in a row confirm it. */
  lemma TheWindowIsTold(r: Rule, states: seq<State>, steps: seq<Step>, i: nat)
    requires IsRun(r, states, steps) && i <= |steps| && r.trigger.vision.consecutive >= 1
    ensures states[i].candidate.Some? <==> exists o: nat | o < i :: WindowAt(r, steps, o, i)
    ensures forall o: nat | o < i && WindowAt(r, steps, o, i) ::
              && states[i].candidate == Some(Candidate(steps[o].event.received, steps[o].event.received + r.trigger.within,
                                                       steps[o].event.eventId, steps[o].event.zone))
              && states[i].hits == InARowSince(r, steps, o, i)
  {
    hide Apply, Opens, Fires, OpensAt, WindowAt, OpenSince, InARowSince, HitsAt, FiresAt;
    forall o: nat | o < i
      ensures OpenSince(r, states, steps, o, i) <==> WindowAt(r, steps, o, i)
    {
      TheRuleDoesExactlyThis(r, states, steps, o);
      SameWindow(r, states, steps, o, i);
    }
    forall o: nat | o < i && WindowAt(r, steps, o, i)
      ensures states[i].candidate == Some(CandidateOf(r.trigger, steps[o].event)) && states[i].hits == InARowSince(r, steps, o, i)
    {
      WindowIsTheCandidate(r, states, steps, o, i);
      HitsAreInARow(r, steps, o, i);
    }
    if states[i].candidate.Some? {
      var o := CandidateHasAWindow(r, states, steps, i);
      OpenSinceMeans(r, states, steps, o, i);
      assert WindowAt(r, steps, o, i);
    }
  }

  /** In every history, everything a step says of a window or of the object is told by the events and samples: that the
      window ran out, or was dropped; that its first sample in a row was seen; that it was confirmed too soon after the
      last time; and that the object has left. */
  lemma WhatIsSaidOfAWindow(r: Rule, states: seq<State>, steps: seq<Step>, i: nat)
    requires IsRun(r, states, steps) && i < |steps| && r.trigger.vision.consecutive >= 1
    ensures var notes := Apply(r, states[i], steps[i]).1;
            && (Expired in notes <==> exists o: nat | o < i :: WindowAt(r, steps, o, i) && RunsOut(r, steps[o].event.received, steps[i]))
            && (Cancelled in notes <==>
                  exists o: nat | o < i :: WindowAt(r, steps, o, i) && !RunsOut(r, steps[o].event.received, steps[i]) && CastsDoubt(r, steps[i]))
            && (Detected in notes <==>
                  exists o: nat | o < i :: WindowAt(r, steps, o, i) && Confirming(r, steps[o].event.received, steps[i])
                                           && InARowSince(r, steps, o, i) == 0)
            && (Cooling in notes <==>
                  && !FiresAt(r, steps, i)
                  && exists o: nat | o < i :: WindowAt(r, steps, o, i) && Confirming(r, steps[o].event.received, steps[i])
                                              && InARowSince(r, steps, o, i) + 1 == r.trigger.vision.consecutive)
            && (Rearmed in notes <==> LatchedAt(r, steps, i) && exists a | 0 <= a <= i :: LeftFor(r, steps, a, i))
  {
    hide Apply, Opens, OpensAt, WindowAt, InARowSince, Fires, FiresAt, LeftFor, RunsOut, CastsDoubt, Confirming;
    LatchedHoldsNoCandidate(r, states, steps, i);
    NotesExactly(r, states[i], steps[i]);
    TheWindowIsTold(r, states, steps, i);
    TheRuleDoesExactlyThis(r, states, steps, i);
    WhenItLeft(r, states, steps, i);
  }

  lemma WhenItLeft(r: Rule, states: seq<State>, steps: seq<Step>, i: nat)
    requires IsRun(r, states, steps) && i < |steps|
    ensures var s := states[i];
            var since := if s.absentSince.None? && steps[i].See? then Some(steps[i].captured) else s.absentSince;
            (exists a | 0 <= a <= i :: LeftFor(r, steps, a, i)) <==>
              Absent(r, steps[i]) && steps[i].captured - since.value >= r.trigger.vision.rearmAfter
  {
    hide Apply, Breaks;
    AbsenceExactly(r, states[i], steps[i]);
    AbsenceIsTold(r, states, steps, i + 1);
    forall a | 0 <= a <= i && LeftFor(r, steps, a, i) ensures states[i + 1].absentSince == Some(steps[a].captured) {
      AwayIsKnown(r, steps, states[i + 1].absentSince, a, i + 1);
      BreaksAreNotAbsent(r, steps[i]);
    }
    if Absent(r, steps[i]) {
      BreaksAreNotAbsent(r, steps[i]);
      var a: nat :| AwaySince(r, steps, a, i + 1) && steps[a].captured == states[i + 1].absentSince.value;
      assert a <= i && (LeftFor(r, steps, a, i) <==> steps[i].captured - steps[a].captured >= r.trigger.vision.rearmAfter);
    }
  }

  /** And of an event that finds no window, that it opens one, or why it does not: it is in another zone, or the object
      confirmed last has not left. */
  lemma WhatIsSaidOfAnEvent(r: Rule, states: seq<State>, steps: seq<Step>, i: nat)
    requires IsRun(r, states, steps) && i < |steps| && r.trigger.vision.consecutive >= 1
    ensures var notes := Apply(r, states[i], steps[i]).1;
            && (Waiting in notes <==> OpensAt(r, steps, i))
            && (Triggered in notes <==> FiresAt(r, steps, i))
            && (WrongZone in notes <==> FindsNoWindow(r, steps, i) && Elsewhere(r.trigger, steps[i].event, steps[i].cameraZone))
            && (StillThere in notes <==> FindsNoWindow(r, steps, i) && !Elsewhere(r.trigger, steps[i].event, steps[i].cameraZone)
                                         && LatchedAt(r, steps, i))
  {
    hide Apply, OpensAt, WindowAt, InARowSince, FiresAt, IsAsked, Elsewhere, LatchedAt;
    TheRuleDoesExactlyThis(r, states, steps, i);
    WhyNoneOpens(r, states[i], steps[i]);
    TheWindowIsTold(r, states, steps, i);
    OpenedUntilIsTold(r, states, steps, i);
    forall p | 0 <= p < i ensures Opens(r, states[p], steps[p]) <==> OpensAt(r, steps, p) {
      TheRuleDoesExactlyThis(r, states, steps, p);
    }
    hide Opens;
  }
}
