/** A sensor event confirmed by a camera: the one correlation a rule can ask for.

    Each step of the rule is a function from state to state and notes, and a method on the
    rule's state that does the same in place. Times are real numbers, minus infinity is `None`.
  */
module Correlation {
  import opened Wrappers

  datatype Edge = Rising | Falling | Either

  datatype Quality = Valid | Doubtful

  datatype Value = Flag(on: bool) | Other

  datatype Sensor = Sensor(sourceId: string, kind: string, edge: Edge)

  datatype Vision = Vision(minCount: nat, consecutive: nat, rearmAfter: real)

  datatype Trigger = Trigger(sensor: Sensor, vision: Vision, within: real, sameZone: bool)

  datatype Observed = Observed(
    sourceId: string,
    kind: string,
    value: Value,
    quality: Quality,
    received: real,
    eventId: string,
    zone: Option<string>)

  datatype Candidate = Candidate(openedAt: real, deadline: real, eventId: string, zone: Option<string>)

  datatype State = State(
    hits: nat,
    latched: bool,
    absentSince: Option<real>,
    lastTrigger: Option<real>,
    candidate: Option<Candidate>,
    openedUntil: Option<real>)

  datatype Note =
    | Expired
    | Cancelled
    | WrongZone
    | StillThere
    | Waiting
    | Rearmed
    | Detected
    | Cooling
    | Triggered

  function Start(): State {
    State(0, false, None, None, None, None)
  }

  predicate IsFor(sensor: Sensor, e: Observed) {
    e.sourceId == sensor.sourceId && e.kind == sensor.kind
  }

  predicate SensorFires(sensor: Sensor, e: Observed) {
    && IsFor(sensor, e) && e.quality == Valid && e.value.Flag?
    && match sensor.edge
       case Rising => e.value.on
       case Falling => !e.value.on
       case Either => true
  }

  predicate Cooled(s: State, cooldown: real, now: real) {
    s.lastTrigger.None? || now - s.lastTrigger.value >= cooldown
  }

  // -- one step of the rule --------------------------------------------------------------------

  function Expire(s: State, now: real): (State, seq<Note>) {
    if s.candidate.None? || now <= s.candidate.value.deadline then (s, [])
    else (s.(candidate := None, hits := 0), [Expired])
  }

  function Drop(s: State): (State, seq<Note>) {
    if s.candidate.None? then (s, []) else (s.(candidate := None, hits := 0), [Cancelled])
  }

  predicate OtherZone(t: Trigger, e: Observed, cameraZone: Option<string>) {
    t.sameZone && e.zone.Some? && cameraZone.Some? && e.zone != cameraZone
  }

  function CandidateOf(t: Trigger, e: Observed): Candidate {
    Candidate(e.received, e.received + t.within, e.eventId, e.zone)
  }

  function OnEvent(t: Trigger, s: State, e: Observed, cameraZone: Option<string>): (State, seq<Note>) {
    if !IsFor(t.sensor, e) then (s, [])
    else
      var (s, notes) := Expire(s, e.received);
      if e.quality != Valid then var (dropped, more) := Drop(s); (dropped, notes + more)
      else if !SensorFires(t.sensor, e) then (s, notes)
      else if s.openedUntil.Some? && e.received <= s.openedUntil.value then (s, notes)
      else if s.candidate.Some? then (s, notes)
      else if OtherZone(t, e, cameraZone) then (s, notes + [WrongZone])
      else if s.latched then (s, notes + [StillThere])
      else (s.(candidate := Some(CandidateOf(t, e)), openedUntil := Some(e.received), hits := 0), notes + [Waiting])
  }

  /** A sample without enough objects in it. */
  function OnAbsence(t: Trigger, s: State, captured: real): (State, seq<Note>) {
    var since := if s.absentSince.None? then captured else s.absentSince.value;
    var s := s.(hits := 0, absentSince := Some(since));
    if s.latched && captured - since >= t.vision.rearmAfter then (s.(latched := false), [Rearmed]) else (s, [])
  }

  /** A sample with enough objects in it. */
  function OnPresence(t: Trigger, s: State, captured: real, cooldown: real): (State, seq<Note>) {
    var s := s.(absentSince := None);
    if s.latched || s.candidate.None? || captured <= s.candidate.value.openedAt then (s.(hits := 0), [])
    else
      var s := s.(hits := if s.hits + 1 < t.vision.consecutive then s.hits + 1 else t.vision.consecutive);
      var notes := if s.hits == 1 then [Detected] else [];
      if s.hits < t.vision.consecutive then (s, notes)
      else
        var s := s.(candidate := None, hits := 0);
        if !Cooled(s, cooldown, captured) then (s, notes + [Cooling])
        else (s.(latched := true, lastTrigger := Some(captured)), notes + [Triggered])
  }

  function OnSample(t: Trigger, s: State, count: nat, captured: real, cooldown: real): (State, seq<Note>) {
    var (s, notes) := Expire(s, captured);
    var (s, more) := if count < t.vision.minCount then OnAbsence(t, s, captured) else OnPresence(t, s, captured, cooldown);
    (s, notes + more)
  }

  /** The camera missed frames for too long: neither sightings nor absences connect across that. */
  function OnGap(s: State): (State, seq<Note>) {
    Drop(s.(hits := 0, absentSince := None))
  }

  // -- the rule's state, changed in place ----------------------------------------------------------

  class RuleState {
    var hits: nat
    var latched: bool
    var absentSince: Option<real>
    var lastTrigger: Option<real>
    var candidate: Option<Candidate>
    var openedUntil: Option<real>

    function Now(): State
      reads this
    {
      State(hits, latched, absentSince, lastTrigger, candidate, openedUntil)
    }

    constructor ()
      ensures Now() == Start()
    {
      hits, latched := 0, false;
      absentSince, lastTrigger, candidate, openedUntil := None, None, None, None;
    }

    method ExpireBy(now: real) returns (notes: seq<Note>)
      modifies this
      ensures (Now(), notes) == Expire(old(Now()), now)
    {
      if candidate.None? || now <= candidate.value.deadline {
        return [];
      }
      candidate, hits := None, 0;
      return [Expired];
    }

    method DropCandidate() returns (notes: seq<Note>)
      modifies this
      ensures (Now(), notes) == Drop(old(Now()))
    {
      if candidate.None? {
        return [];
      }
      candidate, hits := None, 0;
      return [Cancelled];
    }

    method SequenceEvent(t: Trigger, e: Observed, cameraZone: Option<string>) returns (notes: seq<Note>)
      modifies this
      ensures (Now(), notes) == OnEvent(t, old(Now()), e, cameraZone)
    {
      if !IsFor(t.sensor, e) {
        return [];
      }
      var now := e.received;
      notes := ExpireBy(now);
      if e.quality != Valid {
        var more := DropCandidate();
        return notes + more;
      }
      if !SensorFires(t.sensor, e) {
        return notes;
      }
      if openedUntil.Some? && now <= openedUntil.value {
        return notes;
      }
      if candidate.Some? {
        return notes;
      }
      if t.sameZone && e.zone.Some? && cameraZone.Some? && e.zone != cameraZone {
        return notes + [WrongZone];
      }
      if latched {
        return notes + [StillThere];
      }
      candidate := Some(Candidate(now, now + t.within, e.eventId, e.zone));
      openedUntil := Some(now);
      hits := 0;
      return notes + [Waiting];
    }

    method SequenceSample(t: Trigger, count: nat, captured: real, cooldown: real) returns (notes: seq<Note>)
      modifies this
      ensures (Now(), notes) == OnSample(t, old(Now()), count, captured, cooldown)
    {
      notes := ExpireBy(captured);
      ghost var first, middle := notes, Now();
      if count < t.vision.minCount {
        hits := 0;
        if absentSince.None? {
          absentSince := Some(captured);
        }
        if latched && captured - absentSince.value >= t.vision.rearmAfter {
          latched := false;
          notes := notes + [Rearmed];
        }
        assert first + [] == first;
        return;
      }
      absentSince := None;
      ghost var wanted := OnPresence(t, middle, captured, cooldown);
      if latched || candidate.None? || captured <= candidate.value.openedAt {
        hits := 0;
        assert first + wanted.1 == notes;
        return;
      }
      hits := if hits + 1 < t.vision.consecutive then hits + 1 else t.vision.consecutive;
      ghost var early: seq<Note> := if hits == 1 then [Detected] else [];
      if hits == 1 {
        notes := notes + [Detected];
      }
      assert notes == first + early;
      if hits < t.vision.consecutive {
        return;
      }
      candidate, hits := None, 0;
      assert first + (early + [Cooling]) == notes + [Cooling] && first + (early + [Triggered]) == notes + [Triggered];
      if lastTrigger.Some? && captured - lastTrigger.value < cooldown {
        return notes + [Cooling];
      }
      latched, lastTrigger := true, Some(captured);
      return notes + [Triggered];
    }

    method MissedFrames() returns (notes: seq<Note>)
      modifies this
      ensures (Now(), notes) == OnGap(old(Now()))
    {
      hits, absentSince := 0, None;
      notes := DropCandidate();
    }
  }

  // -- whole histories --------------------------------------------------------------------------------

  datatype Step =
    | Hear(event: Observed, cameraZone: Option<string>)
    | See(count: nat, captured: real)
    | Tick(now: real)
    | Pause
    | Gap

  datatype Rule = Rule(trigger: Trigger, cooldown: real)

  function Apply(r: Rule, s: State, step: Step): (State, seq<Note>) {
    match step
    case Hear(event, cameraZone) => OnEvent(r.trigger, s, event, cameraZone)
    case See(count, captured) => OnSample(r.trigger, s, count, captured, r.cooldown)
    case Tick(now) => Expire(s, now)
    case Pause => Drop(s)
    case Gap => OnGap(s)
  }

  /** Any interleaving of events, samples, ticks, pauses and gaps, from a fresh rule on. */
  ghost predicate IsRun(r: Rule, states: seq<State>, steps: seq<Step>) {
    && |states| == |steps| + 1
    && states[0] == Start()
    && forall i | 0 <= i < |steps| :: states[i + 1] == Apply(r, states[i], steps[i]).0
  }

  predicate Fires(r: Rule, s: State, step: Step) {
    Triggered in Apply(r, s, step).1
  }

  predicate Opens(r: Rule, s: State, step: Step) {
    Waiting in Apply(r, s, step).1
  }

  predicate Seen(r: Rule, step: Step) {
    step.See? && r.trigger.vision.minCount <= step.count
  }

  predicate NotSeen(r: Rule, step: Step) {
    step.See? && step.count < r.trigger.vision.minCount
  }

  /** The samples among some steps, in order. */
  function Samples(steps: seq<Step>): (samples: seq<Step>)
    ensures forall x | x in samples :: x.See?
    decreases steps
  {
    if steps == [] then []
    else
      var before, last := Samples(steps[..|steps| - 1]), steps[|steps| - 1];
      if last.See? then before + [last] else before
  }

  // -- one state at a time ------------------------------------------------------------------------------

  ghost predicate Sound(r: Rule, s: State) {
    && (s.latched ==> s.candidate.None?)
    && (s.candidate.None? ==> s.hits == 0)
    && s.hits < r.trigger.vision.consecutive
    && (s.candidate.Some? ==> s.openedUntil == Some(s.candidate.value.openedAt))
    && (s.candidate.Some? ==> s.candidate.value.deadline == s.candidate.value.openedAt + r.trigger.within)
  }

  lemma StepKeepsSound(r: Rule, s: State, step: Step)
    requires Sound(r, s) && r.trigger.vision.consecutive >= 1
    ensures Sound(r, Apply(r, s, step).0)
  {
    hide SensorFires, Cooled, OtherZone;
  }

  /** In every state of every run: a latched rule holds no candidate, and without a candidate there
      are no hits. */
  lemma {:induction false} LatchedHoldsNoCandidate(r: Rule, states: seq<State>, steps: seq<Step>, i: nat)
    requires IsRun(r, states, steps) && i < |states| && r.trigger.vision.consecutive >= 1
    ensures Sound(r, states[i])
    decreases i
  {
    hide Apply;
    if i > 0 {
      LatchedHoldsNoCandidate(r, states, steps, i - 1);
      StepKeepsSound(r, states[i - 1], steps[i - 1]);
    }
  }

  // -- what one step can do ---------------------------------------------------------------------------------

  lemma FiresMeans(r: Rule, s: State, step: Step)
    requires Sound(r, s) && Fires(r, s, step)
    ensures Seen(r, step) && s.candidate.Some? && !s.latched
    ensures s.candidate.value.openedAt < step.captured <= s.candidate.value.deadline
    ensures s.hits + 1 >= r.trigger.vision.consecutive && Cooled(s, r.cooldown, step.captured)
    ensures var t := Apply(r, s, step).0; t.candidate.None? && t.latched && t.absentSince.None?
  {
    hide SensorFires, OtherZone;
  }

  lemma OpensMeans(r: Rule, s: State, step: Step)
    requires Opens(r, s, step)
    ensures step.Hear? && SensorFires(r.trigger.sensor, step.event)
    ensures var t := Apply(r, s, step).0;
            && t.candidate == Some(CandidateOf(r.trigger, step.event)) && t.hits == 0
            && t.openedUntil == Some(step.event.received)
    ensures s.openedUntil.Some? ==> s.openedUntil.value < step.event.received
    ensures !s.latched && !OtherZone(r.trigger, step.event, step.cameraZone)
  {
    hide Cooled;
  }

  /** A candidate appears only by opening; otherwise it stays what it was or goes. */
  lemma CandidateStaysOrGoes(r: Rule, s: State, step: Step)
    requires Sound(r, s)
    ensures var t := Apply(r, s, step).0;
            t.candidate.Some? && t.candidate != s.candidate ==> Opens(r, s, step)
    ensures var t := Apply(r, s, step).0;
            t.candidate.Some? && s.candidate.Some? ==> !Opens(r, s, step) || s.candidate != t.candidate
  {
    hide SensorFires, Cooled, OtherZone;
  }

  // -- a window, told without the rule's state ------------------------------------------------------------------

  /** A sample that counts towards the confirmation of this candidate. */
  predicate Counts(r: Rule, c: Candidate, step: Step) {
    Seen(r, step) && c.openedAt < step.captured <= c.deadline
  }

  /** How many samples in a row, up to the last one, count. */
  function Trailing(r: Rule, c: Candidate, samples: seq<Step>): nat
    decreases samples
  {
    if samples == [] || !Counts(r, c, samples[|samples| - 1]) then 0
    else 1 + Trailing(r, c, samples[..|samples| - 1])
  }

  /** A step that neither runs past the deadline nor casts doubt on what the window relies on. */
  predicate Undisturbed(r: Rule, c: Candidate, step: Step) {
    match step
    case Hear(e, _) => IsFor(r.trigger.sensor, e) ==> e.received <= c.deadline && e.quality == Valid
    case See(_, captured) => captured <= c.deadline
    case Tick(now) => now <= c.deadline
    case Pause => false
    case Gap => false
  }

  function HitsAt(r: Rule, steps: seq<Step>, o: nat, i: nat): nat
    requires o < i <= |steps| && steps[o].Hear?
  {
    Trailing(r, CandidateOf(r.trigger, steps[o].event), Samples(steps[o + 1..i]))
  }

  /** The window opened at step `o` is still there before step `i`: nothing disturbed it and it has not
      been confirmed. */
  ghost predicate OpenSince(r: Rule, states: seq<State>, steps: seq<Step>, o: nat, i: nat)
    requires |states| == |steps| + 1
  {
    && o < i <= |steps| && Opens(r, states[o], steps[o]) && steps[o].Hear?
    && (forall j | o < j < i :: Undisturbed(r, CandidateOf(r.trigger, steps[o].event), steps[j]))
    && (forall j | o < j <= i :: HitsAt(r, steps, o, j) < r.trigger.vision.consecutive)
  }

  /** One step of a candidate's life. */
  lemma CandidateStep(r: Rule, s: State, step: Step)
    requires Sound(r, s) && s.candidate.Some? && !Opens(r, s, step)
    ensures var (t, c) := (Apply(r, s, step).0, s.candidate.value);
            var hits := Hit(r, c, s.hits, step);
            if Undisturbed(r, c, step) && hits < r.trigger.vision.consecutive then t.candidate == s.candidate && t.hits == hits
            else t.candidate.None?
  {
    hide SensorFires, Cooled, OtherZone;
  }

  /** Opening while a window was there means the old one had run out. */
  lemma OpensOverAnOldOne(r: Rule, s: State, step: Step)
    requires Sound(r, s) && s.candidate.Some? && Opens(r, s, step)
    ensures !Undisturbed(r, s.candidate.value, step)
  {
    hide SensorFires, Cooled, OtherZone;
  }

  lemma SamplesFront(steps: seq<Step>, o: nat, i: nat)
    requires o < i < |steps|
    ensures Samples(steps[o + 1..i + 1])
         == if steps[i].See? then Samples(steps[o + 1..i]) + [steps[i]] else Samples(steps[o + 1..i])
  {
    assert steps[o + 1..i + 1][..i - o - 1] == steps[o + 1..i];
  }

  lemma TrailingFront(r: Rule, c: Candidate, samples: seq<Step>, last: Step)
    ensures Trailing(r, c, samples + [last]) == if Counts(r, c, last) then Trailing(r, c, samples) + 1 else 0
    ensures Counts(r, c, last) ==> last.See?
  {
    assert (samples + [last])[..|samples|] == samples;
  }

  /** What one more step does to the samples in a row. */
  function Hit(r: Rule, c: Candidate, hits: nat, step: Step): nat {
    if Counts(r, c, step) then hits + 1 else if step.See? then 0 else hits
  }

  lemma HitsFront(r: Rule, steps: seq<Step>, o: nat, i: nat)
    requires o < i < |steps| && steps[o].Hear?
    ensures HitsAt(r, steps, o, i + 1) == Hit(r, CandidateOf(r.trigger, steps[o].event), HitsAt(r, steps, o, i), steps[i])
  {
    hide Samples, Counts, CandidateOf, Trailing;
    SamplesFront(steps, o, i);
    TrailingFront(r, CandidateOf(r.trigger, steps[o].event), Samples(steps[o + 1..i]), steps[i]);
  }

  lemma HitsStart(r: Rule, steps: seq<Step>, o: nat)
    requires o < |steps| && steps[o].Hear?
    ensures HitsAt(r, steps, o, o + 1) == 0
  {
    assert steps[o + 1..o + 1] == [];
  }

  /** A candidate in the rule's state is a window that opened and is still there. */
  lemma {:induction false} CandidateHasAWindow(r: Rule, states: seq<State>, steps: seq<Step>, i: nat) returns (o: nat)
    requires IsRun(r, states, steps) && i < |states| && r.trigger.vision.consecutive >= 1
    requires states[i].candidate.Some?
    ensures OpenSince(r, states, steps, o, i)
    ensures states[i].candidate == Some(CandidateOf(r.trigger, steps[o].event)) && states[i].hits == HitsAt(r, steps, o, i)
    decreases i
  {
    hide Apply, Opens, HitsAt, Undisturbed, Counts, Samples, Trailing;
    var s, step := states[i - 1], steps[i - 1];
    LatchedHoldsNoCandidate(r, states, steps, i - 1);
    CandidateStaysOrGoes(r, s, step);
    if Opens(r, s, step) {
      OpensMeans(r, s, step);
      HitsStart(r, steps, i - 1);
      return i - 1;
    }
    CandidateStep(r, s, step);
    o := CandidateHasAWindow(r, states, steps, i - 1);
    HitsFront(r, steps, o, i - 1);
  }

  /** A window that opened and is still there is the candidate in the rule's state. */
  lemma {:induction false} WindowIsTheCandidate(r: Rule, states: seq<State>, steps: seq<Step>, o: nat, i: nat)
    requires IsRun(r, states, steps) && r.trigger.vision.consecutive >= 1
    requires OpenSince(r, states, steps, o, i)
    ensures states[i].candidate == Some(CandidateOf(r.trigger, steps[o].event)) && states[i].hits == HitsAt(r, steps, o, i)
    decreases i
  {
    hide Apply, Opens, HitsAt, Undisturbed, Counts, Samples, Trailing;
    LatchedHoldsNoCandidate(r, states, steps, i - 1);
    if o == i - 1 {
      OpensMeans(r, states[o], steps[o]);
      HitsStart(r, steps, o);
    } else {
      assert OpenSince(r, states, steps, o, i - 1);
      WindowIsTheCandidate(r, states, steps, o, i - 1);
      if Opens(r, states[i - 1], steps[i - 1]) {
        OpensOverAnOldOne(r, states[i - 1], steps[i - 1]);
      }
      CandidateStep(r, states[i - 1], steps[i - 1]);
      HitsFront(r, steps, o, i - 1);
    }
  }

  // -- what a trigger says about the past -------------------------------------------------------------------------

  /** The sensor event at step `o` opened a window, nothing disturbed it, and the sample at step `i`
      completes the samples in a row that confirm it. */
  ghost predicate Confirms(r: Rule, states: seq<State>, steps: seq<Step>, o: nat, i: nat)
    requires |states| == |steps| + 1
  {
    && i < |steps|
    && OpenSince(r, states, steps, o, i)
    && Counts(r, CandidateOf(r.trigger, steps[o].event), steps[i])
    && HitsAt(r, steps, o, i + 1) == r.trigger.vision.consecutive
  }

  /** A rule fires exactly when a sensor event's window is being confirmed and the rule has cooled. */
  lemma FiresExactlyWhenConfirmed(r: Rule, states: seq<State>, steps: seq<Step>, i: nat)
    requires IsRun(r, states, steps) && i < |steps| && r.trigger.vision.consecutive >= 1
    ensures Fires(r, states[i], steps[i])
       <==> (exists o :: Confirms(r, states, steps, o, i)) && Cooled(states[i], r.cooldown, steps[i].captured)
  {
    hide OpenSince, Apply, HitsAt, Opens, Fires, Cooled, Trailing, Samples;
    LatchedHoldsNoCandidate(r, states, steps, i);
    if Fires(r, states[i], steps[i]) {
      FiresMeans(r, states[i], steps[i]);
      var o := CandidateHasAWindow(r, states, steps, i);
      OpenSinceMeans(r, states, steps, o, i);
      HitsFront(r, steps, o, i);
      assert Confirms(r, states, steps, o, i);
    }
    forall o | Confirms(r, states, steps, o, i) && Cooled(states[i], r.cooldown, steps[i].captured)
      ensures Fires(r, states[i], steps[i])
    {
      WindowIsTheCandidate(r, states, steps, o, i);
      OpenSinceMeans(r, states, steps, o, i);
      HitsFront(r, steps, o, i);
      ConfirmingFires(r, states[i], steps[i]);
    }
  }

  lemma OpenSinceMeans(r: Rule, states: seq<State>, steps: seq<Step>, o: nat, i: nat)
    requires |states| == |steps| + 1 && OpenSince(r, states, steps, o, i)
    ensures o < i <= |steps| && steps[o].Hear? && Opens(r, states[o], steps[o])
  {
  }

  lemma ConfirmingFires(r: Rule, s: State, step: Step)
    requires Sound(r, s) && s.candidate.Some? && Counts(r, s.candidate.value, step)
    requires s.hits + 1 == r.trigger.vision.consecutive && Cooled(s, r.cooldown, step.captured)
    ensures Fires(r, s, step)
  {
  }

  /** Each opening confirms at most once: between two triggers lies the opening of the second. */
  lemma EachTriggerHasItsOwnOpening(r: Rule, states: seq<State>, steps: seq<Step>, i: nat, o: nat, j: nat)
    requires IsRun(r, states, steps) && i < j < |steps| && r.trigger.vision.consecutive >= 1
    requires Fires(r, states[i], steps[i]) && Confirms(r, states, steps, o, j)
    ensures i < o
  {
    hide Apply, HitsAt, Opens, Fires, Counts, Undisturbed;
    LatchedHoldsNoCandidate(r, states, steps, i);
    FiresMeans(r, states[i], steps[i]);
    OpensMeans(r, states[o], steps[o]);
    if o < i {
      assert OpenSince(r, states, steps, o, i + 1);
      WindowIsTheCandidate(r, states, steps, o, i + 1);
    }
  }

  // -- what lies between two triggers -------------------------------------------------------------------------------

  /** Every sample from step `a` to step `b` was received without the object, with no gap between. */
  predicate OutOfSight(r: Rule, steps: seq<Step>, a: nat, b: nat)
    requires a <= b < |steps|
  {
    && NotSeen(r, steps[a]) && NotSeen(r, steps[b])
    && forall j | a <= j <= b :: !steps[j].Gap? && !Seen(r, steps[j])
  }

  lemma AbsenceStep(r: Rule, s: State, step: Step)
    ensures var t := Apply(r, s, step).0;
            t.absentSince == if step.Gap? || Seen(r, step) then None
                             else if NotSeen(r, step) && s.absentSince.None? then Some(step.captured)
                             else s.absentSince
  {
    hide SensorFires, Cooled, OtherZone;
  }

  lemma LatchStep(r: Rule, s: State, step: Step)
    ensures var t := Apply(r, s, step).0;
            && (s.latched && !t.latched ==>
                  NotSeen(r, step) && t.absentSince.Some? && step.captured - t.absentSince.value >= r.trigger.vision.rearmAfter)
            && (t.latched && !s.latched ==> Fires(r, s, step))
  {
    hide SensorFires, Cooled, OtherZone;
  }

  /** What the rule remembers of an absence is where an unbroken one began. */
  lemma {:induction false} AbsenceBegan(r: Rule, states: seq<State>, steps: seq<Step>, i: nat) returns (a: nat)
    requires IsRun(r, states, steps) && i < |states| && states[i].absentSince.Some?
    ensures a < i && NotSeen(r, steps[a]) && steps[a].captured == states[i].absentSince.value
    ensures forall j | a <= j < i :: !steps[j].Gap? && !Seen(r, steps[j])
    decreases i
  {
    hide Apply;
    AbsenceStep(r, states[i - 1], steps[i - 1]);
    if states[i - 1].absentSince.None? {
      return i - 1;
    }
    a := AbsenceBegan(r, states, steps, i - 1);
  }

  /** A latch that is off again was taken off by some step. */
  lemma {:induction false} TakenOff(r: Rule, states: seq<State>, steps: seq<Step>, i: nat, j: nat) returns (b: nat)
    requires IsRun(r, states, steps) && i < j < |states| && states[i].latched && !states[j].latched
    ensures i <= b < j && states[b].latched && !states[b + 1].latched
    decreases j
  {
    if states[j - 1].latched {
      return j - 1;
    }
    b := TakenOff(r, states, steps, i, j - 1);
  }

  /** Between two triggers there is an unbroken run of samples without the object, received over at least
      the rearming time, and only after it the sensor event that the second trigger confirms. */
  lemma OutOfSightBetweenTriggers(r: Rule, states: seq<State>, steps: seq<Step>, i: nat, o: nat, j: nat) returns (a: nat, b: nat)
    requires IsRun(r, states, steps) && i < j < |steps| && r.trigger.vision.consecutive >= 1
    requires Fires(r, states[i], steps[i]) && Confirms(r, states, steps, o, j)
    ensures i < a <= b < o < j && OutOfSight(r, steps, a, b)
    ensures steps[b].captured - steps[a].captured >= r.trigger.vision.rearmAfter
  {
    hide Apply, HitsAt, Opens, Fires, Counts, Undisturbed;
    EachTriggerHasItsOwnOpening(r, states, steps, i, o, j);
    LatchedHoldsNoCandidate(r, states, steps, i);
    FiresMeans(r, states[i], steps[i]);
    OpensMeans(r, states[o], steps[o]);
    b := TakenOff(r, states, steps, i + 1, o);
    LatchStep(r, states[b], steps[b]);
    a := AbsenceBegan(r, states, steps, b + 1);
  }

  // -- windows open in order ------------------------------------------------------------------------------------------

  lemma OpenedUntilStep(r: Rule, s: State, step: Step)
    ensures var t := Apply(r, s, step).0;
            && (s.openedUntil.Some? ==> t.openedUntil.Some? && s.openedUntil.value <= t.openedUntil.value)
  {
    hide SensorFires, Cooled, OtherZone;
  }

  /** However late and out of order events arrive, windows open at strictly rising times. */
  lemma {:induction false} OpeningTimesRise(r: Rule, states: seq<State>, steps: seq<Step>, o: nat, p: nat)
    requires IsRun(r, states, steps) && o < p < |steps|
    requires Opens(r, states[o], steps[o]) && Opens(r, states[p], steps[p])
    ensures steps[o].Hear? && steps[p].Hear? && steps[o].event.received < steps[p].event.received
  {
    hide Apply, Opens;
    OpensMeans(r, states[o], steps[o]);
    OpensMeans(r, states[p], steps[p]);
    OpenedUntilOnlyRises(r, states, steps, o, p);
  }

  lemma {:induction false} OpenedUntilOnlyRises(r: Rule, states: seq<State>, steps: seq<Step>, o: nat, p: nat)
    requires IsRun(r, states, steps) && o < p <= |steps| && states[o + 1].openedUntil.Some?
    ensures states[p].openedUntil.Some? && states[o + 1].openedUntil.value <= states[p].openedUntil.value
    decreases p
  {
    hide Apply;
    if o + 1 < p {
      OpenedUntilOnlyRises(r, states, steps, o, p - 1);
      OpenedUntilStep(r, states[p - 1], steps[p - 1]);
    }
  }

  /** No window ends in silence: a candidate goes exactly when the step says that it expired, was dropped,
      was confirmed while cooling, or fired; and an event that finds no window says why none opened, unless
      it is not this rule's, not the edge it asks for, or older than a window already opened. */
  lemma EveryEndIsReported(r: Rule, s: State, step: Step)
    requires Sound(r, s)
    ensures var (t, notes) := Apply(r, s, step);
            && (s.candidate.Some? && t.candidate != s.candidate
                <==> Expired in notes || Cancelled in notes || Cooling in notes || Triggered in notes)
            && (step.Hear? && s.candidate.None? && SensorFires(r.trigger.sensor, step.event)
                && (s.openedUntil.None? || s.openedUntil.value < step.event.received)
                ==> notes == [if OtherZone(r.trigger, step.event, step.cameraZone) then WrongZone
                              else if s.latched then StillThere else Waiting])
  {
    hide Cooled, OtherZone;
  }
}
