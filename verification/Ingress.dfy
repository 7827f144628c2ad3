/** The one door events come in by: what an event is, and writing that down before saying so. */
module Ingress {
  import opened Wrappers
  import opened Wire
  import opened Journal
  import opened Basics

  datatype SourceStatus = Ready | Disabled

  type Sources = map<Key, SourceStatus>

  datatype Limits = Limits(acceptWithin: real, futureTolerance: real)

  /** What the hub makes of one event document. `Envelope` is one that matches the contract. */
  datatype Message = Unmatched | Matched(envelope: Envelope)

  /** How the journal answers during one arrival: the position can be read, or the journal is known
      to be closed, or the read itself breaks; and how it takes the write. */
  datatype Disk = Disk(read: ReadOutcome, write: WriteOutcome)
  datatype ReadOutcome = Reads | Closed | Breaks

  datatype Receipt = Receipt(
    classification: Classification,
    eligible: bool,
    stored: bool,
    reason: Option<Reason>,
    event: Option<Entry>,
    waitedMs: Option<nat>,
    settle: bool)

  function Refused(reason: Reason, settle: bool): Receipt {
    Receipt(Rejected, false, false, Some(reason), None, None, settle)
  }

  /** Where this source had got to, starting again when the board has restarted. */
  function Position(known: Option<Mark>, boot: Id): Mark {
    if known.None? || known.value.boot != boot then FreshMark(boot) else known.value
  }

  /** Whether the event's moment has a form in UTC; without one it cannot be classified at all. */
  predicate Timed(e: Event) {
    e.reading.occurredAt.Utc?
  }

  function Age(e: Event, now: real): real
    requires Timed(e)
  {
    now - e.reading.occurredAt.seconds
  }

  predicate ClockBad(e: Event, now: real, limits: Limits)
    requires Timed(e)
  {
    e.clock != Synced || Age(e, now) < -limits.futureTolerance
  }

  datatype Verdict = Verdict(classification: Classification, reason: Option<Reason>, mark: Mark)

  function Classify(e: Event, d: Delivery, mark: Mark, retained: bool, now: real, limits: Limits): Verdict
    requires Timed(e)
  {
    var age := Age(e, now);
    var clockBad := ClockBad(e, now, limits);
    var uncertain := clockBad || mark.uncertain;
    var ahead := Max(mark.highWater, e.sequence);
    if retained then Verdict(Historic, Some(Retained), mark)
    else if d.initialState then
      Verdict(Initial, Some(InitialState), Mark(mark.boot, ahead, true, clockBad, Some(e.reading.occurredAt.seconds)))
    else
      var moved := Mark(mark.boot, ahead, mark.baselineTaken, uncertain, Some(e.reading.occurredAt.seconds));
      if d.replayed then Verdict(Historic, Some(Replayed), moved)
      else if uncertain then Verdict(Historic, Some(TimeUncertain), moved)
      else if age > limits.acceptWithin then Verdict(Historic, Some(Expired), moved)
      else if e.sequence <= mark.highWater then Verdict(Historic, Some(OutOfOrder), moved)
      else Verdict(Live, None, moved)
  }

  /** What the hub decided about an envelope that got as far as the journal. */
  function Decide(j: JournalView, envelope: Envelope, retained: bool, now: real, limits: Limits): (Entry, Mark)
    requires Timed(envelope.event)
  {
    var e := envelope.event;
    var v := Classify(e, envelope.delivery, Position(MarkOf(j, e.node, e.source), e.boot), retained, now, limits);
    (Entry(e, envelope.delivery, now, v.classification, v.reason.None?, v.reason), v.mark)
  }

  function ReasonOf(outcome: Outcome): Reason
    requires outcome != Stored
  {
    match outcome
    case SeenBefore => Duplicate
    case IdClash => IdReused
    case SequenceClash => SequenceReused
  }

  function ReceiptFor(entry: Entry, outcome: Outcome): Receipt {
    if outcome == Stored then
      Receipt(entry.classification, entry.eligible, true, entry.reason, if entry.eligible then Some(entry) else None,
              Some(entry.delivery.queuedMs), true)
    else Receipt(Historic, false, false, Some(ReasonOf(outcome)), None, None, true)
  }

  /** Why an envelope is turned away before the journal is asked anything. */
  function TurnedAway(sources: Sources, node: NodeId, message: Message): Option<Reason> {
    if message.Unmatched? then Some(InvalidEnvelope)
    else
      var e := message.envelope.event;
      if e.node != node then Some(IdentityMismatch)
      else if (node, e.source) !in sources then Some(UnregisteredSource)
      else if sources[(node, e.source)] == Disabled then Some(SourceDisabled)
      else None
  }

  /** One arrival. No receipt: something broke off, and whoever called never heard back: the read, a moment
      that has no form in UTC, or the write. */
  function Accept(j: JournalView, sources: Sources, limits: Limits, node: NodeId, message: Message,
                  retained: bool, now: real, disk: Disk): (JournalView, Option<Receipt>)
  {
    var away := TurnedAway(sources, node, message);
    if away.Some? then (j, Some(Refused(away.value, true)))
    else if disk.read.Breaks? then (j, None)
    else if disk.read.Closed? then (j, Some(Refused(StoreUnavailable, false)))
    else if !Timed(message.envelope.event) then (j, None)
    else
      var (entry, mark) := Decide(j, message.envelope, retained, now, limits);
      var (after, written) := Write(j, entry, mark, disk.write);
      match written
      case NoDatabase => (after, Some(Refused(StoreUnavailable, false)))
      case BrokeOff => (after, None)
      case Answered(outcome) => (after, Some(ReceiptFor(entry, outcome)))
  }

  class EventIngress {
    const store: Store
    const limits: Limits

    constructor (store: Store, limits: Limits)
      ensures this.store == store && this.limits == limits
    {
      this.store := store;
      this.limits := limits;
    }

    method AcceptEvent(sources: Sources, node: NodeId, message: Message, retained: bool, now: real, disk: Disk)
        returns (receipt: Option<Receipt>)
      modifies store
      ensures (store.View(), receipt) == Accept(old(store.View()), sources, limits, node, message, retained, now, disk)
    {
      if message.Unmatched? {
        return Some(Refused(InvalidEnvelope, true));
      }
      var e, delivery := message.envelope.event, message.envelope.delivery;
      if e.node != node {
        return Some(Refused(IdentityMismatch, true));
      }
      if (node, e.source) !in sources {
        return Some(Refused(UnregisteredSource, true));
      }
      if sources[(node, e.source)] == Disabled {
        return Some(Refused(SourceDisabled, true));
      }
      if disk.read.Breaks? {
        return None;
      }
      if disk.read.Closed? {
        return Some(Refused(StoreUnavailable, false));
      }
      if !Timed(e) {
        return None;
      }
      var known := if (node, e.source) in store.marks then Some(store.marks[(node, e.source)]) else None;
      var mark := Position(known, e.boot);
      var verdict := Classify(e, delivery, mark, retained, now, limits);
      var entry := Entry(e, delivery, now, verdict.classification, verdict.reason.None?, verdict.reason);
      var written := store.AdmitEntry(entry, verdict.mark, disk.write);
      match written
      case NoDatabase => return Some(Refused(StoreUnavailable, false));
      case BrokeOff => return None;
      case Answered(outcome) => return Some(ReceiptFor(entry, outcome));
    }
  }

  // -- over a history of arrivals ----------------------------------------------------------

  datatype Arrival = Arrival(sources: Sources, node: NodeId, message: Message, retained: bool, now: real, disk: Disk)

  function After(j: JournalView, limits: Limits, a: Arrival): JournalView {
    Accept(j, a.sources, limits, a.node, a.message, a.retained, a.now, a.disk).0
  }

  function ReceiptOf(j: JournalView, limits: Limits, a: Arrival): Option<Receipt> {
    Accept(j, a.sources, limits, a.node, a.message, a.retained, a.now, a.disk).1
  }

  function Run(j: JournalView, limits: Limits, arrivals: seq<Arrival>): JournalView
    decreases arrivals
  {
    if arrivals == [] then j else Run(After(j, limits, arrivals[0]), limits, arrivals[1..])
  }

  /** A live event: ours, from a source that is on, told and timed as it happens, in its window, ahead of
      everything of its source, not seen before, and written down. */
  predicate IsLive(j: JournalView, limits: Limits, a: Arrival) {
    && a.message.Matched? && TurnedAway(a.sources, a.node, a.message).None?
    && a.disk == Disk(Reads, Commits)
    && var e, d := a.message.envelope.event, a.message.envelope.delivery;
       var mark := Position(MarkOf(j, e.node, e.source), e.boot);
       && Timed(e) && !TooWide(j, e, d.queuedMs)
       && !a.retained && !d.initialState && !d.replayed
       && e.clock == Synced && !mark.uncertain
       && -limits.futureTolerance <= Age(e, a.now) <= limits.acceptWithin
       && e.sequence > mark.highWater
       && OutcomeOf(j, e) == Stored
  }

  /** What it means for an event to be handed on: every one of these, and nothing else. */
  lemma LiveMeans(j: JournalView, limits: Limits, a: Arrival)
    ensures var r := ReceiptOf(j, limits, a); r.Some? && r.value.event.Some? <==> IsLive(j, limits, a)
  {
  }

  /** Whether this arrival wrote an entry, its receipt and its mark. */
  predicate Stores(j: JournalView, limits: Limits, a: Arrival) {
    && a.message.Matched? && TurnedAway(a.sources, a.node, a.message).None?
    && a.disk == Disk(Reads, Commits)
    && Timed(a.message.envelope.event)
    && !TooWide(j, a.message.envelope.event, a.message.envelope.delivery.queuedMs)
    && OutcomeOf(j, a.message.envelope.event) == Stored
  }

  function KeyOf(a: Arrival): Key
    requires a.message.Matched?
  {
    (a.message.envelope.event.node, a.message.envelope.event.source)
  }

  /** An arrival that writes nothing leaves the journal as it was; one that does moves only the
      mark of its own source. */
  lemma OneSourceMoves(j: JournalView, limits: Limits, a: Arrival)
    ensures !Stores(j, limits, a) ==> After(j, limits, a) == j
    ensures Stores(j, limits, a) ==>
              After(j, limits, a).marks == j.marks[KeyOf(a) := Decide(j, a.message.envelope, a.retained, a.now, limits).1]
  {
  }

  /** A well-clocked opening snapshot of this source in this boot. */
  predicate ClearsSuspicion(limits: Limits, a: Arrival, key: Key, boot: Id) {
    && a.message.Matched? && KeyOf(a) == key && !a.retained
    && a.message.envelope.event.boot == boot
    && a.message.envelope.delivery.initialState
    && Timed(a.message.envelope.event)
    && !ClockBad(a.message.envelope.event, a.now, limits)
  }

  predicate AnotherBoot(a: Arrival, key: Key, boot: Id) {
    a.message.Matched? && KeyOf(a) == key && a.message.envelope.event.boot != boot
  }

  predicate Suspected(j: JournalView, key: Key, boot: Id) {
    key in j.marks && j.marks[key].boot == boot && j.marks[key].uncertain
  }

  /** A stored reading with a bad clock, not a retained one, puts its source under suspicion. */
  lemma BadClockIsSuspected(j: JournalView, limits: Limits, a: Arrival)
    requires Stores(j, limits, a) && !a.retained
    requires ClockBad(a.message.envelope.event, a.now, limits)
    ensures Suspected(After(j, limits, a), KeyOf(a), a.message.envelope.event.boot)
  {
  }

  /** The one way out within a boot, for any source, suspected or not. */
  lemma SnapshotClears(j: JournalView, limits: Limits, a: Arrival, key: Key, boot: Id)
    requires Stores(j, limits, a) && a.message.Matched? && KeyOf(a) == key && a.message.envelope.event.boot == boot
    requires Suspected(j, key, boot)
    ensures Suspected(After(j, limits, a), key, boot) <==> !ClearsSuspicion(limits, a, key, boot)
  {
    OneSourceMoves(j, limits, a);
  }

  lemma SuspicionStays(j: JournalView, limits: Limits, a: Arrival, key: Key, boot: Id)
    requires Suspected(j, key, boot)
    requires Stores(j, limits, a) ==> !ClearsSuspicion(limits, a, key, boot) && !AnotherBoot(a, key, boot)
    ensures Suspected(After(j, limits, a), key, boot)
    ensures a.message.Matched? && KeyOf(a) == key && ReceiptOf(j, limits, a).Some? ==>
              ReceiptOf(j, limits, a).value.event.None?
  {
    OneSourceMoves(j, limits, a);
    LiveMeans(j, limits, a);
  }

  /** Suspicion is sticky: whatever arrives, until a well-clocked snapshot of the source is stored
      or the source is heard in another boot, no event of it is handed on. */
  lemma {:induction false} SuspicionIsSticky(j: JournalView, limits: Limits, arrivals: seq<Arrival>, key: Key, boot: Id)
    requires Suspected(j, key, boot)
    requires forall i | 0 <= i < |arrivals| && Stores(Run(j, limits, arrivals[..i]), limits, arrivals[i]) ::
               !ClearsSuspicion(limits, arrivals[i], key, boot) && !AnotherBoot(arrivals[i], key, boot)
    ensures Suspected(Run(j, limits, arrivals), key, boot)
    ensures forall i | 0 <= i < |arrivals| && arrivals[i].message.Matched? && KeyOf(arrivals[i]) == key ::
              var r := ReceiptOf(Run(j, limits, arrivals[..i]), limits, arrivals[i]);
              r.Some? ==> r.value.event.None?
    decreases arrivals
  {
    hide Accept, Stores, ClearsSuspicion, AnotherBoot, After, ReceiptOf;
    if arrivals != [] {
      var next := After(j, limits, arrivals[0]);
      assert arrivals[..0] == [] && Run(j, limits, arrivals[..0]) == j;
      SuspicionStays(j, limits, arrivals[0], key, boot);
      forall i | 0 <= i < |arrivals| - 1 ensures Run(next, limits, arrivals[1..][..i]) == Run(j, limits, arrivals[..i + 1]) {
        assert arrivals[..i + 1][0] == arrivals[0] && arrivals[..i + 1][1..] == arrivals[1..][..i];
      }
      forall i | 0 <= i < |arrivals| - 1 ensures arrivals[1..][i] == arrivals[i + 1] {}
      SuspicionIsSticky(next, limits, arrivals[1..], key, boot);
      forall i | 0 <= i < |arrivals| && arrivals[i].message.Matched? && KeyOf(arrivals[i]) == key
        ensures var r := ReceiptOf(Run(j, limits, arrivals[..i]), limits, arrivals[i]); r.Some? ==> r.value.event.None?
      {
        if i > 0 {
          assert arrivals[1..][i - 1] == arrivals[i];
        }
      }
    }
  }

  function HighWater(j: JournalView, key: Key): int {
    if key in j.marks then j.marks[key].highWater else -1
  }

  predicate InBoot(j: JournalView, key: Key, boot: Id) {
    key in j.marks && j.marks[key].boot == boot
  }

  lemma HighWaterStays(j: JournalView, limits: Limits, a: Arrival, key: Key, boot: Id)
    requires InBoot(j, key, boot)
    requires Stores(j, limits, a) ==> !AnotherBoot(a, key, boot)
    ensures InBoot(After(j, limits, a), key, boot)
    ensures HighWater(After(j, limits, a), key) >= HighWater(j, key)
    ensures Stores(j, limits, a) && KeyOf(a) == key && !a.retained ==>
              HighWater(After(j, limits, a), key) >= a.message.envelope.event.sequence
  {
    OneSourceMoves(j, limits, a);
  }

  /** Within a boot the high water never falls, even across snapshots. */
  lemma {:induction false} HighWaterNeverFalls(j: JournalView, limits: Limits, arrivals: seq<Arrival>, key: Key, boot: Id)
    requires InBoot(j, key, boot)
    requires forall i | 0 <= i < |arrivals| && Stores(Run(j, limits, arrivals[..i]), limits, arrivals[i]) ::
               !AnotherBoot(arrivals[i], key, boot)
    ensures InBoot(Run(j, limits, arrivals), key, boot)
    ensures HighWater(Run(j, limits, arrivals), key) >= HighWater(j, key)
    decreases arrivals
  {
    hide Accept, Stores, AnotherBoot, After, InBoot, HighWater;
    if arrivals != [] {
      var next := After(j, limits, arrivals[0]);
      assert arrivals[..0] == [] && Run(j, limits, arrivals[..0]) == j;
      HighWaterStays(j, limits, arrivals[0], key, boot);
      forall i | 0 <= i < |arrivals| - 1 ensures Run(next, limits, arrivals[1..][..i]) == Run(j, limits, arrivals[..i + 1]) {
        assert arrivals[..i + 1][0] == arrivals[0] && arrivals[..i + 1][1..] == arrivals[1..][..i];
      }
      forall i | 0 <= i < |arrivals| - 1 ensures arrivals[1..][i] == arrivals[i + 1] {}
      HighWaterNeverFalls(next, limits, arrivals[1..], key, boot);
    }
  }
}
