/** The journal: receipts that stop an event being written twice, the entries themselves, and how
    far each source had got. One transaction writes all three or none.
  */
module Journal {
  import opened Wrappers
  import opened Wire

  datatype Mark = Mark(boot: Id, highWater: int, baselineTaken: bool, uncertain: bool, lastOccurredAt: Option<real>)

  /** Where a source stands that has said nothing yet in this boot. */
  function FreshMark(boot: Id): Mark {
    Mark(boot, -1, false, false, None)
  }

  datatype Classification = Live | Initial | Historic | Rejected

  datatype Reason =
    | Duplicate | Retained | InitialState | Replayed | Expired | TimeUncertain | OutOfOrder
    | IdReused | SequenceReused | InvalidEnvelope | IdentityMismatch | UnregisteredSource
    | SourceDisabled | StoreUnavailable

  datatype Entry = Entry(event: Event, delivery: Delivery, receivedAt: real, classification: Classification,
                         eligible: bool, reason: Option<Reason>)

  /** What the event says, apart from how it travelled. The journal keeps the SHA-256 of this. */
  datatype Contents = Contents(source: SourceId, boot: Id, sequence: nat, reading: Reading)

  function Fingerprint(e: Event): Contents {
    Contents(e.source, e.boot, e.sequence, e.reading)
  }

  datatype Outcome = Stored | SeenBefore | IdClash | SequenceClash

  /** A receipt: what was said under an id, and when it was received. */
  datatype Seal = Seal(contents: Contents, receivedAt: real)

  type Key = (NodeId, SourceId)

  datatype JournalView = JournalView(
    receipts: map<(NodeId, Id), Seal>,
    entries: seq<Entry>,
    marks: map<Key, Mark>)

  function Empty(): JournalView {
    JournalView(map[], [], map[])
  }

  predicate SameStream(a: Contents, e: Event) {
    a.boot == e.boot && a.source == e.source && a.sequence == e.sequence
  }

  /** Whether some receipt of this node already carries the event's number in its boot. */
  predicate NumberTaken(receipts: map<(NodeId, Id), Seal>, e: Event) {
    exists key | key in receipts.Keys :: key.0 == e.node && SameStream(receipts[key].contents, e)
  }

  function OutcomeOf(j: JournalView, e: Event): Outcome {
    if (e.node, e.eventId) in j.receipts then
      if j.receipts[(e.node, e.eventId)].contents == Fingerprint(e) then SeenBefore else IdClash
    else if NumberTaken(j.receipts, e) then SequenceClash
    else Stored
  }

  function Admit(j: JournalView, entry: Entry, mark: Mark): (JournalView, Outcome) {
    var e := entry.event;
    var outcome := OutcomeOf(j, e);
    if outcome != Stored then (j, outcome)
    else (JournalView(j.receipts[(e.node, e.eventId) := Seal(Fingerprint(e), entry.receivedAt)],
                      j.entries + [entry],
                      j.marks[(e.node, e.source) := mark]), Stored)
  }

  /** The widest integer a column holds. */
  const MAX_INTEGER: nat := 0x7FFF_FFFF_FFFF_FFFF

  /** A number the transaction comes to and cannot be handed to the database. */
  predicate TooWide(j: JournalView, e: Event, queuedMs: nat) {
    && (e.node, e.eventId) !in j.receipts
    && (e.sequence > MAX_INTEGER || (!NumberTaken(j.receipts, e) && queuedMs > MAX_INTEGER))
  }

  /** How the database takes a transaction: it does, it says it cannot, or it breaks off. */
  datatype WriteOutcome = Commits | Fails | Breaks

  datatype Written = Answered(outcome: Outcome) | NoDatabase | BrokeOff

  function Write(j: JournalView, entry: Entry, mark: Mark, write: WriteOutcome): (JournalView, Written) {
    if write.Fails? then (j, NoDatabase)
    else if write.Breaks? || TooWide(j, entry.event, entry.delivery.queuedMs) then (j, BrokeOff)
    else var (after, outcome) := Admit(j, entry, mark); (after, Answered(outcome))
  }

  // -- tidying ---------------------------------------------------------------------------------

  function ReceiptsSince(receipts: map<(NodeId, Id), Seal>, cutoff: real): map<(NodeId, Id), Seal> {
    map key | key in receipts && receipts[key].receivedAt >= cutoff :: receipts[key]
  }

  function EntriesSince(entries: seq<Entry>, cutoff: real): seq<Entry>
    decreases entries
  {
    if entries == [] then []
    else
      var before, last := EntriesSince(entries[..|entries| - 1], cutoff), entries[|entries| - 1];
      if last.receivedAt >= cutoff then before + [last] else before
  }

  function MarkOf(j: JournalView, node: NodeId, source: SourceId): Option<Mark> {
    if (node, source) in j.marks then Some(j.marks[(node, source)]) else None
  }

  class Store {
    var receipts: map<(NodeId, Id), Seal>
    var entries: seq<Entry>
    var marks: map<Key, Mark>

    function View(): JournalView
      reads this
    {
      JournalView(receipts, entries, marks)
    }

    constructor ()
      ensures View() == Empty()
    {
      receipts, entries, marks := map[], [], map[];
    }

    method AdmitEntry(entry: Entry, mark: Mark, write: WriteOutcome) returns (written: Written)
      modifies this
      ensures (View(), written) == Write(old(View()), entry, mark, write)
    {
      if write == Fails {
        return NoDatabase;
      }
      if write == Breaks {
        return BrokeOff;
      }
      var e := entry.event;
      if (e.node, e.eventId) in receipts {
        return Answered(if receipts[(e.node, e.eventId)].contents == Fingerprint(e) then SeenBefore else IdClash);
      }
      if e.sequence > MAX_INTEGER {
        return BrokeOff;
      }
      if NumberTaken(receipts, e) {
        return Answered(SequenceClash);
      }
      if entry.delivery.queuedMs > MAX_INTEGER {
        return BrokeOff;
      }
      receipts := receipts[(e.node, e.eventId) := Seal(Fingerprint(e), entry.receivedAt)];
      entries := entries + [entry];
      marks := marks[(e.node, e.source) := mark];
      return Answered(Stored);
    }

    /** Tidying: receipts past their retention go, and with them the memory of what was seen. */
    method ForgetReceipts(now: real, olderThan: real)
      modifies this
      ensures View() == old(View()).(receipts := ReceiptsSince(old(receipts), now - olderThan))
    {
      var cutoff := now - olderThan;
      receipts := map key | key in receipts && receipts[key].receivedAt >= cutoff :: receipts[key];
    }

    /** Tidying: visible history past its retention goes. */
    method ForgetEvents(now: real, olderThan: real)
      modifies this
      ensures View() == old(View()).(entries := EntriesSince(old(entries), now - olderThan))
    {
      entries := EntriesSince(entries, now - olderThan);
    }
  }

  /** Admitting the same event again changes nothing, whatever it is classified as. */
  lemma AdmittedOnce(j: JournalView, entry: Entry, mark: Mark, again: Entry, mark': Mark)
    requires again.event == entry.event
    requires Admit(j, entry, mark).1 == Stored
    ensures Admit(Admit(j, entry, mark).0, again, mark') == (Admit(j, entry, mark).0, SeenBefore)
  {
  }

  /** Tidying receipts forgets exactly those received too long ago, and keeps the others as they are; so an event is
      seen as new again exactly when everything that said otherwise has been forgotten. */
  lemma ForgettingKeepsTheRecent(j: JournalView, cutoff: real, e: Event)
    ensures var kept := ReceiptsSince(j.receipts, cutoff);
            && (forall key :: key in kept <==> key in j.receipts && j.receipts[key].receivedAt >= cutoff)
            && (forall key | key in kept :: kept[key] == j.receipts[key])
            && (OutcomeOf(j.(receipts := kept), e) == Stored <==>
                  forall key | key in j.receipts && key.0 == e.node && j.receipts[key].receivedAt >= cutoff ::
                    key.1 != e.eventId && !SameStream(j.receipts[key].contents, e))
  {
    var kept := ReceiptsSince(j.receipts, cutoff);
    if !NumberTaken(kept, e) {
      forall key | key in kept && key.0 == e.node ensures !SameStream(kept[key].contents, e) {
        assert key in kept.Keys;
      }
    }
  }

  lemma OneEntryMore(entries: seq<Entry>, last: Entry, cutoff: real)
    ensures EntriesSince(entries + [last], cutoff)
         == if last.receivedAt >= cutoff then EntriesSince(entries, cutoff) + [last] else EntriesSince(entries, cutoff)
  {
    assert (entries + [last])[..|entries|] == entries;
  }

  lemma {:induction false} TidyingTwice(entries: seq<Entry>, cutoff: real, later: real)
    requires later >= cutoff
    ensures EntriesSince(EntriesSince(entries, cutoff), later) == EntriesSince(entries, later)
    decreases entries
  {
    hide EntriesSince;
    if entries == [] {
      NoEntries(cutoff);
      NoEntries(later);
    } else {
      var front, last := entries[..|entries| - 1], entries[|entries| - 1];
      assert entries == front + [last];
      TidyingTwice(front, cutoff, later);
      OneEntryMore(front, last, cutoff);
      OneEntryMore(front, last, later);
      OneEntryMore(EntriesSince(front, cutoff), last, later);
    }
  }

  lemma NoEntries(cutoff: real)
    ensures EntriesSince([], cutoff) == []
  {
  }

  lemma {:induction false} OnlyTheOldGo(entries: seq<Entry>, cutoff: real)
    ensures forall e :: e in EntriesSince(entries, cutoff) <==> e in entries && e.receivedAt >= cutoff
    ensures (forall e | e in entries :: e.receivedAt >= cutoff) ==> EntriesSince(entries, cutoff) == entries
    decreases entries
  {
    hide EntriesSince;
    if entries == [] {
      NoEntries(cutoff);
    } else {
      var front, last := entries[..|entries| - 1], entries[|entries| - 1];
      assert entries == front + [last];
      OnlyTheOldGo(front, cutoff);
      OneEntryMore(front, last, cutoff);
    }
  }

  /** Tidying visible history deletes exactly what is too old, keeps the rest in order, and touches neither
      receipts nor marks; so what was seen is still known, and no source is believed again. */
  lemma TidyingKeepsTheRecent(entries: seq<Entry>, cutoff: real)
    ensures forall e :: e in EntriesSince(entries, cutoff) <==> e in entries && e.receivedAt >= cutoff
    ensures (forall e | e in entries :: e.receivedAt >= cutoff) ==> EntriesSince(entries, cutoff) == entries
    ensures forall later | later >= cutoff :: EntriesSince(EntriesSince(entries, cutoff), later) == EntriesSince(entries, later)
  {
    OnlyTheOldGo(entries, cutoff);
    forall later | later >= cutoff ensures EntriesSince(EntriesSince(entries, cutoff), later) == EntriesSince(entries, later) {
      TidyingTwice(entries, cutoff, later);
    }
  }
}
