/** What becomes of every arrival, told from the arrivals alone: which events are written down, where each source
    then stands, which of them reach the rules, and what the others are answered.
  */
module IngressProofs {
  import opened Wrappers
  import opened Wire
  import opened Journal
  import opened Ingress

  function EventIn(a: Arrival): Event
    requires a.message.Matched?
  {
    a.message.envelope.event
  }

  // -- which events are written down ---------------------------------------------------------------

  /** From its own sender, of a source that is there and on. */
  predicate Welcome(a: Arrival) {
    && a.message.Matched?
    && EventIn(a).node == a.node
    && (a.node, EventIn(a).source) in a.sources
    && a.sources[(a.node, EventIn(a).source)] == Ready
  }

  /** A journal that works, a moment with a form in UTC, and numbers that fit a column. */
  predicate Writable(a: Arrival)
    requires a.message.Matched?
  {
    && a.disk.read == Reads && a.disk.write == Commits
    && EventIn(a).reading.occurredAt.Utc?
    && EventIn(a).sequence < 0x8000_0000_0000_0000
    && a.message.envelope.delivery.queuedMs < 0x8000_0000_0000_0000
  }

  /** Two events that cannot both be written: of one node, under one id or under one number. */
  predicate Collides(e: Event, f: Event) {
    e.node == f.node && (e.eventId == f.eventId || (e.boot == f.boot && e.source == f.source && e.sequence == f.sequence))
  }

  /** Exactly the arrivals that are welcome, can be written and collide with none written before. */
  ghost predicate Taken(arrivals: seq<Arrival>, i: nat): (taken: bool)
    requires i < |arrivals|
    ensures taken ==> arrivals[i].message.Matched?
    decreases i
  {
    && Welcome(arrivals[i]) && Writable(arrivals[i])
    && forall k | 0 <= k < i && Taken(arrivals, k) :: !Collides(EventIn(arrivals[k]), EventIn(arrivals[i]))
  }

  function Before(limits: Limits, arrivals: seq<Arrival>, i: nat): JournalView
    requires i <= |arrivals|
  {
    Run(Empty(), limits, arrivals[..i])
  }

  lemma {:induction false} RunOneMore(j: JournalView, limits: Limits, arrivals: seq<Arrival>, last: Arrival)
    ensures Run(j, limits, arrivals + [last]) == After(Run(j, limits, arrivals), limits, last)
    decreases arrivals
  {
    hide After;
    if arrivals == [] {
      assert ([] + [last])[1..] == [];
    } else {
      assert (arrivals + [last])[1..] == arrivals[1..] + [last];
      RunOneMore(After(j, limits, arrivals[0]), limits, arrivals[1..], last);
    }
  }

  lemma OneMore(limits: Limits, arrivals: seq<Arrival>, i: nat)
    requires i < |arrivals|
    ensures Before(limits, arrivals, i + 1) == After(Before(limits, arrivals, i), limits, arrivals[i])
  {
    assert arrivals[..i + 1] == arrivals[..i] + [arrivals[i]];
    RunOneMore(Empty(), limits, arrivals[..i], arrivals[i]);
  }

  /** The receipts are those of the events taken so far. */
  ghost predicate ReceiptsTell(receipts: map<(NodeId, Id), Seal>, arrivals: seq<Arrival>, i: nat)
    requires i <= |arrivals|
  {
    && (forall k | 0 <= k < i && Taken(arrivals, k) ::
          && (EventIn(arrivals[k]).node, EventIn(arrivals[k]).eventId) in receipts
          && receipts[(EventIn(arrivals[k]).node, EventIn(arrivals[k]).eventId)] == Seal(Fingerprint(EventIn(arrivals[k])), arrivals[k].now))
    && (forall key | key in receipts ::
          exists k :: 0 <= k < i && Taken(arrivals, k) && key == (EventIn(arrivals[k]).node, EventIn(arrivals[k]).eventId))
  }

  /** No receipt says that this event, or another under its id or its number, was written. */
  ghost predicate Unknown(receipts: map<(NodeId, Id), Seal>, e: Event) {
    forall key | key in receipts :: key != (e.node, e.eventId) && !(key.0 == e.node && SameStream(receipts[key].contents, e))
  }

  lemma StoredMeans(j: JournalView, limits: Limits, a: Arrival)
    ensures Stores(j, limits, a) <==> Welcome(a) && Writable(a) && Unknown(j.receipts, EventIn(a))
  {
    if Welcome(a) {
      OutcomeMeans(j, EventIn(a));
      hide OutcomeOf, Unknown;
      if OutcomeOf(j, EventIn(a)) == Stored {
        NarrowMeans(j, EventIn(a), a.message.envelope.delivery.queuedMs);
      }
    }
  }

  lemma OutcomeMeans(j: JournalView, e: Event)
    ensures OutcomeOf(j, e) == Stored <==> Unknown(j.receipts, e)
  {
  }

  lemma NarrowMeans(j: JournalView, e: Event, queuedMs: nat)
    requires OutcomeOf(j, e) == Stored
    ensures TooWide(j, e, queuedMs) <==> e.sequence >= 0x8000_0000_0000_0000 || queuedMs >= 0x8000_0000_0000_0000
  {
  }

  lemma UnknownIsNotTaken(receipts: map<(NodeId, Id), Seal>, arrivals: seq<Arrival>, i: nat, e: Event)
    requires i <= |arrivals| && ReceiptsTell(receipts, arrivals, i)
    ensures Unknown(receipts, e) <==> forall k | 0 <= k < i && Taken(arrivals, k) :: !Collides(EventIn(arrivals[k]), e)
  {
    if Unknown(receipts, e) {
      forall k | 0 <= k < i && Taken(arrivals, k) ensures !Collides(EventIn(arrivals[k]), e) {
        var f := EventIn(arrivals[k]);
        assert receipts[(f.node, f.eventId)].contents == Fingerprint(f);
      }
    } else {
      var key :| key in receipts && (key == (e.node, e.eventId) || (key.0 == e.node && SameStream(receipts[key].contents, e)));
      var k :| 0 <= k < i && Taken(arrivals, k) && key == (EventIn(arrivals[k]).node, EventIn(arrivals[k]).eventId);
      assert Collides(EventIn(arrivals[k]), e);
    }
  }

  lemma TakenIsStored(limits: Limits, j: JournalView, arrivals: seq<Arrival>, i: nat)
    requires i < |arrivals| && ReceiptsTell(j.receipts, arrivals, i)
    ensures Stores(j, limits, arrivals[i]) <==> Taken(arrivals, i)
  {
    hide Stores, Unknown, ReceiptsTell, Collides;
    StoredMeans(j, limits, arrivals[i]);
    if Welcome(arrivals[i]) {
      UnknownIsNotTaken(j.receipts, arrivals, i, EventIn(arrivals[i]));
    }
  }

  lemma StoringWrites(j: JournalView, limits: Limits, a: Arrival)
    ensures !Stores(j, limits, a) ==> After(j, limits, a) == j
    ensures Stores(j, limits, a) ==>
              var e := EventIn(a);
              && (e.node, e.eventId) !in j.receipts
              && After(j, limits, a).receipts == j.receipts[(e.node, e.eventId) := Seal(Fingerprint(e), a.now)]
              && After(j, limits, a).marks == j.marks[KeyOf(a) := Decide(j, a.message.envelope, a.retained, a.now, limits).1]
  {
    hide Classify;
  }

  lemma ReceiptsGrow(receipts: map<(NodeId, Id), Seal>, arrivals: seq<Arrival>, i: nat)
    requires i < |arrivals| && ReceiptsTell(receipts, arrivals, i)
    ensures !Taken(arrivals, i) ==> ReceiptsTell(receipts, arrivals, i + 1)
    ensures Taken(arrivals, i) ==>
              var e := EventIn(arrivals[i]);
              (e.node, e.eventId) !in receipts ==>
              ReceiptsTell(receipts[(e.node, e.eventId) := Seal(Fingerprint(e), arrivals[i].now)], arrivals, i + 1)
  {
    hide Taken;
    if Taken(arrivals, i) {
      TakenIsMatched(arrivals, i);
      var e := EventIn(arrivals[i]);
      if (e.node, e.eventId) !in receipts {
        var after := receipts[(e.node, e.eventId) := Seal(Fingerprint(e), arrivals[i].now)];
        forall key | key in after
          ensures exists k :: 0 <= k < i + 1 && Taken(arrivals, k) && key == (EventIn(arrivals[k]).node, EventIn(arrivals[k]).eventId)
        {
          if key == (e.node, e.eventId) {
            assert Taken(arrivals, i);
          } else {
            var k :| 0 <= k < i && Taken(arrivals, k) && key == (EventIn(arrivals[k]).node, EventIn(arrivals[k]).eventId);
          }
        }
      }
    }
  }

  lemma TakenIsMatched(arrivals: seq<Arrival>, i: nat)
    requires i < |arrivals| && Taken(arrivals, i)
    ensures Welcome(arrivals[i]) && Writable(arrivals[i])
  {
  }

  lemma {:induction false} JournalTells(limits: Limits, arrivals: seq<Arrival>, i: nat)
    requires i <= |arrivals|
    ensures ReceiptsTell(Before(limits, arrivals, i).receipts, arrivals, i)
    decreases i
  {
    hide After, Stores, Taken, ReceiptsTell, Before;
    if i == 0 {
      NothingToTell(limits, arrivals);
    } else {
      var j := Before(limits, arrivals, i - 1);
      JournalTells(limits, arrivals, i - 1);
      OneMore(limits, arrivals, i - 1);
      TakenIsStored(limits, j, arrivals, i - 1);
      StoringWrites(j, limits, arrivals[i - 1]);
      ReceiptsGrow(j.receipts, arrivals, i - 1);
    }
  }

  lemma NothingToTell(limits: Limits, arrivals: seq<Arrival>)
    ensures Before(limits, arrivals, 0) == Empty() && ReceiptsTell(map[], arrivals, 0)
  {
  }

  /** Over any arrivals: one is written down if and only if it is welcome, can be written, and no other of its
      node was written before under its id or its number. */
  lemma StoredExactly(limits: Limits, arrivals: seq<Arrival>, i: nat)
    requires i < |arrivals|
    ensures Stores(Before(limits, arrivals, i), limits, arrivals[i]) <==> Taken(arrivals, i)
  {
    hide Stores, Taken, ReceiptsTell, Before;
    JournalTells(limits, arrivals, i);
    TakenIsStored(limits, Before(limits, arrivals, i), arrivals, i);
  }

  // -- where a source stands -----------------------------------------------------------------------

  predicate IsOf(a: Arrival, key: Key)
    requires a.message.Matched?
  {
    (EventIn(a).node, EventIn(a).source) == key
  }

  /** What was written down of a source in a boot since it was last written down in another, without what the
      broker kept back from some earlier time. */
  ghost function HeardIn(arrivals: seq<Arrival>, key: Key, boot: Id, i: nat): (heard: seq<Arrival>)
    requires i <= |arrivals|
    ensures forall k | 0 <= k < |heard| :: heard[k].message.Matched? && Writable(heard[k])
    decreases i
  {
    if i == 0 then []
    else
      var before, last := HeardIn(arrivals, key, boot, i - 1), arrivals[i - 1];
      if !Taken(arrivals, i - 1) || !IsOf(last, key) then before
      else if EventIn(last).boot != boot then []
      else if last.retained then before
      else before + [last]
  }

  ghost predicate AllMatched(heard: seq<Arrival>) {
    forall k | 0 <= k < |heard| :: heard[k].message.Matched? && EventIn(heard[k]).reading.occurredAt.Utc?
  }

  /** A clock that is not synced, or that runs ahead of the hub's by more than is tolerated. */
  predicate BadlyClocked(limits: Limits, a: Arrival)
    requires a.message.Matched? && EventIn(a).reading.occurredAt.Utc?
  {
    EventIn(a).clock != Synced || EventIn(a).reading.occurredAt.seconds - a.now > limits.futureTolerance
  }

  predicate IsSnapshot(a: Arrival)
    requires a.message.Matched?
  {
    a.message.envelope.delivery.initialState
  }

  /** A badly clocked reading, and no well clocked snapshot since. */
  ghost predicate UnderSuspicion(limits: Limits, heard: seq<Arrival>)
    requires AllMatched(heard)
  {
    exists k | 0 <= k < |heard| ::
      BadlyClocked(limits, heard[k]) && forall m | k < m < |heard| :: !IsSnapshot(heard[m]) || BadlyClocked(limits, heard[m])
  }

  /** The largest of the numbers heard, or none. */
  ghost predicate IsHighest(highWater: int, heard: seq<Arrival>)
    requires AllMatched(heard)
  {
    && (forall k | 0 <= k < |heard| :: EventIn(heard[k]).sequence <= highWater)
    && (heard == [] ==> highWater == -1)
    && (heard != [] ==> exists k | 0 <= k < |heard| :: EventIn(heard[k]).sequence == highWater)
  }

  /** A mark that says what was heard, and nothing else. */
  ghost predicate Tells(limits: Limits, mark: Mark, heard: seq<Arrival>)
    requires AllMatched(heard)
  {
    && IsHighest(mark.highWater, heard)
    && (mark.uncertain <==> UnderSuspicion(limits, heard))
    && (mark.baselineTaken <==> exists k | 0 <= k < |heard| :: IsSnapshot(heard[k]))
    && mark.lastOccurredAt == (if heard == [] then None else Some(EventIn(heard[|heard| - 1]).reading.occurredAt.seconds))
  }

  /** Where a source stands in a boot, as far as the journal knows. */
  function PositionIn(j: JournalView, key: Key, boot: Id): Mark {
    Position(MarkOf(j, key.0, key.1), boot)
  }

  lemma OneMoreIsTold(limits: Limits, mark: Mark, heard: seq<Arrival>, a: Arrival)
    requires AllMatched(heard) && Tells(limits, mark, heard)
    requires a.message.Matched? && EventIn(a).reading.occurredAt.Utc? && !a.retained
    ensures AllMatched(heard + [a])
    ensures Tells(limits, Classify(EventIn(a), a.message.envelope.delivery, mark, a.retained, a.now, limits).mark, heard + [a])
  {
    hide IsHighest, UnderSuspicion, BadlyClocked, IsSnapshot, Classify;
    HighestGrows(mark.highWater, heard, a);
    SuspicionGrows(limits, heard, a);
    SnapshotsGrow(heard, a);
    MarkAfter(limits, mark, a);
    assert (heard + [a])[|heard|] == a;
  }

  /** What one arrival that was not kept back does to the mark. */
  lemma MarkAfter(limits: Limits, mark: Mark, a: Arrival)
    requires a.message.Matched? && EventIn(a).reading.occurredAt.Utc? && !a.retained
    ensures var after := Classify(EventIn(a), a.message.envelope.delivery, mark, a.retained, a.now, limits).mark;
            && after.highWater == (if mark.highWater >= EventIn(a).sequence then mark.highWater else EventIn(a).sequence)
            && after.uncertain == (BadlyClocked(limits, a) || (mark.uncertain && !IsSnapshot(a)))
            && after.baselineTaken == (mark.baselineTaken || IsSnapshot(a))
            && after.lastOccurredAt == Some(EventIn(a).reading.occurredAt.seconds)
  {
  }

  lemma SnapshotsGrow(heard: seq<Arrival>, a: Arrival)
    requires AllMatched(heard) && a.message.Matched? && EventIn(a).reading.occurredAt.Utc?
    ensures AllMatched(heard + [a])
    ensures (exists k | 0 <= k < |heard + [a]| :: IsSnapshot((heard + [a])[k]))
       <==> (exists k | 0 <= k < |heard| :: IsSnapshot(heard[k])) || IsSnapshot(a)
  {
    var all := heard + [a];
    assert all[|heard|] == a;
    if exists k | 0 <= k < |heard| :: IsSnapshot(heard[k]) {
      var k :| 0 <= k < |heard| && IsSnapshot(heard[k]);
      assert IsSnapshot(all[k]);
    }
  }

  lemma HighestGrows(highWater: int, heard: seq<Arrival>, a: Arrival)
    requires AllMatched(heard) && IsHighest(highWater, heard) && a.message.Matched? && EventIn(a).reading.occurredAt.Utc?
    ensures AllMatched(heard + [a])
    ensures IsHighest(if highWater >= EventIn(a).sequence then highWater else EventIn(a).sequence, heard + [a])
  {
    var all := heard + [a];
    assert all[|heard|] == a;
    if heard != [] {
      var k :| 0 <= k < |heard| && EventIn(heard[k]).sequence == highWater;
      assert all[k] == heard[k];
    }
  }

  lemma SuspicionGrows(limits: Limits, heard: seq<Arrival>, a: Arrival)
    requires AllMatched(heard) && a.message.Matched? && EventIn(a).reading.occurredAt.Utc?
    ensures AllMatched(heard + [a])
    ensures UnderSuspicion(limits, heard + [a]) <==>
              BadlyClocked(limits, a) || (UnderSuspicion(limits, heard) && !IsSnapshot(a))
  {
    var all := heard + [a];
    assert all[|heard|] == a;
    if UnderSuspicion(limits, heard) && !IsSnapshot(a) {
      var k :| 0 <= k < |heard| && BadlyClocked(limits, heard[k])
        && forall m | k < m < |heard| :: !IsSnapshot(heard[m]) || BadlyClocked(limits, heard[m]);
      assert all[k] == heard[k];
    }
    if UnderSuspicion(limits, all) && !BadlyClocked(limits, a) {
      var k :| 0 <= k < |all| && BadlyClocked(limits, all[k])
        && forall m | k < m < |all| :: !IsSnapshot(all[m]) || BadlyClocked(limits, all[m]);
      assert all[k] == heard[k];
      forall m | k < m < |heard| ensures !IsSnapshot(heard[m]) || BadlyClocked(limits, heard[m]) {
        assert all[m] == heard[m];
      }
    }
  }

  lemma WrittenMark(j: JournalView, limits: Limits, a: Arrival, key: Key, boot: Id)
    ensures var after := After(j, limits, a);
            !Stores(j, limits, a) || !IsOf(a, key) ==> PositionIn(after, key, boot) == PositionIn(j, key, boot)
    ensures Stores(j, limits, a) && IsOf(a, key) ==>
              var after := PositionIn(After(j, limits, a), key, boot);
              after == if EventIn(a).boot != boot then FreshMark(boot)
                       else Classify(EventIn(a), a.message.envelope.delivery, PositionIn(j, key, boot), a.retained, a.now, limits).mark
  {
    hide Stores;
    StoringWrites(j, limits, a);
    StoredMeans(j, limits, a);
    hide After;
  }

  /** Over any arrivals, for any source and any boot: where the source stands is the largest number heard of it in
      that boot, whether a badly clocked reading of it still stands, whether it has said where it stood, and
      when it last spoke. Retained copies, other sources and whatever was not written down do not count, and a
      boot begins with nothing. */
  lemma {:induction false} PositionIsTold(limits: Limits, arrivals: seq<Arrival>, i: nat, key: Key, boot: Id)
    requires i <= |arrivals|
    ensures Tells(limits, PositionIn(Before(limits, arrivals, i), key, boot), HeardIn(arrivals, key, boot, i))
    decreases i
  {
    hide After, Stores, Taken, Before, Tells, Classify, Position;
    if i == 0 {
      NothingHeard(limits, arrivals, key, boot);
    } else {
      var j, last := Before(limits, arrivals, i - 1), arrivals[i - 1];
      PositionIsTold(limits, arrivals, i - 1, key, boot);
      OneMore(limits, arrivals, i - 1);
      StoredExactly(limits, arrivals, i - 1);
      WrittenMark(j, limits, last, key, boot);
      if Taken(arrivals, i - 1) && IsOf(last, key) && EventIn(last).boot == boot {
        TakenIsMatched(arrivals, i - 1);
        if last.retained {
          KeptBackMovesNothing(limits, PositionIn(j, key, boot), last);
        } else {
          OneMoreIsTold(limits, PositionIn(j, key, boot), HeardIn(arrivals, key, boot, i - 1), last);
        }
      }
      FreshTellsNothing(limits, boot);
    }
  }

  lemma NothingHeard(limits: Limits, arrivals: seq<Arrival>, key: Key, boot: Id)
    ensures PositionIn(Before(limits, arrivals, 0), key, boot) == FreshMark(boot)
    ensures Tells(limits, FreshMark(boot), [])
  {
  }

  lemma FreshTellsNothing(limits: Limits, boot: Id)
    ensures Tells(limits, FreshMark(boot), [])
  {
  }

  lemma KeptBackMovesNothing(limits: Limits, mark: Mark, a: Arrival)
    requires a.message.Matched? && EventIn(a).reading.occurredAt.Utc? && a.retained
    ensures Classify(EventIn(a), a.message.envelope.delivery, mark, a.retained, a.now, limits).mark == mark
  {
  }

  // -- what reaches the rules -------------------------------------------------------------------------

  /** A reading told as it happened, by a good clock, and heard in time. */
  predicate IsNews(limits: Limits, a: Arrival)
    requires a.message.Matched? && EventIn(a).reading.occurredAt.Utc?
  {
    && !a.retained && !a.message.envelope.delivery.initialState && !a.message.envelope.delivery.replayed
    && !BadlyClocked(limits, a)
    && a.now - EventIn(a).reading.occurredAt.seconds <= limits.acceptWithin
  }

  /** Over any arrivals: an event is handed on if and only if it is written down, is news, its source is under no
      suspicion in this boot, and its number is above every other heard of its source in this boot. What is
      handed on is that event, as it came. */
  lemma HandedOnExactly(limits: Limits, arrivals: seq<Arrival>, i: nat)
    requires i < |arrivals|
    ensures var r := ReceiptOf(Before(limits, arrivals, i), limits, arrivals[i]);
            && (r.Some? && r.value.event.Some? <==>
                  && Taken(arrivals, i) && Writable(arrivals[i]) && IsNews(limits, arrivals[i])
                  && var e := EventIn(arrivals[i]);
                     var heard := HeardIn(arrivals, (e.node, e.source), e.boot, i);
                     && !UnderSuspicion(limits, heard)
                     && forall k | 0 <= k < |heard| :: EventIn(heard[k]).sequence < e.sequence)
            && (r.Some? && r.value.event.Some? ==>
                  r.value.event.value == Entry(EventIn(arrivals[i]), arrivals[i].message.envelope.delivery, arrivals[i].now, Live, true, None))
  {
    hide Stores, Taken, Before, Accept, UnderSuspicion;
    var j, a := Before(limits, arrivals, i), arrivals[i];
    StoredExactly(limits, arrivals, i);
    StoredMeans(j, limits, a);
    LiveIsStored(j, limits, a);
    if Taken(arrivals, i) {
      TakenIsMatched(arrivals, i);
      var e := EventIn(a);
      PositionIsTold(limits, arrivals, i, (e.node, e.source), e.boot);
      AboveTheHighest(PositionIn(j, (e.node, e.source), e.boot).highWater, HeardIn(arrivals, (e.node, e.source), e.boot, i), e.sequence);
    }
  }

  lemma AboveTheHighest(highWater: int, heard: seq<Arrival>, sequence: nat)
    requires AllMatched(heard) && IsHighest(highWater, heard)
    ensures sequence > highWater <==> forall k | 0 <= k < |heard| :: EventIn(heard[k]).sequence < sequence
  {
  }

  lemma LiveIsStored(j: JournalView, limits: Limits, a: Arrival)
    ensures var r := ReceiptOf(j, limits, a);
            && (r.Some? && r.value.event.Some? <==>
                  && Stores(j, limits, a) && EventIn(a).reading.occurredAt.Utc? && IsNews(limits, a)
                  && var mark := PositionIn(j, (EventIn(a).node, EventIn(a).source), EventIn(a).boot);
                     !mark.uncertain && EventIn(a).sequence > mark.highWater)
            && (r.Some? && r.value.event.Some? ==>
                  r.value.event.value == Entry(EventIn(a), a.message.envelope.delivery, a.now, Live, true, None))
  {
    hide OutcomeOf, TooWide;
  }

  // -- what the others are answered ---------------------------------------------------------------------

  /** Why a written event is not live: the first of these that holds. */
  ghost function WhyNot(limits: Limits, heard: seq<Arrival>, a: Arrival): Option<Reason>
    requires AllMatched(heard) && a.message.Matched? && EventIn(a).reading.occurredAt.Utc?
  {
    if a.retained then Some(Retained)
    else if a.message.envelope.delivery.initialState then Some(InitialState)
    else if a.message.envelope.delivery.replayed then Some(Replayed)
    else if BadlyClocked(limits, a) || UnderSuspicion(limits, heard) then Some(TimeUncertain)
    else if a.now - EventIn(a).reading.occurredAt.seconds > limits.acceptWithin then Some(Expired)
    else if exists k | 0 <= k < |heard| :: EventIn(heard[k]).sequence >= EventIn(a).sequence then Some(OutOfOrder)
    else None
  }

  /** Over any arrivals: an event that is written down is answered so, with the reason it is history for; and
      only a snapshot that was not kept back is an initial state. */
  lemma WrittenIsAnswered(limits: Limits, arrivals: seq<Arrival>, i: nat)
    requires i < |arrivals| && Taken(arrivals, i)
    ensures Writable(arrivals[i])
    ensures var (a, r) := (arrivals[i], ReceiptOf(Before(limits, arrivals, i), limits, arrivals[i]));
            var e := EventIn(a);
            var why := WhyNot(limits, HeardIn(arrivals, (e.node, e.source), e.boot, i), a);
            && r.Some? && r.value.stored && r.value.settle && r.value.reason == why
            && r.value.waitedMs == Some(a.message.envelope.delivery.queuedMs)
            && r.value.classification == (if why.None? then Live else if why == Some(InitialState) then Initial else Historic)
            && r.value.eligible == why.None?
  {
    hide Stores, Taken, Before, UnderSuspicion, Tells;
    var j, a := Before(limits, arrivals, i), arrivals[i];
    StoredExactly(limits, arrivals, i);
    TakenIsMatched(arrivals, i);
    var e := EventIn(a);
    var mark, heard := PositionIn(j, (e.node, e.source), e.boot), HeardIn(arrivals, (e.node, e.source), e.boot, i);
    PositionIsTold(limits, arrivals, i, (e.node, e.source), e.boot);
    TellsThese(limits, mark, heard);
    AboveTheHighest(mark.highWater, heard, e.sequence);
    StoredIsAnswered(j, limits, a);
  }

  lemma TellsThese(limits: Limits, mark: Mark, heard: seq<Arrival>)
    requires AllMatched(heard) && Tells(limits, mark, heard)
    ensures IsHighest(mark.highWater, heard) && (mark.uncertain <==> UnderSuspicion(limits, heard))
  {
  }

  lemma StoredIsAnswered(j: JournalView, limits: Limits, a: Arrival)
    requires Stores(j, limits, a)
    ensures EventIn(a).reading.occurredAt.Utc?
    ensures var r := ReceiptOf(j, limits, a);
            var mark := PositionIn(j, (EventIn(a).node, EventIn(a).source), EventIn(a).boot);
            var why := if a.retained then Some(Retained)
                       else if a.message.envelope.delivery.initialState then Some(InitialState)
                       else if a.message.envelope.delivery.replayed then Some(Replayed)
                       else if BadlyClocked(limits, a) || mark.uncertain then Some(TimeUncertain)
                       else if a.now - EventIn(a).reading.occurredAt.seconds > limits.acceptWithin then Some(Expired)
                       else if EventIn(a).sequence <= mark.highWater then Some(OutOfOrder)
                       else None;
            && r.Some? && r.value.stored && r.value.settle && r.value.reason == why
            && r.value.waitedMs == Some(a.message.envelope.delivery.queuedMs)
            && r.value.classification == (if why.None? then Live else if why == Some(InitialState) then Initial else Historic)
            && r.value.eligible == why.None?
  {
    hide OutcomeOf, TooWide, TurnedAway;
  }

  /** What one arrival is answered that is not written down: nothing, or a reason. Only when the journal could
      not be asked is it to be sent again. */
  ghost predicate TurnedDown(r: Option<Receipt>, reason: Reason, classification: Classification) {
    r == Some(Receipt(classification, false, false, Some(reason), None, None, reason != StoreUnavailable))
  }

  ghost predicate SentBefore(arrivals: seq<Arrival>, i: nat, e: Event, same: bool)
    requires i <= |arrivals|
  {
    exists k | 0 <= k < i :: Taken(arrivals, k) && EventIn(arrivals[k]).node == e.node && EventIn(arrivals[k]).eventId == e.eventId
                             && (SaysTheSame(EventIn(arrivals[k]), e) <==> same)
  }

  predicate SaysTheSame(e: Event, f: Event) {
    e.source == f.source && e.boot == f.boot && e.sequence == f.sequence && e.reading == f.reading
  }

  ghost predicate NumberedBefore(arrivals: seq<Arrival>, i: nat, e: Event)
    requires i <= |arrivals|
  {
    exists k | 0 <= k < i :: Taken(arrivals, k) && EventIn(arrivals[k]).node == e.node
                             && EventIn(arrivals[k]).boot == e.boot && EventIn(arrivals[k]).source == e.source
                             && EventIn(arrivals[k]).sequence == e.sequence
  }

  /** Over any arrivals, what is answered to one that is not written down: who sent it comes first, then the
      source, the journal, and what was written before. */
  lemma TheRestAreAnswered(limits: Limits, arrivals: seq<Arrival>, i: nat)
    requires i < |arrivals| && !Taken(arrivals, i)
    ensures var (a, r) := (arrivals[i], ReceiptOf(Before(limits, arrivals, i), limits, arrivals[i]));
            if a.message.Unmatched? then TurnedDown(r, InvalidEnvelope, Rejected)
            else
              var e := EventIn(a);
              if e.node != a.node then TurnedDown(r, IdentityMismatch, Rejected)
              else if (a.node, e.source) !in a.sources then TurnedDown(r, UnregisteredSource, Rejected)
              else if a.sources[(a.node, e.source)] != Ready then TurnedDown(r, SourceDisabled, Rejected)
              else if a.disk.read == Closed then TurnedDown(r, StoreUnavailable, Rejected)
              else if a.disk.read != Reads || !e.reading.occurredAt.Utc? then r == None
              else if a.disk.write == Fails then TurnedDown(r, StoreUnavailable, Rejected)
              else if a.disk.write != Commits then r == None
              else if SentBefore(arrivals, i, e, true) then TurnedDown(r, Duplicate, Historic)
              else if SentBefore(arrivals, i, e, false) then TurnedDown(r, IdReused, Historic)
              else if e.sequence >= 0x8000_0000_0000_0000 then r == None
              else if NumberedBefore(arrivals, i, e) then TurnedDown(r, SequenceReused, Historic)
              else r == None
  {
    hide Stores, Taken, Before, ReceiptsTell, SentBefore, NumberedBefore, Classify;
    var j, a := Before(limits, arrivals, i), arrivals[i];
    JournalTells(limits, arrivals, i);
    StoredExactly(limits, arrivals, i);
    if Welcome(a) {
      KnownIsTold(j.receipts, arrivals, i, EventIn(a));
      StoredMeans(j, limits, a);
      NotStoredIsAnswered(j, limits, a);
    }
  }

  /** The receipts say what was written before under this id and this number. */
  lemma KnownIsTold(receipts: map<(NodeId, Id), Seal>, arrivals: seq<Arrival>, i: nat, e: Event)
    requires i <= |arrivals| && ReceiptsTell(receipts, arrivals, i)
    ensures (e.node, e.eventId) in receipts <==> SentBefore(arrivals, i, e, true) || SentBefore(arrivals, i, e, false)
    ensures (e.node, e.eventId) in receipts ==>
              (receipts[(e.node, e.eventId)].contents == Fingerprint(e) <==> SentBefore(arrivals, i, e, true))
    ensures NumberTaken(receipts, e) <==> NumberedBefore(arrivals, i, e)
  {
    hide Taken;
    if (e.node, e.eventId) in receipts {
      var k :| 0 <= k < i && Taken(arrivals, k) && (e.node, e.eventId) == (EventIn(arrivals[k]).node, EventIn(arrivals[k]).eventId);
      assert receipts[(e.node, e.eventId)].contents == Fingerprint(EventIn(arrivals[k]));
      assert SentBefore(arrivals, i, e, SaysTheSame(EventIn(arrivals[k]), e));
    }
    if NumberTaken(receipts, e) {
      var key :| key in receipts.Keys && key.0 == e.node && SameStream(receipts[key].contents, e);
      var k :| 0 <= k < i && Taken(arrivals, k) && key == (EventIn(arrivals[k]).node, EventIn(arrivals[k]).eventId);
      assert receipts[key].contents == Fingerprint(EventIn(arrivals[k]));
    }
    if NumberedBefore(arrivals, i, e) {
      var k :| 0 <= k < i && Taken(arrivals, k) && EventIn(arrivals[k]).node == e.node
        && EventIn(arrivals[k]).boot == e.boot && EventIn(arrivals[k]).source == e.source
        && EventIn(arrivals[k]).sequence == e.sequence;
      var key := (EventIn(arrivals[k]).node, EventIn(arrivals[k]).eventId);
      assert key in receipts.Keys && SameStream(receipts[key].contents, e);
    }
  }

  lemma NotStoredIsAnswered(j: JournalView, limits: Limits, a: Arrival)
    requires Welcome(a) && !Stores(j, limits, a)
    ensures var (e, r) := (EventIn(a), ReceiptOf(j, limits, a));
            if a.disk.read == Closed then TurnedDown(r, StoreUnavailable, Rejected)
            else if a.disk.read != Reads || !e.reading.occurredAt.Utc? then r == None
            else if a.disk.write == Fails then TurnedDown(r, StoreUnavailable, Rejected)
            else if a.disk.write != Commits then r == None
            else if (e.node, e.eventId) in j.receipts then
              TurnedDown(r, if j.receipts[(e.node, e.eventId)].contents == Fingerprint(e) then Duplicate else IdReused, Historic)
            else if e.sequence >= 0x8000_0000_0000_0000 then r == None
            else if NumberTaken(j.receipts, e) then TurnedDown(r, SequenceReused, Historic)
            else r == None
  {
    hide Classify, NumberTaken;
  }
}
