/** What goes out of a node, told by what was read, when, and when the link came up. */
module SendingProofs {
  import opened Wrappers
  import opened Wire
  import opened Agent
  import opened AgentProofs
  import Numbering
  import Spool
  import Seen

  // -- one message ----------------------------------------------------------------------------------

  /** Whole milliseconds between two moments. */
  predicate IsWholeMs(ms: nat, from: real, to: real) {
    if to <= from then ms == 0 else ms as real <= (to - from) * 1000.0 < ms as real + 1.0
  }

  /** A message is published exactly under a grant that holds when it is looked at last, if the client takes it. Then
      it is the item itself, on the current connection, under that grant and in its epoch; it tells the whole
      milliseconds it waited at the first reading of the clock; and it is a replay exactly if it was waiting for the
      link for longer than the clock ran between the two readings and the part of its wait that is not told. */
  lemma WhatIsPublished(a: AgentView, limits: Spool.Limits, held: Spool.Held<Event>, t: Attempt)
    ensures var sent := Send(a, limits, held, t).1;
            && (sent.Some? <==> a.grant.Some? && t.checked < a.grant.value.expiresAt && t.link == Took)
            && (sent.Some? ==>
                  var d := sent.value.delivery;
                  && sent.value.event == held.item
                  && d.connection == a.connection && d.hubEpoch == a.grant.value.hubEpoch
                  && d.grantId == Some(a.grant.value.grantId) && d.initialState == held.initial
                  && IsWholeMs(d.queuedMs, held.queuedAt, t.asked)
                  && (d.replayed <==>
                        a.linkedAt - held.queuedAt
                        > (t.marked - t.asked) + ((t.asked - held.queuedAt) - d.queuedMs as real / 1000.0)))
  {
    hide Spool.Requeue;
    var waited := (t.asked - held.queuedAt) * 1000.0;
    assert waited.Floor as real <= waited < waited.Floor as real + 1.0;
  }

  /** What becomes of a message that is sent: published, refused for its size and counted, or put back in front of what
      came in meanwhile. */
  lemma WhatBecomesOfIt(a: AgentView, limits: Spool.Limits, held: Spool.Held<Event>, t: Attempt)
    requires a.spool.bytes == Spool.Sizes(a.spool.items)
    ensures var (after, sent) := Send(a, limits, held, t);
            var granted := a.grant.Some? && t.checked < a.grant.value.expiresAt;
            && (granted && t.link == Took ==> sent.Some? && after == a.(published := a.published + 1))
            && (granted && t.link == TooBig ==> sent.None? && after == a.(refused := a.refused + 1))
            && (!granted || t.link == WouldNot ==>
                  && sent.None? && after == a.(spool := after.spool)
                  && after.spool.items == Spool.First([held] + a.spool.items, limits.maxCount))
  {
    hide Spool.Requeue, Spool.Sizes;
    Spool.RequeueKeepsTheOldest(a.spool, limits, held);
  }

  /** What a round takes up: nothing without a grant of events that is in force; else, in order, the oldest that are not
      too old, eight of them if there are as many. */
  lemma WhatIsTakenUp(a: AgentView, limits: Spool.Limits, granted: real, taken: real) returns (stale: nat)
    requires a.spool.bytes == Spool.Sizes(a.spool.items)
    ensures var (after, batch) := TakeBatch(a, limits, granted, taken);
            var items := a.spool.items;
            if a.grant.None? || a.grant.value.capability != Events || granted >= a.grant.value.expiresAt then after == a && batch == []
            else
              && stale <= |items| && items[stale..] == batch + after.spool.items
              && |batch| == (if |items| - stale <= 8 then |items| - stale else 8)
              && (forall i | 0 <= i < stale :: items[i].queuedAt < taken - limits.maxAge)
              && (stale < |items| ==> items[stale].queuedAt >= taken - limits.maxAge)
              && after == a.(spool := after.spool) && after.spool.drops == a.spool.drops.(age := a.spool.drops.age + stale)
  {
    hide Spool.Take, Spool.Sizes;
    stale := Spool.TakeHandsOutTheOldest(a.spool, limits, 8, taken);
  }

  // -- what a process has read ------------------------------------------------------------------------

  /** How many numbers a source has used up: one for every reading of it that has a name. */
  function Used(readings: seq<Recorded>, source: SourceId): nat
    decreases readings
  {
    if readings == [] then 0
    else
      var last := readings[|readings| - 1].sample;
      Used(readings[..|readings| - 1], source) + if last.source == source && last.fit != BadName then 1 else 0
  }

  /** The event made of the `p`-th reading: what the reading says, and how many of its source came before it. */
  function EventTold(node: NodeId, boot: Id, readings: seq<Recorded>, p: nat): Event
    requires p < |readings|
  {
    var s := readings[p].sample;
    Event(s.eventId, node, s.source, boot, Used(readings[..p], s.source), s.reading, s.clock)
  }

  /** Something held: the event of one of the readings, queued when that was read. */
  ghost predicate IsOneRead(node: NodeId, boot: Id, readings: seq<Recorded>, held: Spool.Held<Event>) {
    exists p | 0 <= p < |readings| :: IsReading(node, boot, readings, p, held)
  }

  predicate IsReading(node: NodeId, boot: Id, readings: seq<Recorded>, p: nat, held: Spool.Held<Event>)
    requires p < |readings|
  {
    && readings[p].sample.fit == Sendable
    && held == Spool.Held(EventTold(node, boot, readings, p), readings[p].sample.size, readings[p].at, readings[p].sample.initial)
  }

  ghost predicate AreRead(node: NodeId, boot: Id, readings: seq<Recorded>, items: seq<Spool.Held<Event>>) {
    forall i | 0 <= i < |items| :: IsOneRead(node, boot, readings, items[i])
  }

  /** When the link last came up, and what the connection is called that was last tried. */
  function LinkUp(ops: seq<Op>): real
    decreases ops
  {
    if ops == [] then 0.0
    else var last := ops[|ops| - 1]; if last.Connects? && last.up then last.at else LinkUp(ops[..|ops| - 1])
  }

  function LastTried(connection: Id, ops: seq<Op>): Id
    decreases ops
  {
    if ops == [] then connection
    else var last := ops[|ops| - 1]; if last.Connects? then last.connection else LastTried(connection, ops[..|ops| - 1])
  }

  ghost predicate Traced(node: NodeId, boot: Id, readings: seq<Recorded>, r: Running) {
    && r.view.node == node && r.view.boot == boot
    && (forall source :: Numbering.Next(r.view.next, source) == Used(readings, source))
    && AreRead(node, boot, readings, r.view.spool.items) && AreRead(node, boot, readings, r.hand)
    && r.view.spool.bytes == Spool.Sizes(r.view.spool.items)
  }

  lemma StillRead(node: NodeId, boot: Id, readings: seq<Recorded>, more: seq<Recorded>, items: seq<Spool.Held<Event>>)
    requires AreRead(node, boot, readings, items)
    ensures AreRead(node, boot, readings + more, items)
  {
    forall i | 0 <= i < |items| ensures IsOneRead(node, boot, readings + more, items[i]) {
      assert IsOneRead(node, boot, readings, items[i]);
      var p :| 0 <= p < |readings| && IsReading(node, boot, readings, p, items[i]);
      assert (readings + more)[..p] == readings[..p];
      assert IsReading(node, boot, readings + more, p, items[i]);
    }
  }

  lemma UsedMore(readings: seq<Recorded>, last: Recorded, source: SourceId)
    ensures Used(readings + [last], source)
         == Used(readings, source) + if last.sample.source == source && last.sample.fit != BadName then 1 else 0
  {
    assert (readings + [last])[..|readings|] == readings;
  }

  lemma NumbersAfter(a: AgentView, limits: Spool.Limits, readings: seq<Recorded>, s: Recorded)
    requires forall source :: Numbering.Next(a.next, source) == Used(readings, source)
    ensures forall source :: Numbering.Next(Record(a, limits, s.sample, s.at).next, source) == Used(readings + [s], source)
  {
    hide Spool.Put;
    forall source ensures Numbering.Next(Record(a, limits, s.sample, s.at).next, source) == Used(readings + [s], source) {
      UsedMore(readings, s, source);
    }
  }

  lemma OneMoreIsRead(r: Running, limits: Spool.Limits, readings: seq<Recorded>, s: Recorded)
    requires Traced(r.view.node, r.view.boot, readings, r)
    ensures Traced(r.view.node, r.view.boot, readings + [s], r.(view := Record(r.view, limits, s.sample, s.at)))
  {
    var (node, boot, a, all) := (r.view.node, r.view.boot, r.view, readings + [s]);
    hide Spool.Put, Spool.Sizes, IsOneRead;
    NumbersAfter(a, limits, readings, s);
    StillRead(node, boot, readings, [s], r.hand);
    StillRead(node, boot, readings, [s], a.spool.items);
    if s.sample.fit.Sendable? {
      var held := Spool.Held(EventOf(a, s.sample), s.sample.size, s.at, s.sample.initial);
      var lost := Spool.PutKeepsTheNewest(a.spool, limits, held, s.at);
      NewestIsRead(node, boot, readings, s, held, a);
      var items := Spool.Put(a.spool, limits, held, s.at).items;
      forall i | 0 <= i < |items| ensures IsOneRead(node, boot, all, items[i]) {
        assert items[i] == (a.spool.items + [held])[lost + i];
      }
    }
  }

  lemma NewestIsRead(node: NodeId, boot: Id, readings: seq<Recorded>, s: Recorded, held: Spool.Held<Event>, a: AgentView)
    requires a.node == node && a.boot == boot && s.sample.fit.Sendable?
    requires Numbering.Next(a.next, s.sample.source) == Used(readings, s.sample.source)
    requires held == Spool.Held(EventOf(a, s.sample), s.sample.size, s.at, s.sample.initial)
    ensures IsOneRead(node, boot, readings + [s], held)
  {
    var all := readings + [s];
    assert all[..|readings|] == readings;
    assert IsReading(node, boot, all, |readings|, held);
  }

  lemma {:induction false} AllAreRead(r: Running, limits: Spool.Limits, readings: seq<Recorded>, more: seq<Recorded>)
    requires Traced(r.view.node, r.view.boot, readings, r)
    ensures Traced(r.view.node, r.view.boot, readings + more, r.(view := RecordAll(r.view, limits, more)))
    decreases more
  {
    hide Traced, Record;
    if more == [] {
      assert readings + more == readings;
    } else {
      OneMoreIsRead(r, limits, readings, more[0]);
      RecordingKeepsTheName(r.view, limits, more[0]);
      AllAreRead(r.(view := Record(r.view, limits, more[0].sample, more[0].at)), limits, readings + [more[0]], more[1..]);
      assert readings + [more[0]] + more[1..] == readings + more;
    }
  }

  lemma RecordingKeepsTheName(a: AgentView, limits: Spool.Limits, s: Recorded)
    ensures var b := Record(a, limits, s.sample, s.at); b.node == a.node && b.boot == a.boot
  {
    hide Spool.Put;
  }

  lemma HandedOutIsRead(r: Running, limits: Spool.Limits, readings: seq<Recorded>, granted: real, taken: real)
    requires Traced(r.view.node, r.view.boot, readings, r)
    ensures Traced(r.view.node, r.view.boot, readings, TookUp(r, limits, granted, taken))
  {
    hide Spool.Take, Spool.Sizes, IsOneRead;
    if r.hand == [] && Granted(r.view, granted) {
      var lost := Spool.TakeHandsOutTheOldest(r.view.spool, limits, 8, taken);
      var after := TookUp(r, limits, granted, taken);
      forall i | 0 <= i < |after.hand| ensures IsOneRead(r.view.node, r.view.boot, readings, after.hand[i]) {
        assert after.hand[i] == (after.hand + after.view.spool.items)[i] == r.view.spool.items[lost + i];
      }
      forall i | 0 <= i < |after.view.spool.items| ensures IsOneRead(r.view.node, r.view.boot, readings, after.view.spool.items[i]) {
        assert after.view.spool.items[i] == (after.hand + after.view.spool.items)[|after.hand| + i]
            == r.view.spool.items[lost + |after.hand| + i];
      }
    }
  }

  lemma SentIsRead(r: Running, limits: Spool.Limits, readings: seq<Recorded>, t: Attempt)
    requires Traced(r.view.node, r.view.boot, readings, r)
    ensures Traced(r.view.node, r.view.boot, readings, SentNext(r, limits, t).0)
  {
    hide Spool.Requeue, Spool.Sizes, IsOneRead, DeliveryFor;
    if r.hand != [] {
      Spool.RequeueKeepsTheOldest(r.view.spool, limits, r.hand[0]);
      var back := [r.hand[0]] + r.view.spool.items;
      assert AreRead(r.view.node, r.view.boot, readings, back);
    }
  }

  lemma OpIsTraced(r: Running, limits: Spool.Limits, readings: seq<Recorded>, op: Op)
    requires Traced(r.view.node, r.view.boot, readings, r)
    ensures Traced(r.view.node, r.view.boot, readings + TakenBy(r, op), Does(r, limits, op))
  {
    match op
    case Read(sample, at) => hide Record; OneMoreIsRead(r, limits, readings, Recorded(sample, at));
    case TakeUp(granted, taken) => hide Traced; assert readings + [] == readings; HandedOutIsRead(r, limits, readings, granted, taken);
    case SendNext(t) => hide Traced; assert readings + [] == readings; SentIsRead(r, limits, readings, t);
    case Hears(c, at, baselines) => CommandIsTraced(r, limits, readings, c, at, baselines);
    case _ => assert readings + [] == readings;
  }

  lemma CommandIsTraced(r: Running, limits: Spool.Limits, readings: seq<Recorded>, c: Command, at: real, baselines: seq<Recorded>)
    requires Traced(r.view.node, r.view.boot, readings, r)
    ensures Traced(r.view.node, r.view.boot, readings + TakenBy(r, Hears(c, at, baselines)),
                   Does(r, limits, Hears(c, at, baselines)))
  {
    hide Seen.Remember, Seen.MovedToEnd, RecordAll, Takes;
    assert readings + [] == readings;
    if c.commandId !in r.view.seen.outcomes && !c.action.DoConfigure? {
      var granted := r.(view := r.view.(grant := Apply(r.view.grant, c, at).0));
      if Fresh(r.view.grant, c) {
        AllAreRead(granted, limits, readings, baselines);
      }
    }
  }

  lemma {:induction false} EverythingIsTraced(node: NodeId, boot: Id, connection: Id, limits: Spool.Limits, ops: seq<Op>)
    ensures var r := Life(Begun(node, boot, connection), limits, ops);
            && Traced(node, boot, AllRead(Begun(node, boot, connection), limits, ops), r)
            && r.view.linkedAt == LinkUp(ops) && r.view.connection == LastTried(connection, ops)
    decreases ops
  {
    hide Does, Traced, TakenBy;
    if ops == [] {
      NothingReadYet(node, boot, connection);
    } else {
      var before := Life(Begun(node, boot, connection), limits, ops[..|ops| - 1]);
      EverythingIsTraced(node, boot, connection, limits, ops[..|ops| - 1]);
      NamesStay(before, node, boot, AllRead(Begun(node, boot, connection), limits, ops[..|ops| - 1]));
      OpIsTraced(before, limits, AllRead(Begun(node, boot, connection), limits, ops[..|ops| - 1]), ops[|ops| - 1]);
      OnlyConnectingLinks(before, limits, ops[|ops| - 1]);
    }
  }

  lemma NamesStay(r: Running, node: NodeId, boot: Id, readings: seq<Recorded>)
    requires Traced(node, boot, readings, r)
    ensures r.view.node == node && r.view.boot == boot
  {
  }

  lemma OnlyConnectingLinks(r: Running, limits: Spool.Limits, op: Op)
    ensures var after := Does(r, limits, op).view;
            && after.linkedAt == (if op.Connects? && op.up then op.at else r.view.linkedAt)
            && after.connection == (if op.Connects? then op.connection else r.view.connection)
  {
    hide Seen.Remember, Seen.MovedToEnd, RecordAll, Spool.Put, Spool.Take, Spool.Requeue, DeliveryFor, Takes;
    if op.Hears? && !op.command.action.DoConfigure? {
      RecordingIsNotSeen(r.view.(grant := Apply(r.view.grant, op.command, op.at).0), limits, op.baselines);
    }
  }

  lemma NothingReadYet(node: NodeId, boot: Id, connection: Id)
    ensures Traced(node, boot, [], Begun(node, boot, connection))
  {
  }

  /** Over a whole life of a process, whatever comes between: what goes out is the event of one reading, with what that
      said, the clock it was read by, and as its number how many of its source came before it; on the connection last
      tried, under the grant that is held; a snapshot if it was read as one; and a replay exactly if the link last
      came up later than it was read, by more than passed between two looks at the clock and the part of a
      millisecond that is not told. */
  lemma WhatGoesOut(node: NodeId, boot: Id, connection: Id, limits: Spool.Limits, ops: seq<Op>, t: Attempt)
    ensures var start := Begun(node, boot, connection);
            var (before, readings) := (Life(start, limits, ops), AllRead(start, limits, ops));
            var sent := SentNext(before, limits, t).1;
            sent.Some? ==>
              exists p | 0 <= p < |readings| ::
                var (s, at, d) := (readings[p].sample, readings[p].at, sent.value.delivery);
                && s.fit == Sendable && sent.value.event == EventTold(node, boot, readings, p)
                && d.connection == LastTried(connection, ops)
                && before.view.grant.Some? && t.checked < before.view.grant.value.expiresAt
                && d.hubEpoch == before.view.grant.value.hubEpoch && d.grantId == Some(before.view.grant.value.grantId)
                && d.initialState == s.initial
                && IsWholeMs(d.queuedMs, at, t.asked)
                && (d.replayed <==> LinkUp(ops) - at > (t.marked - t.asked) + ((t.asked - at) - d.queuedMs as real / 1000.0))
  {
    hide Life, AllRead, Send, IsWholeMs, EventTold, Granted;
    var start := Begun(node, boot, connection);
    var before, readings := Life(start, limits, ops), AllRead(start, limits, ops);
    EverythingIsTraced(node, boot, connection, limits, ops);
    if before.hand != [] {
      WhatIsPublished(before.view, limits, before.hand[0], t);
      assert IsOneRead(node, boot, readings, before.hand[0]);
      var p :| 0 <= p < |readings| && IsReading(node, boot, readings, p, before.hand[0]);
    }
  }

  /** So what was read a millisecond before the link last came up, and what passed between two looks at the clock,
      never goes out as news; and what was read since never goes out as history. */
  lemma HistoryIsNeverNews(node: NodeId, boot: Id, connection: Id, limits: Spool.Limits, ops: seq<Op>, t: Attempt)
    requires t.asked <= t.marked
    requires forall p | 0 <= p < |AllRead(Begun(node, boot, connection), limits, ops)| ::
               AllRead(Begun(node, boot, connection), limits, ops)[p].at <= t.asked
    ensures var start := Begun(node, boot, connection);
            var readings := AllRead(start, limits, ops);
            var sent := SentNext(Life(start, limits, ops), limits, t).1;
            sent.Some? ==>
              exists p | 0 <= p < |readings| ::
                && sent.value.event == EventTold(node, boot, readings, p)
                && (readings[p].at >= LinkUp(ops) ==> !sent.value.delivery.replayed)
                && (LinkUp(ops) - readings[p].at >= (t.marked - t.asked) + 0.001 ==> sent.value.delivery.replayed)
  {
    hide Life, AllRead, SentNext, EventTold;
    WhatGoesOut(node, boot, connection, limits, ops, t);
  }
}
