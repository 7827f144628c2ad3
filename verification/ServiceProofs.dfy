/** What the hub promises the broker and its operators: every message is acknowledged once or is
    left with the node for a reason, nothing accepted is acknowledged before it is written down,
    a node approved while connected is heard, a revoked one is not, and revisions only rise.
  */
module ServiceProofs {
  import opened Wrappers
  import opened Wire
  import opened Registry
  import opened Service
  import Journal
  import Ingress
  import Sessions
  import RateLimiter

  // -- what was acknowledged ---------------------------------------------------------------------------

  /** The acknowledgements among some actions, in order. */
  function Acks(actions: seq<Action>): seq<Message>
    decreases actions
  {
    if actions == [] then []
    else
      var before, last := Acks(actions[..|actions| - 1]), actions[|actions| - 1];
      if last.Acked? then before + [last.message] else before
  }

  lemma AcksFront(actions: seq<Action>, last: Action)
    ensures Acks(actions + [last]) == if last.Acked? then Acks(actions) + [last.message] else Acks(actions)
  {
    assert (actions + [last])[..|actions|] == actions;
  }

  /** What one settling adds. */
  function Once(h: Hub, m: Message): seq<Message> {
    if h.linked && m.qos != 0 then [m] else []
  }

  lemma SettledAcks(h: Hub, m: Message)
    ensures Acks(Settled(h, m).actions) == Acks(h.actions) + Once(h, m)
    ensures Settled(h, m) == h.(actions := Settled(h, m).actions)
  {
    AcksFront(h.actions, Acked(m));
  }

  lemma DoingAcks(h: Hub, action: Action)
    requires !action.Acked?
    ensures Acks(Doing(h, action).actions) == Acks(h.actions) && Acks(Saying(h, action).actions) == Acks(h.actions)
  {
    AcksFront(h.actions, action);
  }

  /** All a state message may touch: the table, the sources, the epoch, the report and what is said. */
  predicate OnlyItsOwn(h: Hub, after: Hub) {
    && after.linked == h.linked && after.early == h.early && after.queue == h.queue && after.journal == h.journal
    && after.buckets == h.buckets && after.pending == h.pending
    && (!h.books.changed ==> SameNames(h, after))
  }

  /** Nobody's standing has changed, and the registry has been looked at. */
  predicate SameNames(h: Hub, after: Hub) {
    after.books.document.nodes == h.books.document.nodes && !after.books.changed
  }

  lemma MovedIsItsOwn(h: Hub, after: Hub)
    requires after == h.(sessions := after.sessions, sources := after.sources, cameras := after.cameras, reported := after.reported)
    ensures OnlyItsOwn(h, after) && after.actions == h.actions
  {
  }

  lemma OnlyItsOwnTwice(h: Hub, between: Hub, after: Hub)
    requires OnlyItsOwn(h, between) && OnlyItsOwn(between, after)
    ensures OnlyItsOwn(h, after)
  {
  }

  lemma OnStateAcksNothing(h: Hub, settings: Settings, node: NodeId, says: StateSays, w: World)
    ensures var after := OnState(h, settings, node, says, w).0;
            Acks(after.actions) == Acks(h.actions) && OnlyItsOwn(h, after)
  {
    hide Adopt, Acks, OpenSession, OnlyItsOwn, Sessions.SaysItAgain, Sessions.Closed;
    var told := Remembered(h, node, says);
    var after := OnState(h, settings, node, says, w).0;
    if says.ourProtocol && says.hello.online && !Sessions.SaysItAgain(told.sessions, node, says.hello) {
      MovedIsItsOwn(h, told);
      OpenSessionAcksNothing(told, settings, node, says, w);
      OnlyItsOwnTwice(h, told, after);
    } else {
      MovedIsItsOwn(h, after);
    }
  }

  lemma OpenSessionAcksNothing(h: Hub, settings: Settings, node: NodeId, says: StateSays, w: World)
    ensures var (after, raised) := OpenSession(h, settings, node, says, w);
            && Acks(after.actions) == Acks(h.actions) && OnlyItsOwn(h, after)
            && (!raised ==>
                  && Sessions.Current(after.sessions, node).Some?
                  && after.sessions[node].connection == Sessions.NamedConnection(says.hello)
                  && after.sessions[node].boot == says.hello.boot
                  && Events in after.sessions[node].grants)
  {
    hide Adopt, Acks;
    var numbered := h.(books := Numbered(h.books, w.registrySaved).0);
    var started := numbered.(sessions := Sessions.Opened(h.sessions, node, Sessions.NamedConnection(says.hello), says.hello.boot,
                                                         numbered.books.document.hubEpoch, w.monotonic));
    var adopted := Adopting(started, settings, node, says.declared).0;
    var grant := Sessions.NewGrant(started.sessions[node], Events, w.grantId, settings.sessions.grantSeconds, w.monotonic);
    DoingAcks(adopted.(sessions := Sessions.Granted(adopted.sessions, node, grant)), Action.Granted(node, grant));
  }

  // -- when the journal does not take an event -----------------------------------------------------------------

  /** The journal can say where the event's source had got to, its moment has a form in UTC, and the
      transaction goes through. */
  predicate Takes(h: Hub, e: Event, queuedMs: nat, disk: Ingress.Disk) {
    disk == Ingress.Disk(Ingress.Reads, Journal.Commits) && Ingress.Timed(e) && !Journal.TooWide(h.journal, e, queuedMs)
  }

  /** An event that gets as far as the journal and is not taken. */
  predicate NotWritten(h: Hub, m: Message, says: EventSays, w: World) {
    && PastTheSession(h, m.node, says, w.monotonic)
    && Ingress.TurnedAway(h.sources, m.node, says.message).None?
    && !Takes(h, says.message.envelope.event, says.message.envelope.delivery.queuedMs, w.disk)
  }

  /** Of those, the ones the journal itself says it cannot take; for the others something breaks off. */
  predicate Declined(e: Event, disk: Ingress.Disk) {
    disk.read.Closed? || (disk.read.Reads? && Ingress.Timed(e) && disk.write.Fails?)
  }

  lemma ConcludedAcks(h: Hub, settings: Settings, m: Message, receipt: Ingress.Receipt)
    ensures Acks(Concluded(h, settings, m, receipt).actions) == Acks(h.actions) + if receipt.settle then Once(h, m) else []
  {
    hide Acks, Settled;
    if h.journal.entries != [] {
      var entry := h.journal.entries[|h.journal.entries| - 1];
      DoingAcks(h, Journalled(entry));
      SettledAcks(Doing(h, Journalled(entry)), m);
    }
    SettledAcks(h, m);
  }

  /** A receipt withholds the acknowledgement, or there is none, exactly when the event was not taken. */
  lemma ReceiptSettles(h: Hub, settings: Settings, m: Message, message: Ingress.Message, w: World)
    ensures var receipt := Accepting(h, settings, m, message, w).1;
            if Ingress.TurnedAway(h.sources, m.node, message).Some? then receipt.Some? && receipt.value.settle
            else
              var (e, queuedMs) := (message.envelope.event, message.envelope.delivery.queuedMs);
              && (receipt.Some? && receipt.value.settle <==> Takes(h, e, queuedMs, w.disk))
              && (receipt.None? <==> !Takes(h, e, queuedMs, w.disk) && !Declined(e, w.disk))
  {
    hide Ingress.Classify, Journal.OutcomeOf, Journal.TooWide;
  }

  function ArrivalOf(h: Hub, m: Message, message: Ingress.Message, w: World): Ingress.Arrival {
    Ingress.Arrival(h.sources, m.node, message, m.retained, w.now, w.disk)
  }

  /** A live event with no room for it and no way to note that. */
  predicate FateLost(h: Hub, settings: Settings, m: Message, message: Ingress.Message, w: World) {
    Ingress.IsLive(h.journal, settings.ingress, ArrivalOf(h, m, message, w)) && |h.queue| >= settings.queueDepth && !w.fateSaved
  }

  lemma OnEventAcks(h: Hub, settings: Settings, m: Message, says: EventSays, w: World)
    ensures var (after, raised) := OnEvent(h, settings, m, says, w);
            && Acks(after.actions) == Acks(h.actions) + (if NotWritten(h, m, says, w) then [] else Once(h, m))
            && (raised <==> && PastTheSession(h, m.node, says, w.monotonic)
                            && ((NotWritten(h, m, says, w) && !Declined(says.message.envelope.event, w.disk))
                                || FateLost(h, settings, m, says.message, w)))
  {
    hide Acks, Settled, Concluded, Ingress.Accept, Ingress.TurnedAway, Ingress.IsLive, Takes, Declined;
    SettledAcks(h, m);
    ReceiptSettles(h, settings, m, says.message, w);
    Ingress.LiveMeans(h.journal, settings.ingress, ArrivalOf(h, m, says.message, w));
    var (journal, receipt) := Accepting(h, settings, m, says.message, w);
    if receipt.Some? {
      ConcludedAcks(h.(journal := journal), settings, m, receipt.value);
    }
  }

  // -- what makes a handler break off ------------------------------------------------------------------------

  /** An entry that says something the hub can use: a source by its name, of a kind it knows. */
  predicate Declares(e: EntrySays) {
    e.Entry? && e.kind == Known && e.sourceId.Some? && e.wellNamed
  }

  predicate Films(films: bool, e: EntrySays) {
    films && e.Entry? && e.filming.Camera? && e.enabled
  }

  /** A camera that is not this hub's own yet, first mentioned here, whose frame rate is no number. */
  predicate BadCameraAt(a: Adopted, films: bool, node: NodeId, entries: seq<EntrySays>, i: nat)
    requires i < |entries|
  {
    var e := entries[i];
    && Declares(e) && Films(films, e) && !e.filming.rateReads && (node, e.sourceId.value) !in a.cameras
    && forall j | 0 <= j < i && Declares(entries[j]) && Films(films, entries[j]) :: entries[j].sourceId != e.sourceId
  }

  /** A source that is not known yet, first mentioned here, whose name does not fit. */
  predicate BadNameAt(a: Adopted, node: NodeId, entries: seq<EntrySays>, i: nat)
    requires i < |entries|
  {
    var e := entries[i];
    && Declares(e) && !e.nameFits && (node, e.sourceId.value) !in a.sources
    && forall j | 0 <= j < i && Declares(entries[j]) :: entries[j].sourceId != e.sourceId
  }

  /** An entry of a declared list at which adopting it breaks off, if it has not before: a kind no table can
      look up, a camera that cannot be built, or a name that does not fit. */
  predicate BreaksAt(a: Adopted, films: bool, node: NodeId, entries: seq<EntrySays>, i: nat)
    requires i < |entries|
  {
    || (entries[i].Entry? && entries[i].kind.Unhashable?)
    || BadCameraAt(a, films, node, entries, i)
    || BadNameAt(a, node, entries, i)
  }

  ghost predicate Breaks(a: Adopted, films: bool, node: NodeId, entries: seq<EntrySays>) {
    exists i | 0 <= i < |entries| :: BreaksAt(a, films, node, entries, i)
  }

  lemma BreaksLater(a: Adopted, films: bool, node: NodeId, entries: seq<EntrySays>)
    requires entries != [] && !a.raised
    ensures var b := AdoptOne(a, films, node, entries[0]);
            && (b.raised <==> BreaksAt(a, films, node, entries, 0))
            && (!b.raised ==> (Breaks(b, films, node, entries[1..]) <==> Breaks(a, films, node, entries)))
  {
    var b := AdoptOne(a, films, node, entries[0]);
    assert b.raised <==> BreaksAt(a, films, node, entries, 0);
    hide AdoptOne, BreaksAt;
    if !b.raised {
      forall i | 0 <= i < |entries| - 1
        ensures BreaksAt(b, films, node, entries[1..], i) <==> BreaksAt(a, films, node, entries, i + 1)
      {
        LaterEntry(a, b, films, node, entries, i);
      }
      if Breaks(a, films, node, entries) {
        var i :| 0 <= i < |entries| && BreaksAt(a, films, node, entries, i);
        assert BreaksAt(b, films, node, entries[1..], i - 1);
      }
    }
  }

  lemma LaterEntry(a: Adopted, b: Adopted, films: bool, node: NodeId, entries: seq<EntrySays>, i: nat)
    requires i + 1 < |entries| && b == AdoptOne(a, films, node, entries[0]) && !a.raised && !b.raised
    ensures BreaksAt(b, films, node, entries[1..], i) <==> BreaksAt(a, films, node, entries, i + 1)
  {
    var rest, e, first := entries[1..], entries[i + 1], entries[0];
    assert rest[i] == e;
    assert forall j | 0 <= j < i :: rest[j] == entries[j + 1];
    assert forall j | 1 <= j < i + 1 :: entries[j] == rest[j - 1];
    if Declares(e) {
      var key := (node, e.sourceId.value);
      assert key in b.sources <==> key in a.sources || (Declares(first) && first.sourceId == e.sourceId);
      assert key in b.cameras <==> key in a.cameras || (Declares(first) && Films(films, first) && first.sourceId == e.sourceId)
        by { hide Films; FilmedNow(a, films, node, first); }
    }
  }

  lemma FilmedNow(a: Adopted, films: bool, node: NodeId, e: EntrySays)
    requires !a.raised && !AdoptOne(a, films, node, e).raised
    ensures forall key :: key in AdoptOne(a, films, node, e).cameras
              <==> key in a.cameras || (Declares(e) && Films(films, e) && key == (node, e.sourceId.value))
  {
  }

  lemma {:induction false} AdoptRaises(a: Adopted, films: bool, node: NodeId, entries: seq<EntrySays>)
    requires !a.raised
    ensures AdoptEntries(a, films, node, entries).raised <==> Breaks(a, films, node, entries)
    decreases entries
  {
    hide AdoptOne, BreaksAt;
    if entries != [] {
      BreaksLater(a, films, node, entries);
      if !AdoptOne(a, films, node, entries[0]).raised {
        AdoptRaises(AdoptOne(a, films, node, entries[0]), films, node, entries[1..]);
      }
    }
  }

  function Unadopted(h: Hub): Adopted {
    Adopted(h.sources, h.cameras, {}, false)
  }

  /** What in a state message, and in the world around it, makes the hub break off reading it. */
  ghost predicate StateBreaks(h: Hub, settings: Settings, node: NodeId, says: StateSays, w: World) {
    && says.ourProtocol && says.hello.online
    && (|| Breaks(Unadopted(h), settings.films, node, EntriesOf(says.declared))
        || (!Sessions.SaysItAgain(h.sessions, node, says.hello)
            && (Reread(h.books).None? || !w.registrySaved || Unsized(says.declared))))
  }

  lemma OnStateRaises(h: Hub, settings: Settings, node: NodeId, says: StateSays, w: World)
    ensures OnState(h, settings, node, says, w).1 <==> StateBreaks(h, settings, node, says, w)
  {
    hide Adopting, Breaks, Sessions.SaysItAgain, OpenSession, Sessions.Closed, Unsized;
    AdoptingRaises(Remembered(h, node, says), settings, node, says.declared);
    OpenSessionRaises(Remembered(h, node, says), settings, node, says, w);
  }

  lemma AdoptingRaises(h: Hub, settings: Settings, node: NodeId, declared: DeclaredSays)
    ensures Adopting(h, settings, node, declared).1 <==> Breaks(Unadopted(h), settings.films, node, EntriesOf(declared))
  {
    hide AdoptEntries, Breaks;
    AdoptRaises(Unadopted(h), settings.films, node, EntriesOf(declared));
  }

  lemma OpenSessionRaises(h: Hub, settings: Settings, node: NodeId, says: StateSays, w: World)
    ensures OpenSession(h, settings, node, says, w).1
       <==> Reread(h.books).None? || !w.registrySaved || Unsized(says.declared)
            || Breaks(Unadopted(h), settings.films, node, EntriesOf(says.declared))
  {
    hide Adopting, Breaks, Unsized, Saying;
    var numbered := h.(books := Numbered(h.books, w.registrySaved).0);
    var started := numbered.(sessions := Sessions.Opened(h.sessions, node, Sessions.NamedConnection(says.hello), says.hello.boot,
                                                         numbered.books.document.hubEpoch, w.monotonic));
    AdoptingRaises(started, settings, node, says.declared);
    assert Unadopted(started) == Unadopted(h);
  }

  // -- one message, whole ----------------------------------------------------------------------------------------

  predicate WithinBudget(h: Hub, settings: Settings, m: Message, w: World) {
    Drawing(h, settings, m, w).1.Pass?
  }

  /** A message the decoder breaks off, on whatever channel it comes. */
  predicate Undecodable(h: Hub, settings: Settings, m: Message, w: World) {
    WithinBudget(h, settings, m, w) && m.payload.TooDeep?
  }

  /** A message that reaches its handler: within its budget, and a document of its own node. */
  predicate ReachesHandler(h: Hub, settings: Settings, m: Message, w: World) {
    WithinBudget(h, settings, m, w) && Readable(m)
  }

  /** A state message the hub breaks off. */
  ghost predicate BreaksOff(h: Hub, settings: Settings, m: Message, w: World) {
    m.channel.StateChannel? && ReachesHandler(h, settings, m, w) && StateBreaks(h, settings, m.node, m.payload.state, w)
  }

  /** An event the journal did not take. */
  predicate StaysWithTheNode(h: Hub, settings: Settings, m: Message, w: World) {
    m.channel.EventChannel? && ReachesHandler(h, settings, m, w) && NotWritten(h, m, m.payload.event, w)
  }

  /** Everything that keeps a message of a node that may speak from being settled. */
  ghost predicate Unsettled(h: Hub, settings: Settings, m: Message, w: World) {
    Undecodable(h, settings, m, w) || BreaksOff(h, settings, m, w) || StaysWithTheNode(h, settings, m, w)
  }

  /** Everything that makes reading such a message end in an exception: mostly the same, but an event the
      journal says it cannot take ends quietly, and one whose fate cannot be noted is settled by then. */
  ghost predicate Raises(h: Hub, settings: Settings, m: Message, w: World) {
    || Undecodable(h, settings, m, w)
    || BreaksOff(h, settings, m, w)
    || (m.channel.EventChannel? && ReachesHandler(h, settings, m, w)
        && PastTheSession(h, m.node, m.payload.event, w.monotonic)
        && ((NotWritten(h, m, m.payload.event, w) && !Declined(m.payload.event.message.envelope.event, w.disk))
            || FateLost(h, settings, m, m.payload.event.message, w)))
  }

  lemma ReadAcks(h: Hub, settings: Settings, m: Message, w: World)
    ensures var (after, raised) := Read(h, settings, m, w);
            && Acks(after.actions) == Acks(h.actions) + (if Unsettled(h, settings, m, w) then [] else Once(h, m))
            && (raised <==> Raises(h, settings, m, w))
  {
    hide Acks, Settled, OnState, OnEvent, StateBreaks, NotWritten, Declined, FateLost, PastTheSession, Drawing, OnAck;
    var buckets := Drawing(h, settings, m, w).0;
    var drawn := h.(buckets := buckets);
    SettledAcks(drawn, m);
    assert Once(drawn, m) == Once(h, m);
    if WithinBudget(h, settings, m, w) && Readable(m) {
      match m.channel
      case EventChannel =>
        OnEventAcks(drawn, settings, m, m.payload.event, w);
        EventsIgnoreBuckets(h, buckets, settings, m, m.payload.event, w);
      case HealthChannel =>
        SettledAcks(drawn.(sessions := Sessions.Heard(drawn.sessions, m.node, w.monotonic)), m);
      case AckChannel =>
        SettledAcks(OnAck(drawn, m.node, m.payload.ack), m);
        OnAckTouchesOnlyPending(drawn, m.node, m.payload.ack);
      case StateChannel =>
        OnStateAcksNothing(drawn, settings, m.node, m.payload.state, w);
        OnStateRaises(drawn, settings, m.node, m.payload.state, w);
        StatesIgnoreBuckets(h, buckets, settings, m.node, m.payload.state, w);
        SettledAcks(OnState(drawn, settings, m.node, m.payload.state, w).0, m);
    }
  }

  lemma EventsIgnoreBuckets(h: Hub, buckets: RateLimiter.Buckets, settings: Settings, m: Message, says: EventSays, w: World)
    ensures var drawn := h.(buckets := buckets);
            && (NotWritten(drawn, m, says, w) <==> NotWritten(h, m, says, w))
            && (FateLost(drawn, settings, m, says.message, w) <==> FateLost(h, settings, m, says.message, w))
            && (PastTheSession(drawn, m.node, says, w.monotonic) <==> PastTheSession(h, m.node, says, w.monotonic))
  {
    hide Ingress.IsLive, Ingress.TurnedAway, Sessions.MayEnter;
  }

  lemma StatesIgnoreBuckets(h: Hub, buckets: RateLimiter.Buckets, settings: Settings, node: NodeId, says: StateSays, w: World)
    ensures StateBreaks(h.(buckets := buckets), settings, node, says, w) <==> StateBreaks(h, settings, node, says, w)
  {
  }

  lemma OnAckTouchesOnlyPending(h: Hub, node: NodeId, says: AckSays)
    ensures OnAck(h, node, says) == h.(pending := OnAck(h, node, says).pending)
  {
  }

  /** What is held for nodes not approved yet: one state message each, and nothing a later reading could
      acknowledge. */
  ghost predicate Quiet(h: Hub) {
    forall n | n in h.early :: h.early[n].node == n && h.early[n].channel.StateChannel? && h.early[n].qos == 0
  }

  /** The hub once it has looked at its registry again. */
  function Looked(h: Hub): Hub {
    if Reread(h.books).None? then h else h.(books := Reread(h.books).value)
  }

  lemma LookedIsQuiet(h: Hub)
    requires Quiet(h) && Reread(h.books).Some?
    ensures Quiet(Looked(h)) && !Looked(h).books.changed && Reread(Looked(h).books) == Some(Looked(h).books)
  {
  }

  /** A name whose messages are read: the registry can be, and it says so. */
  predicate MaySpeak(h: Hub, node: NodeId) {
    Reread(h.books).Some? && Authenticate(Looked(h).books.document, node).None?
  }

  function WithoutHeld(h: Hub, node: NodeId): Hub {
    h.(early := h.early - {node})
  }

  /** What a node said before it was approved, if it is to be read before this message. */
  predicate HasHeld(h: Hub, m: Message) {
    m.node in h.early && !m.channel.StateChannel?
  }

  /** The hub when it comes to reading a message of a node that may speak: what the node said before it was
      approved has been read first. */
  function Ready(h: Hub, settings: Settings, m: Message, w: World): Hub {
    var rest := WithoutHeld(Looked(h), m.node);
    if HasHeld(h, m) then Read(rest, settings, h.early[m.node], w).0 else rest
  }

  /** Reading what was held breaks off, and the message behind it is not read at all. */
  ghost predicate HeldBreaks(h: Hub, settings: Settings, m: Message, w: World) {
    HasHeld(h, m) && Unsettled(WithoutHeld(Looked(h), m.node), settings, h.early[m.node], w)
  }

  lemma HandleIsReadyThenRead(h: Hub, settings: Settings, m: Message, w: World)
    requires Quiet(h) && MaySpeak(h, m.node)
    ensures Handle(h, settings, m, w)
         == if HasHeld(h, m) && Read(WithoutHeld(Looked(h), m.node), settings, h.early[m.node], w).1
            then (Ready(h, settings, m, w), true)
            else Read(Ready(h, settings, m, w), settings, m, w)
  {
    hide Read, Authenticate, Reread;
    LookedIsQuiet(h);
    if m.node in h.early {
      var held, rest := h.early[m.node], WithoutHeld(Looked(h), m.node);
      assert m.node !in rest.early;
      assert Handle(rest, settings, held, w) == Read(rest, settings, held, w);
    } else {
      assert WithoutHeld(Looked(h), m.node).early == h.early;
    }
  }

  /** Every message handed to the hub at QoS 1 is acknowledged exactly once, unless the registry cannot be
      read, or the node may speak and the message or what it said before its approval cannot be decoded, is a
      state whose handling breaks off, or is an event the journal did not take. Then it is not acknowledged at
      all. Reading what a node said before it was approved acknowledges nothing. */
  lemma EachMessageIsSettledOnce(h: Hub, settings: Settings, m: Message, w: World)
    requires Quiet(h)
    ensures var unsettled := || Reread(h.books).None?
                             || (MaySpeak(h, m.node) && (HeldBreaks(h, settings, m, w)
                                                         || Unsettled(Ready(h, settings, m, w), settings, m, w)));
            Acks(Handle(h, settings, m, w).0.actions) == Acks(h.actions) + if unsettled then [] else Once(h, m)
    ensures Handle(h, settings, m, w).1 <==>
              || Reread(h.books).None?
              || (MaySpeak(h, m.node) && (HeldBreaks(h, settings, m, w) || Raises(Ready(h, settings, m, w), settings, m, w)))
  {
    hide Read, Authenticate, Acks, Settled, Unsettled, Raises, Reread;
    if Reread(h.books).Some? {
      LookedIsQuiet(h);
      if MaySpeak(h, m.node) {
        HandleIsReadyThenRead(h, settings, m, w);
        var rest := WithoutHeld(Looked(h), m.node);
        if HasHeld(h, m) {
          ReadAcks(rest, settings, h.early[m.node], w);
          HeldRaisesOrNot(rest, settings, h.early[m.node], w);
          ReadKeeps(rest, settings, h.early[m.node], w);
        }
        ReadAcks(Ready(h, settings, m, w), settings, m, w);
      } else {
        SettledAcks(Looked(h), m);
        SettledAcks(Looked(h).(early := h.early[m.node := m.(qos := 0)]), m);
      }
    }
  }

  lemma HeldRaisesOrNot(h: Hub, settings: Settings, held: Message, w: World)
    requires held.channel.StateChannel? && held.qos == 0
    ensures Raises(h, settings, held, w) <==> Unsettled(h, settings, held, w)
    ensures Once(h, held) == [] && forall acks: seq<Message> :: acks + [] == acks
  {
    hide StateBreaks;
  }

  // -- messages that are never acknowledged ------------------------------------------------------------------

  /** While the registry cannot be read nothing is acknowledged, and nothing changes. */
  lemma UnreadableRegistryAnswersNobody(h: Hub, settings: Settings, m: Message, w: World)
    requires h.books.changed && h.books.file.Garbled?
    ensures Handle(h, settings, m, w) == (h, true)
  {
  }

  /** A payload nested too deep, from a node that may speak and is within its budget, is never acknowledged, on
      any channel. */
  lemma TooDeepIsNeverAcknowledged(h: Hub, settings: Settings, m: Message, w: World)
    requires Quiet(h) && MaySpeak(h, m.node) && m.payload.TooDeep?
    requires WithinBudget(Ready(h, settings, m, w), settings, m, w)
    ensures Acks(Handle(h, settings, m, w).0.actions) == Acks(h.actions)
  {
    hide Acks, Handle, Read, Authenticate, Ready;
    EachMessageIsSettledOnce(h, settings, m, w);
  }

  /** An event that passes every check of its sender, whose moment has no form in UTC, is never acknowledged,
      whatever the journal does. */
  lemma NoUtcIsNeverAcknowledged(h: Hub, settings: Settings, m: Message, w: World)
    requires Quiet(h) && MaySpeak(h, m.node) && m.channel.EventChannel?
    requires var ready := Ready(h, settings, m, w);
             && ReachesHandler(ready, settings, m, w) && PastTheSession(ready, m.node, m.payload.event, w.monotonic)
             && Ingress.TurnedAway(ready.sources, m.node, m.payload.event.message).None?
    requires m.payload.event.message.envelope.event.reading.occurredAt.BeyondUtc?
    ensures Acks(Handle(h, settings, m, w).0.actions) == Acks(h.actions)
  {
    hide Acks, Handle, Read, Authenticate, Ready;
    EachMessageIsSettledOnce(h, settings, m, w);
  }

  /** Nor is one numbered past what the database can hold, unless its id has been seen. */
  lemma TooWideIsNeverAcknowledged(h: Hub, settings: Settings, m: Message, w: World)
    requires Quiet(h) && MaySpeak(h, m.node) && m.channel.EventChannel?
    requires var ready := Ready(h, settings, m, w);
             && ReachesHandler(ready, settings, m, w) && PastTheSession(ready, m.node, m.payload.event, w.monotonic)
             && Ingress.TurnedAway(ready.sources, m.node, m.payload.event.message).None?
             && (m.node, m.payload.event.message.envelope.event.eventId) !in ready.journal.receipts
    requires m.payload.event.message.envelope.event.sequence > Journal.MAX_INTEGER
    ensures Acks(Handle(h, settings, m, w).0.actions) == Acks(h.actions)
  {
    hide Acks, Handle, Read, Authenticate, Ready;
    EachMessageIsSettledOnce(h, settings, m, w);
  }

  /** A state this hub would read, from a node that may speak. */
  predicate HeardState(h: Hub, m: Message) {
    && MaySpeak(h, m.node) && m.channel.StateChannel? && Readable(m)
    && m.payload.state.ourProtocol && m.payload.state.hello.online
  }

  /** A state with a declared source whose kind is a list or an object is never acknowledged. */
  lemma SomeStatesAreNeverAcknowledged(h: Hub, settings: Settings, m: Message, w: World, i: nat)
    requires Quiet(h) && HeardState(h, m)
    requires var entries := EntriesOf(m.payload.state.declared); i < |entries| && entries[i].Entry? && entries[i].kind.Unhashable?
    ensures Acks(Handle(h, settings, m, w).0.actions) == Acks(h.actions)
  {
    hide Acks, Handle, Read, Authenticate;
    EachMessageIsSettledOnce(h, settings, m, w);
    var ready := Ready(h, settings, m, w);
    assert BreaksAt(Unadopted(ready), settings.films, m.node, EntriesOf(m.payload.state.declared), i);
    assert BreaksOff(ready, settings, m, w);
  }

  /** Nor is one with a camera whose frame rate is no number, on a hub that makes cameras its own and has not
      made this one its own before. */
  lemma ABadFrameRateIsNeverAcknowledged(h: Hub, settings: Settings, m: Message, w: World)
    requires Quiet(h) && HeardState(h, m) && settings.films && m.payload.state.declared.Listed?
    requires var entries := m.payload.state.declared.entries;
             && |entries| > 0 && Declares(entries[0]) && entries[0].enabled && entries[0].filming == Camera(false)
             && (m.node, entries[0].sourceId.value) !in h.cameras
    ensures Acks(Handle(h, settings, m, w).0.actions) == Acks(h.actions)
  {
    hide Acks, Handle, Read, Authenticate;
    EachMessageIsSettledOnce(h, settings, m, w);
    var ready := Ready(h, settings, m, w);
    assert BreaksAt(Unadopted(ready), settings.films, m.node, EntriesOf(m.payload.state.declared), 0);
    assert BreaksOff(ready, settings, m, w);
  }

  /** A state broken off only because its number could not be kept is acknowledged, once, when it is delivered
      again and the disk works. */
  lemma AcknowledgedOnceTheDiskWorks(h: Hub, settings: Settings, m: Message, w: World, again: World)
    requires Quiet(h) && HeardState(h, m) && !Sessions.SaysItAgain(h.sessions, m.node, m.payload.state.hello)
    requires !w.registrySaved && again.registrySaved
    requires !Breaks(Unadopted(h), settings.films, m.node, EntriesOf(m.payload.state.declared)) && !Unsized(m.payload.state.declared)
    ensures var first := Handle(h, settings, m, w).0;
            && Acks(first.actions) == Acks(h.actions)
            && Acks(Handle(first, settings, m, again).0.actions) == Acks(h.actions) + Once(h, m)
  {
    hide Acks, Sessions.SaysItAgain, Breaks, Adopt, Unsized;
    EachMessageIsSettledOnce(h, settings, m, w);
    var ready := Ready(h, settings, m, w);
    LookedIsQuiet(h);
    HandleIsReadyThenRead(h, settings, m, w);
    var first := Handle(h, settings, m, w).0;
    var numbered := Numbered(ready.books, false).0;
    assert first == ready.(books := numbered, reported := ready.reported[m.node := m.payload.state.revision]);
    assert !numbered.changed && numbered.document.nodes == ready.books.document.nodes;
    assert MaySpeak(first, m.node);
    EachMessageIsSettledOnce(first, settings, m, again);
    assert Ready(first, settings, m, again).sources == h.sources && Ready(first, settings, m, again).cameras == h.cameras;
  }

  // -- nothing is acknowledged before it is written ----------------------------------------------------------

  /** What of a hub a message does not touch, and what it only adds to. */
  ghost predicate Kept(h: Hub, after: Hub, settings: Settings) {
    && after.linked == h.linked && after.early == h.early && (!h.books.changed ==> SameNames(h, after))
    && h.journal.entries <= after.journal.entries
  }

  lemma ConcludedKeeps(h: Hub, settings: Settings, m: Message, receipt: Ingress.Receipt)
    ensures var after := Concluded(h, settings, m, receipt);
            after == h.(actions := after.actions, queue := after.queue)
  {
  }

  lemma AcceptAdds(h: Hub, settings: Settings, m: Message, message: Ingress.Message, w: World)
    ensures var (journal, receipt) := Accepting(h, settings, m, message, w);
            && h.journal.entries <= journal.entries
            && (journal != h.journal ==>
                  && message.Matched? && receipt.Some? && receipt.value.stored && receipt.value.settle
                  && journal.entries != []
                  && journal.entries == h.journal.entries + [journal.entries[|journal.entries| - 1]]
                  && journal.entries[|journal.entries| - 1].event == message.envelope.event)
            && (Ingress.TurnedAway(h.sources, m.node, message).None?
                && Takes(h, message.envelope.event, message.envelope.delivery.queuedMs, w.disk) ==>
                  message.Matched? && Journal.OutcomeOf(journal, message.envelope.event) != Journal.Stored)
  {
    hide Ingress.Classify;
  }

  lemma EnterKeeps(h: Hub, settings: Settings, m: Message, message: Ingress.Message, w: World)
    ensures Kept(h, Enter(h, settings, m, message, w).0, settings)
  {
    hide Ingress.Accept, Concluded;
    AcceptAdds(h, settings, m, message, w);
    var (journal, receipt) := Accepting(h, settings, m, message, w);
    if receipt.Some? {
      ConcludedKeeps(h.(journal := journal), settings, m, receipt.value);
    }
  }

  lemma SettledKeeps(h: Hub, after: Hub, settings: Settings, m: Message)
    requires Kept(h, after, settings)
    ensures Kept(h, Settled(after, m), settings)
  {
    hide Settled;
    SaidIsOnlySaid();
  }

  lemma OnEventKeeps(h: Hub, settings: Settings, m: Message, says: EventSays, w: World)
    ensures Kept(h, OnEvent(h, settings, m, says, w).0, settings)
  {
    hide Enter, PastTheSession, Settled, Kept;
    EnterKeeps(h, settings, m, says.message, w);
    NothingMoved(h, settings);
    SettledKeeps(h, h, settings, m);
  }

  lemma NothingMoved(h: Hub, settings: Settings)
    ensures Kept(h, h, settings)
  {
  }

  lemma OnStateKeeps(h: Hub, settings: Settings, node: NodeId, says: StateSays, w: World)
    ensures Kept(h, OnState(h, settings, node, says, w).0, settings)
  {
    hide OnState, Acks;
    OnStateAcksNothing(h, settings, node, says, w);
  }

  lemma DrawingMovesNothing(h: Hub, buckets: RateLimiter.Buckets, after: Hub, settings: Settings)
    requires Kept(h.(buckets := buckets), after, settings)
    ensures Kept(h, after, settings)
  {
  }

  lemma ReadKeeps(h: Hub, settings: Settings, m: Message, w: World)
    ensures Kept(h, Read(h, settings, m, w).0, settings)
  {
    hide OnState, OnEvent, OnAck, Drawing, Settled, Kept, Sessions.Heard;
    var buckets := Drawing(h, settings, m, w).0;
    var drawn := h.(buckets := buckets);
    NothingMoved(drawn, settings);
    SettledKeeps(drawn, drawn, settings, m);
    if Readable(m) {
      match m.channel
      case EventChannel => OnEventKeeps(drawn, settings, m, m.payload.event, w);
      case StateChannel =>
        OnStateKeeps(drawn, settings, m.node, m.payload.state, w);
        SettledKeeps(drawn, OnState(drawn, settings, m.node, m.payload.state, w).0, settings, m);
      case HealthChannel =>
        var heard := drawn.(sessions := Sessions.Heard(drawn.sessions, m.node, w.monotonic));
        assert Kept(drawn, heard, settings) by { OnlySessionsMoved(drawn, heard, settings); }
        SettledKeeps(drawn, heard, settings, m);
      case AckChannel =>
        OnAckTouchesOnlyPending(drawn, m.node, m.payload.ack);
        var heard := OnAck(drawn, m.node, m.payload.ack);
        assert Kept(drawn, heard, settings) by { OnlySessionsMoved(drawn, heard, settings); }
        SettledKeeps(drawn, heard, settings, m);
    }
    DrawingMovesNothing(h, buckets, Read(h, settings, m, w).0, settings);
  }

  lemma OnlySessionsMoved(h: Hub, after: Hub, settings: Settings)
    requires after == h.(sessions := after.sessions, pending := after.pending)
    ensures Kept(h, after, settings)
  {
  }

  /** An event let through the door: if it is acknowledged, the journal already answers for it and would
      not store it again; and if it was stored just now, its entry was written first and acknowledged after. */
  lemma WrittenThenAcknowledged(h: Hub, settings: Settings, m: Message, w: World)
    requires h.linked && m.qos != 0 && m.channel.EventChannel? && ReachesHandler(h, settings, m, w)
    requires PastTheSession(h, m.node, m.payload.event, w.monotonic)
    requires Ingress.TurnedAway(h.sources, m.node, m.payload.event.message).None?
    ensures var (after, _) := Read(h, settings, m, w);
            var e := m.payload.event.message.envelope.event;
            && (Acks(after.actions) != Acks(h.actions) ==> Journal.OutcomeOf(after.journal, e) != Journal.Stored)
            && (after.journal != h.journal ==>
                  exists entry: Journal.Entry ::
                    && entry.event == e && after.journal.entries == h.journal.entries + [entry]
                    && after.actions == h.actions + [Journalled(entry), Acked(m)])
  {
    hide Acks, RateLimiter.Allow, Ingress.Accept, Sessions.MayEnter, Concluded;
    var buckets := Drawing(h, settings, m, w).0;
    var drawn := h.(buckets := buckets);
    ReadAcks(h, settings, m, w);
    var message := m.payload.event.message;
    var (journal, receipt) := Accepting(h, settings, m, message, w);
    AcceptAdds(h, settings, m, message, w);
    if receipt.Some? {
      ConcludedKeeps(drawn.(journal := journal), settings, m, receipt.value);
    }
    if journal != h.journal {
      var entry := journal.entries[|journal.entries| - 1];
      StoredConcludes(drawn.(journal := journal), settings, m, receipt.value);
      assert h.actions + [Journalled(entry)] + [Acked(m)] == h.actions + [Journalled(entry), Acked(m)];
    }
  }

  lemma StoredConcludes(h: Hub, settings: Settings, m: Message, receipt: Ingress.Receipt)
    requires h.linked && m.qos != 0 && receipt.stored && receipt.settle && h.journal.entries != []
    ensures var after := Concluded(h, settings, m, receipt);
            && after.journal == h.journal
            && after.actions == h.actions + [Journalled(h.journal.entries[|h.journal.entries| - 1])] + [Acked(m)]
  {
  }

  // -- over any run ---------------------------------------------------------------------------------------------

  datatype Op =
    | Hear(message: Message, world: World)
    | ApproveOne(node: NodeId, pinned: Option<string>, world: World)
    | RevokeOne(node: NodeId, registrySaved: bool)
    | ConfigureOne(node: NodeId, possible: bool, commandId: Id, now: real)
    | Dispatch                              // the rules take the oldest event
    | Link(up: bool)
    | Edited(file: File)                    // the registry's file, replaced from a shell

  function Apply(h: Hub, settings: Settings, op: Op): Hub {
    match op
    case Hear(m, w) => Handle(h, settings, m, w).0
    case ApproveOne(node, pinned, w) => Approve(h, settings, node, pinned, w).0
    case RevokeOne(node, registrySaved) => Revoke(h, node, registrySaved).0
    case ConfigureOne(node, possible, commandId, now) => Configure(h, node, possible, commandId, now).0
    case Dispatch => if h.queue == [] then h else h.(queue := h.queue[1..])
    case Link(up) => h.(linked := up)
    case Edited(file) => h.(books := h.books.(file := file, changed := true))
  }

  function Run(h: Hub, settings: Settings, ops: seq<Op>): Hub
    decreases ops
  {
    if ops == [] then h else Run(Apply(h, settings, ops[0]), settings, ops[1..])
  }

  /** The rules' queue is bounded, and everything in it is written down and was fit to act on. */
  ghost predicate QueueOk(h: Hub, settings: Settings) {
    && |h.queue| <= settings.queueDepth
    && forall e | e in h.queue :: e in h.journal.entries && e.eligible && e.classification == Journal.Live
  }

  ghost predicate Steady(h: Hub, settings: Settings) {
    Quiet(h) && QueueOk(h, settings)
  }

  lemma EnterKeepsQueue(h: Hub, settings: Settings, m: Message, message: Ingress.Message, w: World)
    requires QueueOk(h, settings)
    ensures QueueOk(Enter(h, settings, m, message, w).0, settings)
  {
    hide Ingress.Accept, Concluded;
    AcceptAdds(h, settings, m, message, w);
    var (journal, receipt) := Accepting(h, settings, m, message, w);
    if receipt.Some? {
      var entered := h.(journal := journal);
      ConcludedKeeps(entered, settings, m, receipt.value);
      WhatIsQueued(h, settings, m, message, w);
      ConcludedQueues(entered, settings, m, receipt.value);
    }
  }

  lemma ConcludedQueues(h: Hub, settings: Settings, m: Message, receipt: Ingress.Receipt)
    ensures var after := Concluded(h, settings, m, receipt);
            var room := receipt.event.Some? && |h.queue| < settings.queueDepth;
            after.queue == if room then h.queue + [receipt.event.value] else h.queue
  {
  }

  lemma WhatIsQueued(h: Hub, settings: Settings, m: Message, message: Ingress.Message, w: World)
    ensures var (journal, receipt) := Accepting(h, settings, m, message, w);
            receipt.Some? && receipt.value.event.Some? ==>
              var e := receipt.value.event.value;
              e in journal.entries && e.eligible && e.classification == Journal.Live
  {
    hide Ingress.TurnedAway, Journal.OutcomeOf;
    var (journal, receipt) := Accepting(h, settings, m, message, w);
    if receipt.Some? && receipt.value.event.Some? {
      assert journal.entries[|journal.entries| - 1] == receipt.value.event.value;
    }
  }

  lemma ReadKeepsSteady(h: Hub, settings: Settings, m: Message, w: World)
    requires Steady(h, settings) && !h.books.changed
    ensures Steady(Read(h, settings, m, w).0, settings)
  {
    hide OnState, Enter, RateLimiter.Allow, Sessions.MayEnter;
    ReadKeeps(h, settings, m, w);
    var buckets := Drawing(h, settings, m, w).0;
    var drawn := h.(buckets := buckets);
    if Readable(m) {
      EnterKeepsQueue(drawn, settings, m, m.payload.event.message, w);
      OnStateAcksNothing(drawn, settings, m.node, m.payload.state, w);
    }
  }

  lemma TurnAwayKeepsSteady(h: Hub, settings: Settings, m: Message)
    requires Steady(h, settings) && !h.books.changed && Authenticate(h.books.document, m.node).Some?
    ensures Steady(TurnAway(h, m, Authenticate(h.books.document, m.node).value), settings)
  {
    var after := TurnAway(h, m, Authenticate(h.books.document, m.node).value);
    assert Quiet(after);
    hide Quiet;
    SameQueue(h, after, settings);
  }

  lemma HandleKeepsSteady(h: Hub, settings: Settings, m: Message, w: World)
    requires Steady(h, settings)
    ensures Steady(Handle(h, settings, m, w).0, settings)
  {
    hide Read, Authenticate, QueueOk, Reread, Quiet, TurnAway;
    if Reread(h.books).Some? {
      LookedIsQuiet(h);
      SameQueue(h, Looked(h), settings);
      if Authenticate(Looked(h).books.document, m.node).Some? {
        TurnAwayKeepsSteady(Looked(h), settings, m);
      } else {
        HandleIsReadyThenRead(h, settings, m, w);
        var rest := WithoutHeld(Looked(h), m.node);
        WithoutHeldIsQuiet(Looked(h), m.node);
        SameQueue(h, rest, settings);
        if HasHeld(h, m) {
          ReadKeepsSteady(rest, settings, h.early[m.node], w);
          ReadKeeps(rest, settings, h.early[m.node], w);
        }
        ReadKeepsSteady(Ready(h, settings, m, w), settings, m, w);
      }
    }
  }

  lemma WithoutHeldIsQuiet(h: Hub, node: NodeId)
    requires Quiet(h)
    ensures Quiet(WithoutHeld(h, node))
  {
  }

  lemma SameQueue(h: Hub, after: Hub, settings: Settings)
    requires QueueOk(h, settings) && after.queue == h.queue && after.journal == h.journal
    ensures QueueOk(after, settings)
  {
  }

  lemma StepKeepsSteady(h: Hub, settings: Settings, op: Op)
    requires Steady(h, settings)
    ensures Steady(Apply(h, settings, op), settings)
  {
    hide Handle, Approving, Revoke, Configure;
    match op
    case Hear(m, w) => HandleKeepsSteady(h, settings, m, w);
    case ApproveOne(node, pinned, w) =>
      var books := Approving(h.books, node, pinned, w.registrySaved).0;
      if node in h.early {
        HandleKeepsSteady(h.(books := books, early := h.early - {node}), settings, h.early[node], w);
      }
    case RevokeOne(node, registrySaved) => RevokeKeepsSteady(h, settings, node, registrySaved);
    case ConfigureOne(node, possible, commandId, now) => ConfigureKeepsSteady(h, settings, node, possible, commandId, now);
    case Dispatch =>
      if h.queue != [] {
        assert forall e | e in h.queue[1..] :: e in h.queue;
      }
    case Link(up) =>
    case Edited(_) =>
  }

  lemma RevokeKeepsSteady(h: Hub, settings: Settings, node: NodeId, registrySaved: bool)
    requires Steady(h, settings)
    ensures Steady(Revoke(h, node, registrySaved).0, settings)
  {
    hide Revoking, QueueOk, AllDisabled;
    SameQueue(h, Revoke(h, node, registrySaved).0, settings);
  }

  lemma ConfigureKeepsSteady(h: Hub, settings: Settings, node: NodeId, possible: bool, commandId: Id, now: real)
    requires Steady(h, settings)
    ensures Steady(Configure(h, node, possible, commandId, now).0, settings)
  {
    hide NextRevision, StillOut, QueueOk;
    SameQueue(h, Configure(h, node, possible, commandId, now).0, settings);
  }

  /** In every run, whatever is done to the registry's file: what is held for a node is one state message of
      its own, that nothing will be acknowledged for; and the queue is bounded and holds only what is journalled
      and live. */
  lemma {:induction false} StaysSteady(h: Hub, settings: Settings, ops: seq<Op>)
    requires Steady(h, settings)
    ensures Steady(Run(h, settings, ops), settings)
    decreases ops
  {
    hide Apply, Steady;
    if ops != [] {
      StepKeepsSteady(h, settings, ops[0]);
      StaysSteady(Apply(h, settings, ops[0]), settings, ops[1..]);
    }
  }

  /** So every message of every run, from any registry, is settled once or not at all, as above. */
  lemma EveryRunIsSteady(books: Books, journal: Journal.JournalView, settings: Settings, monotonic: real, ops: seq<Op>)
    ensures Steady(Run(Started(books, journal, settings.rates, monotonic), settings, ops), settings)
  {
    hide Run;
    StaysSteady(Started(books, journal, settings.rates, monotonic), settings, ops);
  }

  // -- nothing is held for a stranger --------------------------------------------------------------------------------

  /** Whoever something is held for is registered, and will be when the file is looked at again. */
  predicate Listed(h: Hub) {
    h.early.Keys <= h.books.document.nodes.Keys && (h.books.changed ==> !Forgets(h, h.books.file))
  }

  /** A file that no longer lists somebody whose message is held. */
  predicate Forgets(h: Hub, file: File) {
    match file
    case Absent => h.early != map[]
    case Garbled => false
    case Legible(d) => !(h.early.Keys <= d.nodes.Keys)
  }

  predicate NobodyIsForgotten(h: Hub, settings: Settings, ops: seq<Op>)
    decreases ops
  {
    ops == [] ||
    ((ops[0].Edited? ==> !Forgets(h, ops[0].file)) && NobodyIsForgotten(Apply(h, settings, ops[0]), settings, ops[1..]))
  }

  lemma LookedIsListed(h: Hub)
    requires Listed(h) && Reread(h.books).Some?
    ensures Listed(Looked(h))
  {
  }

  lemma HandleKeepsListed(h: Hub, settings: Settings, m: Message, w: World)
    requires Quiet(h) && Listed(h)
    ensures Listed(Handle(h, settings, m, w).0)
  {
    hide Read, Authenticate, Reread;
    if Reread(h.books).Some? {
      LookedIsQuiet(h);
      LookedIsListed(h);
      if Authenticate(Looked(h).books.document, m.node).Some? {
        TurnAwayKeepsListed(Looked(h), m);
      } else {
        HandleIsReadyThenRead(h, settings, m, w);
        if HasHeld(h, m) {
          ReadKeeps(WithoutHeld(Looked(h), m.node), settings, h.early[m.node], w);
        }
        ReadKeeps(Ready(h, settings, m, w), settings, m, w);
      }
    }
  }

  lemma TurnAwayKeepsListed(h: Hub, m: Message)
    requires Listed(h) && !h.books.changed && Authenticate(h.books.document, m.node).Some?
    ensures Listed(TurnAway(h, m, Authenticate(h.books.document, m.node).value))
  {
  }

  lemma ChangesKeepListed(h: Hub, node: NodeId, pinned: Option<string>, works: bool)
    requires Listed(h)
    ensures Listed(h.(books := Approving(h.books, node, pinned, works).0))
    ensures Listed(h.(books := Revoking(h.books, node, works).0))
  {
  }

  lemma RevokeKeepsListed(h: Hub, node: NodeId, registrySaved: bool)
    requires Listed(h)
    ensures Listed(Revoke(h, node, registrySaved).0)
  {
    hide Revoking, AllDisabled;
    ChangesKeepListed(h, node, None, registrySaved);
  }

  lemma SameBooksAndHeld(h: Hub, after: Hub)
    requires Listed(h) && after.books == h.books && after.early == h.early
    ensures Listed(after)
  {
  }

  lemma StepKeepsListed(h: Hub, settings: Settings, op: Op)
    requires Quiet(h) && Listed(h) && (op.Edited? ==> !Forgets(h, op.file))
    ensures Listed(Apply(h, settings, op))
  {
    hide Handle, Approving, Revoke, NextRevision, StillOut;
    match op
    case Hear(m, w) => HandleKeepsListed(h, settings, m, w);
    case ApproveOne(node, pinned, w) => ApproveKeepsListed(h, settings, node, pinned, w);
    case RevokeOne(node, registrySaved) => RevokeKeepsListed(h, node, registrySaved);
    case Edited(_) =>
    case _ => hide Listed; SameBooksAndHeld(h, Apply(h, settings, op));
  }

  lemma ApproveKeepsListed(h: Hub, settings: Settings, node: NodeId, pinned: Option<string>, w: World)
    requires Quiet(h) && Listed(h)
    ensures Listed(Approve(h, settings, node, pinned, w).0)
  {
    hide Handle, Approving;
    ChangesKeepListed(h, node, pinned, w.registrySaved);
    if node in h.early {
      HandleKeepsListed(h.(books := Approving(h.books, node, pinned, w.registrySaved).0, early := h.early - {node}), settings,
                        h.early[node], w);
    }
  }

  /** In every run in which no edit drops a node whose message is held, nothing is held for a name nobody
      registered. */
  lemma {:induction false} NothingIsHeldForAStranger(h: Hub, settings: Settings, ops: seq<Op>)
    requires Steady(h, settings) && Listed(h) && NobodyIsForgotten(h, settings, ops)
    ensures Run(h, settings, ops).early.Keys <= Run(h, settings, ops).books.document.nodes.Keys
    decreases ops
  {
    hide Apply, QueueOk, Forgets;
    if ops != [] {
      StepKeepsSteady(h, settings, ops[0]);
      StepKeepsListed(h, settings, ops[0]);
      NothingIsHeldForAStranger(Apply(h, settings, ops[0]), settings, ops[1..]);
    }
  }

  // -- approving and revoking ---------------------------------------------------------------------------------------

  lemma HelloOpens(h: Hub, settings: Settings, m: Message, w: World)
    requires m.channel.StateChannel? && Readable(m) && m.payload.state.ourProtocol && m.payload.state.hello.online
    requires !StateBreaks(h, settings, m.node, m.payload.state, w)
    requires !Sessions.SaysItAgain(h.sessions, m.node, m.payload.state.hello)
    ensures var (after, raised) := Read(h, settings, m, w);
            && !raised && Acks(after.actions) == Acks(h.actions) + Once(h, m)
            && Sessions.Current(after.sessions, m.node).Some?
            && after.sessions[m.node].connection == Sessions.NamedConnection(m.payload.state.hello)
            && after.sessions[m.node].boot == m.payload.state.hello.boot
            && Events in after.sessions[m.node].grants
  {
    hide Acks, Adopt, Settled, StateBreaks, Saying, Sessions.SaysItAgain, OpenSession;
    ReadAcks(h, settings, m, w);
    OnStateRaises(h, settings, m.node, m.payload.state, w);
    OpenSessionAcksNothing(Remembered(h, m.node, m.payload.state), settings, m.node, m.payload.state, w);
    SaidIsOnlySaid();
  }

  /** A node that says hello before it is approved, and nothing after, is online the moment it is. */
  lemma ApprovedWhileConnected(h: Hub, settings: Settings, m: Message, w: World, pinned: Option<string>, later: World)
    requires Quiet(h) && !h.books.changed && Authenticate(h.books.document, m.node) == Some(NotApproved)
    requires CanApprove(h.books.document, m.node, pinned) && later.registrySaved
    requires m.channel.StateChannel? && Readable(m) && m.payload.state.ourProtocol && m.payload.state.hello.online
    requires !StateBreaks(h, settings, m.node, m.payload.state, later)
    requires !Sessions.SaysItAgain(h.sessions, m.node, m.payload.state.hello)
    ensures var heard := Handle(h, settings, m, w).0;
            var (after, raised) := Approve(heard, settings, m.node, pinned, later);
            && heard.sessions == h.sessions
            && !raised && Acks(after.actions) == Acks(heard.actions)
            && Sessions.Current(after.sessions, m.node).Some?
            && after.sessions[m.node].connection == Sessions.NamedConnection(m.payload.state.hello)
            && Events in after.sessions[m.node].grants
  {
    hide Acks, Read, StateBreaks, Settled, Sessions.SaysItAgain, Once;
    RevokedIsNotHeard(h, settings, m, w);
    var heard := Handle(h, settings, m, w).0;
    var held := m.(qos := 0);
    HeldForApproval(h, settings, m, w);
    var approved := heard.(books := Approving(heard.books, m.node, pinned, true).0, early := heard.early - {m.node});
    assert Handle(approved, settings, held, later) == Read(approved, settings, held, later);
    BreaksTheSame(h, approved, settings, m.node, m.payload.state, later);
    HelloOpens(approved, settings, held, later);
    QosZeroSettlesNothing(approved, held);
  }

  lemma HeldForApproval(h: Hub, settings: Settings, m: Message, w: World)
    requires !h.books.changed && Authenticate(h.books.document, m.node) == Some(NotApproved) && m.channel.StateChannel?
    ensures var heard := Handle(h, settings, m, w).0;
            m.node in heard.early && heard.early[m.node] == m.(qos := 0)
  {
  }

  lemma QosZeroSettlesNothing(h: Hub, m: Message)
    requires m.qos == 0
    ensures Once(h, m) == [] && Acks(h.actions) + [] == Acks(h.actions)
  {
  }

  lemma BreaksTheSame(h: Hub, after: Hub, settings: Settings, node: NodeId, says: StateSays, w: World)
    requires after.sources == h.sources && after.cameras == h.cameras && after.sessions == h.sessions
    requires Reread(h.books).Some? && Reread(after.books).Some?
    ensures StateBreaks(after, settings, node, says, w) <==> StateBreaks(h, settings, node, says, w)
  {
  }

  /** A name that may not speak changes nothing but what is held for it and what the broker is told. */
  lemma RevokedIsNotHeard(h: Hub, settings: Settings, m: Message, w: World)
    requires Reread(h.books).Some? && Authenticate(Looked(h).books.document, m.node).Some?
    ensures var (after, raised) := Handle(h, settings, m, w);
            && !raised && after == Looked(h).(early := after.early, actions := after.actions)
            && (Authenticate(Looked(h).books.document, m.node) != Some(NotApproved) ==> after.early == h.early)
  {
  }

  /** After a revocation that was kept, until somebody approves the node again, nothing it sends opens a
      session, enters the journal or reaches the rules, and there is no session, grant or request left of it. */
  lemma RevokedIsGone(h: Hub, settings: Settings, node: NodeId, m: Message, w: World)
    requires Reread(h.books).Some? && node in Looked(h).books.document.nodes && m.node == node
    ensures var (gone, raised) := Revoke(h, node, true);
            && !raised && gone.books.file == Legible(gone.books.document)
            && Sessions.Current(gone.sessions, node).None? && node !in gone.early && node !in gone.pending && node !in gone.reported
            && (forall key | key in gone.sources && key.0 == node :: gone.sources[key] == Ingress.Disabled)
            && var after := Handle(gone, settings, m, w).0;
               after.sessions == gone.sessions && after.journal == gone.journal && after.queue == gone.queue
  {
    hide Settled;
    var gone := Revoke(h, node, true).0;
    RevokedIsNotHeard(gone, settings, m, w);
  }

  /** A revocation that could not be kept is reported and leaves the session as it was; yet while this process
      runs and nobody replaces the file, nothing more the node sends is heard. */
  lemma AFailedRevocationStillSilences(h: Hub, settings: Settings, node: NodeId, m: Message, w: World)
    requires Reread(h.books).Some? && node in Looked(h).books.document.nodes && m.node == node
    ensures var (after, raised) := Revoke(h, node, false);
            && raised && after.sessions == h.sessions && after.books.file == h.books.file
            && var heard := Handle(after, settings, m, w).0;
               heard.sessions == h.sessions && heard.journal == h.journal && heard.queue == h.queue
  {
    hide Settled;
    RevokedIsNotHeard(Revoke(h, node, false).0, settings, m, w);
  }

  // -- configuration -----------------------------------------------------------------------------------------------------

  function LastRevision(h: Hub, node: NodeId): int {
    if node in h.pending then h.pending[node].revision else 0
  }

  lemma SaidIsOnlySaid()
    ensures forall h, m :: Settled(h, m) == h.(actions := Settled(h, m).actions)
    ensures forall h, action :: Saying(h, action) == h.(actions := Saying(h, action).actions)
    ensures forall h, action :: Doing(h, action) == h.(actions := Doing(h, action).actions)
  {
  }

  lemma OnAckKeepsRevisions(h: Hub, node: NodeId, says: AckSays, n: NodeId)
    ensures LastRevision(OnAck(h, node, says), n) == LastRevision(h, n)
  {
  }

  lemma ReadKeepsRevisions(h: Hub, settings: Settings, m: Message, w: World, node: NodeId)
    ensures LastRevision(Read(h, settings, m, w).0, node) == LastRevision(h, node)
  {
    hide OnState, OnAck, Ingress.Accept, RateLimiter.Allow, Sessions.MayEnter, Settled, Concluded, Acks;
    SaidIsOnlySaid();
    var buckets := Drawing(h, settings, m, w).0;
    var drawn := h.(buckets := buckets);
    if Readable(m) {
      match m.channel
      case EventChannel => EnterKeepsPending(drawn, settings, m, m.payload.event.message, w);
      case HealthChannel =>
      case AckChannel => OnAckKeepsRevisions(drawn, m.node, m.payload.ack, node);
      case StateChannel => OnStateAcksNothing(drawn, settings, m.node, m.payload.state, w);
    }
  }

  lemma EnterKeepsPending(h: Hub, settings: Settings, m: Message, message: Ingress.Message, w: World)
    ensures Enter(h, settings, m, message, w).0.pending == h.pending
  {
    hide Ingress.Accept, Concluded;
    var (journal, receipt) := Accepting(h, settings, m, message, w);
    if receipt.Some? {
      ConcludedKeeps(h.(journal := journal), settings, m, receipt.value);
    }
  }

  lemma HandleKeepsRevisions(h: Hub, settings: Settings, m: Message, w: World, node: NodeId)
    requires Quiet(h)
    ensures LastRevision(Handle(h, settings, m, w).0, node) == LastRevision(h, node)
  {
    hide Read, Authenticate, Settled, Reread;
    SaidIsOnlySaid();
    if MaySpeak(h, m.node) {
      HandleIsReadyThenRead(h, settings, m, w);
      var rest := WithoutHeld(Looked(h), m.node);
      if HasHeld(h, m) {
        ReadKeepsRevisions(rest, settings, h.early[m.node], w, node);
      }
      ReadKeepsRevisions(Ready(h, settings, m, w), settings, m, w, node);
    }
  }

  predicate Revokes(op: Op, node: NodeId) {
    op.RevokeOne? && op.node == node
  }

  lemma StepKeepsRevisions(h: Hub, settings: Settings, op: Op, node: NodeId)
    requires Steady(h, settings) && !Revokes(op, node)
    ensures LastRevision(Apply(h, settings, op), node) >= LastRevision(h, node)
  {
    hide Handle, StillOut, Approving, Revoking, QueueOk;
    match op
    case Hear(m, w) => HandleKeepsRevisions(h, settings, m, w, node);
    case ApproveOne(other, pinned, w) =>
      var (books, change) := Approving(h.books, other, pinned, w.registrySaved);
      if change.Kept? && other in h.early {
        HandleKeepsRevisions(h.(books := books, early := h.early - {other}), settings, h.early[other], w, node);
      }
    case RevokeOne(other, _) =>
    case ConfigureOne(_, _, _, _) =>
    case Dispatch =>
    case Link(up) =>
    case Edited(_) =>
  }

  lemma {:induction false} RevisionsNeverFall(h: Hub, settings: Settings, ops: seq<Op>, node: NodeId)
    requires Steady(h, settings) && forall i | 0 <= i < |ops| :: !Revokes(ops[i], node)
    ensures LastRevision(Run(h, settings, ops), node) >= LastRevision(h, node)
    decreases ops
  {
    hide Apply, Steady, LastRevision, Revokes;
    if ops != [] {
      StepKeepsSteady(h, settings, ops[0]);
      StepKeepsRevisions(h, settings, ops[0], node);
      RevisionsNeverFall(Apply(h, settings, ops[0]), settings, ops[1..], node);
    }
  }

  /** Whatever happens in between, short of revoking the node, a later configuration carries a higher
      revision than an earlier one, and than the one the node last said it runs. */
  lemma RevisionsRise(h: Hub, settings: Settings, node: NodeId, first: Id, now: real, between: seq<Op>, second: Id, later: real)
    requires Steady(h, settings) && Configure(h, node, true, first, now).1.Success?
    requires forall i | 0 <= i < |between| :: !Revokes(between[i], node)
    requires var next := Run(Configure(h, node, true, first, now).0, settings, between);
             Configure(next, node, true, second, later).1.Success?
    ensures var (sent, answer) := Configure(h, node, true, first, now);
            var next := Run(sent, settings, between);
            && answer.value.revision < Configure(next, node, true, second, later).1.value.revision
            && ReportedRevision(next, node) < Configure(next, node, true, second, later).1.value.revision
  {
    hide Run, StillOut, Handle, Steady, QueueOk;
    var sent := Configure(h, node, true, first, now).0;
    StepKeepsSteady(h, settings, ConfigureOne(node, true, first, now));
    RevisionsNeverFall(sent, settings, between, node);
  }

  /** How far a request has got. */
  function Rank(state: Progress): nat {
    match state
    case Sent => 0
    case Answered(Received) => 1
    case Answered(_) => 2
  }

  /** An answer is taken only for the request that is out, under its own id; it never takes a request back,
      and a first answer, or a final one, is always taken. */
  lemma AnswersMoveOn(h: Hub, node: NodeId, says: AckSays)
    ensures var after := OnAck(h, node, says);
            && after.pending.Keys == h.pending.Keys && after == h.(pending := after.pending)
            && (forall n | n in h.pending && n != node :: after.pending[n] == h.pending[n])
            && (node in h.pending ==>
                  && after.pending[node] == h.pending[node].(state := after.pending[node].state)
                  && Rank(h.pending[node].state) <= Rank(after.pending[node].state)
                  && (after.pending[node].state != h.pending[node].state ==>
                        says.commandId == Some(h.pending[node].commandId) && says.outcome.Some?
                        && after.pending[node].state == Answered(says.outcome.value))
                  && (says.commandId == Some(h.pending[node].commandId) && says.outcome.Some?
                      && (h.pending[node].state.Sent? || !says.outcome.value.Received?) ==>
                        after.pending[node].state == Answered(says.outcome.value)))
  {
  }

  /** While a request is out and not finally answered, another waits; once it is, or patience has run out,
      the next one goes. */
  lemma OneRequestAtATime(h: Hub, node: NodeId, first: Id, now: real, says: AckSays, second: Id, later: real)
    requires Configure(h, node, true, first, now).1.Success?
    ensures var sent := Configure(h, node, true, first, now).0;
            var answered := OnAck(sent, node, says);
            var (after, result) := Configure(answered, node, true, second, later);
            var over := says.commandId == Some(first) && says.outcome in {Some(Applied), Some(Failed)};
            && (result == Failure(StillWaiting) <==> !over && later - now < PATIENCE)
            && (result == Failure(StillWaiting) ==> after == answered)
            && (result.Success? <==> result != Failure(StillWaiting))
  {
    var sent := Configure(h, node, true, first, now).0;
    AnswersMoveOn(sent, node, says);
    var answered := OnAck(sent, node, says);
    assert answered.sessions == h.sessions && answered.books == h.books && answered.linked;
    assert sent.pending[node].state == Sent && sent.pending[node].sentAt == now && sent.pending[node].commandId == first;
    assert answered.pending[node].state
        == if says.commandId == Some(first) && says.outcome.Some? then Answered(says.outcome.value) else Sent;
    assert StillOut(answered, node, later)
      <==> answered.pending[node].state in {Sent, Answered(Received)} && later - now < PATIENCE;
  }

  // -- the sources a node declares ------------------------------------------------------------------------

  /** What a list says last about a source, if it says anything the hub can use. */
  function LastSaid(entries: seq<EntrySays>, id: SourceId): (said: Option<EntrySays>)
    ensures said.Some? ==> Declares(said.value) && said.value.sourceId == Some(id)
    decreases entries
  {
    if entries == [] then None
    else
      var later := LastSaid(entries[1..], id);
      if later.Some? then later
      else if Declares(entries[0]) && entries[0].sourceId == Some(id) then Some(entries[0]) else None
  }

  /** Whether a list has this hub make the source its own camera. */
  predicate Filmed(films: bool, entries: seq<EntrySays>, id: SourceId)
    decreases entries
  {
    entries != [] &&
    ((Declares(entries[0]) && Films(films, entries[0]) && entries[0].sourceId == Some(id)) || Filmed(films, entries[1..], id))
  }

  lemma {:induction false} AdoptedEntries(a: Adopted, films: bool, node: NodeId, entries: seq<EntrySays>, key: Journal.Key)
    requires !a.raised && !AdoptEntries(a, films, node, entries).raised
    ensures var b := AdoptEntries(a, films, node, entries);
            var said := LastSaid(entries, key.1);
            if key.0 == node && said.Some? then
              key in b.named && key in b.sources
              && b.sources[key] == (if said.value.enabled then Ingress.Ready else Ingress.Disabled)
            else (key in b.named <==> key in a.named) && (key in b.sources <==> key in a.sources)
                 && (key in a.sources ==> b.sources[key] == a.sources[key])
    ensures key in AdoptEntries(a, films, node, entries).cameras
       <==> key in a.cameras || (key.0 == node && Filmed(films, entries, key.1))
    decreases entries
  {
    if entries != [] {
      var b := AdoptOne(a, films, node, entries[0]);
      if !b.raised {
        AdoptedEntries(b, films, node, entries[1..], key);
        FilmedNow(a, films, node, entries[0]);
      }
    }
  }

  /** A list the hub read to its end: each source of the node is as the list last says it is, those it
      leaves out are known and disabled, nobody else's have changed, and the cameras it declares enabled are
      this hub's own if the hub makes cameras its own. */
  lemma DeclaredSourcesAreAdopted(sources: Ingress.Sources, cameras: set<Journal.Key>, films: bool, node: NodeId,
                                  declared: DeclaredSays, key: Journal.Key)
    requires !Adopt(sources, cameras, films, node, declared).raised
    ensures var after := Adopt(sources, cameras, films, node, declared);
            var said := LastSaid(EntriesOf(declared), key.1);
            && (key in after.sources <==> key in sources || (key.0 == node && said.Some?))
            && (key in after.sources ==>
                  after.sources[key] == if key.0 != node then sources[key]
                                        else if said.Some? && said.value.enabled then Ingress.Ready else Ingress.Disabled)
            && (key in after.cameras <==> key in cameras || (key.0 == node && Filmed(films, EntriesOf(declared), key.1)))
  {
    hide AdoptEntries, LastSaid, Filmed;
    AdoptedEntries(Adopted(sources, cameras, {}, false), films, node, EntriesOf(declared), key);
  }
}
