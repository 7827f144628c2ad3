/** What each message does to the hub, and what the hub is after any run, told by the messages alone: who is
    heard, what reaches the journal and the rules, what a node is reported to run, and how fast events come in.
  */
module HubProofs {
  import opened Wrappers
  import opened Wire
  import opened Registry
  import opened Service
  import opened ServiceProofs
  import Journal
  import Ingress
  import Sessions
  import SessionProofs
  import RateLimiter

  // -- one message of a node that may speak -------------------------------------------------------------

  /** A document, of its own sender if it says whose it is. */
  predicate IsItsOwn(m: Message) {
    m.payload.Document? && (m.payload.claims == None || m.payload.claims == Some(m.node))
  }

  /** An event that gets as far as the journal: within the budget, a document of its own sender with an envelope, on a
      connection, under a number and a grant that may come in. */
  predicate ReachesTheJournal(h: Hub, settings: Settings, m: Message, w: World) {
    && m.channel == EventChannel
    && RateLimiter.Allow(settings.rates, h.buckets, m.node, w.monotonic).1 == RateLimiter.Pass
    && IsItsOwn(m) && m.payload.event.enveloped
    && Sessions.MayEnter(h.sessions, m.node, m.payload.event.connection, m.payload.event.hubEpoch, m.payload.event.grantId, w.monotonic)
  }

  function ArrivalIn(h: Hub, m: Message, w: World): Ingress.Arrival
    requires m.payload.Document?
  {
    Ingress.Arrival(h.sources, m.node, m.payload.event.message, m.retained, w.now, w.disk)
  }

  function EntryOf(m: Message, w: World): Journal.Entry
    requires m.payload.Document? && m.payload.event.message.Matched?
  {
    Journal.Entry(m.payload.event.message.envelope.event, m.payload.event.message.envelope.delivery, w.now, Journal.Live, true, None)
  }

  /** An event that is live and finds room among those waiting for the rules. */
  predicate ReachesTheRules(h: Hub, settings: Settings, m: Message, w: World) {
    ReachesTheJournal(h, settings, m, w) && Ingress.IsLive(h.journal, settings.ingress, ArrivalIn(h, m, w))
    && |h.queue| < settings.queueDepth
  }

  /** Reading a message writes to the journal exactly what an event that gets there writes, hands on exactly what is live
      while there is room, and draws on the budget exactly for events. */
  lemma WhatReachesTheRules(h: Hub, settings: Settings, m: Message, w: World)
    ensures var after := Read(h, settings, m, w).0;
            && after.buckets == (if m.channel == EventChannel then RateLimiter.Allow(settings.rates, h.buckets, m.node, w.monotonic).0
                                 else h.buckets)
            && after.journal == (if ReachesTheJournal(h, settings, m, w) then Ingress.After(h.journal, settings.ingress, ArrivalIn(h, m, w))
                                 else h.journal)
            && after.queue == h.queue + (if ReachesTheRules(h, settings, m, w) then [EntryOf(m, w)] else [])
  {
    if m.channel.EventChannel? {
      AnEventIsRead(h, settings, m, w);
    } else {
      AnythingElseIsRead(h, settings, m, w);
    }
  }

  lemma AnEventIsRead(h: Hub, settings: Settings, m: Message, w: World)
    requires m.channel.EventChannel?
    ensures var after := Read(h, settings, m, w).0;
            && after.buckets == RateLimiter.Allow(settings.rates, h.buckets, m.node, w.monotonic).0
            && after.journal == (if ReachesTheJournal(h, settings, m, w) then Ingress.After(h.journal, settings.ingress, ArrivalIn(h, m, w))
                                 else h.journal)
            && after.queue == h.queue + (if ReachesTheRules(h, settings, m, w) then [EntryOf(m, w)] else [])
  {
    hide OnState, OnAck, Settled, Enter, Ingress.After, Ingress.IsLive, Sessions.MayEnter, RateLimiter.Allow, Acks;
    SaidIsOnlySaid();
    if Readable(m) {
      EnteringHandsOn(h.(buckets := Drawing(h, settings, m, w).0), settings, m, w);
    }
  }

  lemma AnythingElseIsRead(h: Hub, settings: Settings, m: Message, w: World)
    requires !m.channel.EventChannel?
    ensures var after := Read(h, settings, m, w).0;
            after.buckets == h.buckets && after.journal == h.journal && after.queue == h.queue
  {
    hide OnState, OnAck, OnEvent, Settled, Sessions.Heard, RateLimiter.Allow;
    SaidIsOnlySaid();
    if Readable(m) {
      StateTouchesNoEvents(h, settings, m.node, m.payload.state, w);
      OnAckTouchesOnlyPending(h, m.node, m.payload.ack);
    }
  }

  lemma StateTouchesNoEvents(h: Hub, settings: Settings, node: NodeId, says: StateSays, w: World)
    ensures var after := OnState(h, settings, node, says, w).0;
            after.buckets == h.buckets && after.journal == h.journal && after.queue == h.queue && after.pending == h.pending
  {
    hide OnState, Acks;
    OnStateAcksNothing(h, settings, node, says, w);
  }

  lemma EnteringHandsOn(h: Hub, settings: Settings, m: Message, w: World)
    requires m.payload.Document?
    ensures var after := Enter(h, settings, m, m.payload.event.message, w).0;
            && after.buckets == h.buckets
            && after.journal == Ingress.After(h.journal, settings.ingress, ArrivalIn(h, m, w))
            && after.queue == h.queue +
                 (if Ingress.IsLive(h.journal, settings.ingress, ArrivalIn(h, m, w)) && |h.queue| < settings.queueDepth
                  then [EntryOf(m, w)] else [])
  {
    hide Ingress.Accept, Ingress.IsLive, Concluded;
    var a := ArrivalIn(h, m, w);
    var (journal, receipt) := Accepting(h, settings, m, m.payload.event.message, w);
    Ingress.LiveMeans(h.journal, settings.ingress, a);
    LiveIsTheEntry(h.journal, settings.ingress, a);
    NoReceiptNoTrace(h.journal, settings.ingress, a);
    if receipt.Some? {
      ConcludedKeeps(h.(journal := journal), settings, m, receipt.value);
      ConcludedQueues(h.(journal := journal), settings, m, receipt.value);
    }
  }

  lemma LiveIsTheEntry(j: Journal.JournalView, limits: Ingress.Limits, a: Ingress.Arrival)
    ensures Ingress.IsLive(j, limits, a) ==>
              var r := Ingress.ReceiptOf(j, limits, a);
              r.Some? && r.value.event == Some(Journal.Entry(a.message.envelope.event, a.message.envelope.delivery, a.now, Journal.Live, true, None))
  {
    hide Journal.OutcomeOf, Journal.TooWide;
  }

  lemma NoReceiptNoTrace(j: Journal.JournalView, limits: Ingress.Limits, a: Ingress.Arrival)
    ensures Ingress.ReceiptOf(j, limits, a).None? ==> Ingress.After(j, limits, a) == j
  {
    hide Ingress.Classify, Journal.OutcomeOf;
  }

  // -- who stands with the hub ---------------------------------------------------------------------------

  /** What reading a message is to the session table. A hello that would begin a session goes nowhere when its number
      cannot be written, and is not granted when its list of sources breaks off. */
  ghost function SessionOp(h: Hub, settings: Settings, m: Message, w: World): SessionProofs.Op {
    var says := if m.payload.Document? then m.payload.state
                else StateSays(false, Sessions.Hello(None, None, false), NotSaid, None);
    if !IsItsOwn(m) || m.channel.EventChannel? || m.channel.AckChannel? then SessionProofs.OpElsewhere(w.monotonic)
    else if m.channel.HealthChannel? then SessionProofs.OpHeartbeat(m.node, w.monotonic)
    else if !says.ourProtocol then SessionProofs.OpClose(m.node, w.monotonic)
    else if Sessions.OpensASession(h.sessions, m.node, says.hello) && !Numbered(h.books, w.registrySaved).1.Kept? then
      SessionProofs.OpElsewhere(w.monotonic)
    else
      SessionProofs.OpHello(m.node, says.hello, !Breaks(Unadopted(h), settings.films, m.node, EntriesOf(says.declared)),
                            Numbered(h.books, w.registrySaved).0.document.hubEpoch, w.grantId, w.monotonic)
  }

  lemma SessionsMove(h: Hub, settings: Settings, m: Message, w: World)
    ensures Read(h, settings, m, w).0.sessions == SessionProofs.Moved(h.sessions, settings.sessions, SessionOp(h, settings, m, w))
  {
    hide OnState, OnEvent, OnAck, Settled, RateLimiter.Allow, Breaks, SessionProofs.Moved, Sessions.Heard, Numbered;
    SaidIsOnlySaid();
    OnlyElsewhere(h.sessions, settings.sessions, w.monotonic);
    var drawn := h.(buckets := Drawing(h, settings, m, w).0);
    if Readable(m) {
      match m.channel
      case StateChannel => StateMovesSessions(h, settings, m, w);
      case AckChannel => OnAckTouchesOnlyPending(h, m.node, m.payload.ack);
      case EventChannel => EventsMoveNoSessions(drawn, settings, m, w);
      case HealthChannel => HeartbeatIsHeard(h.sessions, settings.sessions, m.node, w.monotonic);
    }
  }

  lemma OnlyElsewhere(t: Sessions.Table, settings: Sessions.Settings, at: real)
    ensures SessionProofs.Moved(t, settings, SessionProofs.OpElsewhere(at)) == t
  {
  }

  lemma HeartbeatIsHeard(t: Sessions.Table, settings: Sessions.Settings, node: NodeId, at: real)
    ensures SessionProofs.Moved(t, settings, SessionProofs.OpHeartbeat(node, at)) == Sessions.Heard(t, node, at)
  {
  }

  lemma EventsMoveNoSessions(h: Hub, settings: Settings, m: Message, w: World)
    requires m.payload.Document?
    ensures var after := OnEvent(h, settings, m, m.payload.event, w).0;
            after.sessions == h.sessions && after.reported == h.reported && after.pending == h.pending && after.books == h.books
  {
    hide Ingress.Accept, Concluded, Settled, Sessions.MayEnter;
    SaidIsOnlySaid();
    var (journal, receipt) := Accepting(h, settings, m, m.payload.event.message, w);
    if receipt.Some? {
      ConcludedKeeps(h.(journal := journal), settings, m, receipt.value);
    }
  }

  lemma StateMovesSessions(h: Hub, settings: Settings, m: Message, w: World)
    requires m.channel.StateChannel? && IsItsOwn(m)
    ensures OnState(h, settings, m.node, m.payload.state, w).0.sessions
         == SessionProofs.Moved(h.sessions, settings.sessions, SessionOp(h, settings, m, w))
  {
    hide Breaks, Adopt, Numbered, Sessions.Opened, Sessions.Granted, Sessions.Closed, Saying;
    var says := m.payload.state;
    SaidIsOnlySaid();
    if says.ourProtocol && says.hello.online && !Sessions.SaysItAgain(h.sessions, m.node, says.hello) {
      OpeningGrants(Remembered(h, m.node, says), settings, m.node, says, w);
    }
  }

  /** A session that opens is granted exactly if the list that came with it is adopted to its end. */
  lemma OpeningGrants(h: Hub, settings: Settings, node: NodeId, says: StateSays, w: World)
    ensures var (books, change) := Numbered(h.books, w.registrySaved);
            var table := OpenSession(h, settings, node, says, w).0.sessions;
            if !change.Kept? then table == h.sessions
            else if Breaks(Unadopted(h), settings.films, node, EntriesOf(says.declared)) then
              table == Sessions.Opened(h.sessions, node, Sessions.NamedConnection(says.hello), says.hello.boot, books.document.hubEpoch, w.monotonic)
            else
              table == Sessions.OpenAndGrant(h.sessions, settings.sessions, node, Sessions.NamedConnection(says.hello), says.hello.boot,
                                             books.document.hubEpoch, w.grantId, w.monotonic)
  {
    hide Breaks, Adopt, Numbered;
    SaidIsOnlySaid();
    var (books, change) := Numbered(h.books, w.registrySaved);
    var started := h.(books := books, sessions := Sessions.Opened(h.sessions, node, Sessions.NamedConnection(says.hello), says.hello.boot,
                                                                 books.document.hubEpoch, w.monotonic));
    AdoptingRaises(started, settings, node, says.declared);
    assert Unadopted(started) == Unadopted(h);
    hide Saying;
  }

  /** What a state makes the hub say to its node: the grant of a session that has just begun, if there is a broker to say
      it to, and nothing else. */
  lemma WhatAStateSays(h: Hub, settings: Settings, node: NodeId, says: StateSays, w: World)
    ensures var begins := says.ourProtocol && Sessions.OpensASession(h.sessions, node, says.hello)
                          && Numbered(h.books, w.registrySaved).1.Kept?
                          && !Breaks(Unadopted(h), settings.films, node, EntriesOf(says.declared));
            var epoch := Numbered(h.books, w.registrySaved).0.document.hubEpoch;
            OnState(h, settings, node, says, w).0.actions == h.actions +
              (if begins && h.linked
               then [Action.Granted(node, Sessions.Grant(w.grantId, node, Events, epoch, w.monotonic,
                                                         w.monotonic + settings.sessions.grantSeconds, 0))]
               else [])
  {
    hide Breaks, Adopt, Numbered, Sessions.Closed;
    var told := Remembered(h, node, says);
    var (books, change) := Numbered(h.books, w.registrySaved);
    var started := told.(books := books, sessions := Sessions.Opened(h.sessions, node, Sessions.NamedConnection(says.hello), says.hello.boot,
                                                                    books.document.hubEpoch, w.monotonic));
    AdoptingRaises(started, settings, node, says.declared);
    assert Unadopted(started) == Unadopted(h);
  }

  /** A revocation that was kept is said to the node while there is a broker, and an approval to nobody but by what was
      held for it. */
  lemma WhatARevocationSays(h: Hub, node: NodeId, registrySaved: bool)
    ensures Revoke(h, node, registrySaved).0.actions
         == h.actions + (if Revoking(h.books, node, registrySaved).1.Kept? && h.linked then [Action.Revoked(node)] else [])
  {
    hide Revoking, AllDisabled;
  }

  // -- what a node is reported to run ------------------------------------------------------------------------

  /** The hub takes a node's word for what it runs, from every state in its protocol that is no goodbye, whether or not
      the rest of the message can be gone through with; and nothing else changes it. */
  lemma ReportsAreTaken(h: Hub, settings: Settings, m: Message, w: World)
    ensures Read(h, settings, m, w).0.reported ==
              if m.channel == StateChannel && IsItsOwn(m) && m.payload.state.ourProtocol && m.payload.state.hello.online
              then h.reported[m.node := m.payload.state.revision]
              else h.reported
  {
    hide OnEvent, OnAck, OnState, Settled, RateLimiter.Allow, Sessions.Heard;
    SaidIsOnlySaid();
    var drawn := h.(buckets := Drawing(h, settings, m, w).0);
    if Readable(m) {
      match m.channel
      case StateChannel => StatesReport(h, settings, m.node, m.payload.state, w);
      case AckChannel => OnAckTouchesOnlyPending(h, m.node, m.payload.ack);
      case EventChannel => EventsMoveNoSessions(drawn, settings, m, w);
      case HealthChannel =>
    }
  }

  lemma StatesReport(h: Hub, settings: Settings, node: NodeId, says: StateSays, w: World)
    ensures OnState(h, settings, node, says, w).0.reported ==
              if says.ourProtocol && says.hello.online then h.reported[node := says.revision] else h.reported
  {
    hide Adopt, OpenSession, Sessions.Closed, Sessions.SaysItAgain;
    OpeningReportsNothing(Remembered(h, node, says), settings, node, says, w);
  }

  lemma OpeningReportsNothing(h: Hub, settings: Settings, node: NodeId, says: StateSays, w: World)
    ensures OpenSession(h, settings, node, says, w).0.reported == h.reported
  {
    hide Adopt, Numbered, Sessions.Opened, Sessions.Granted;
    SaidIsOnlySaid();
    hide Saying;
  }

  /** An answer of a node is taken by nothing but a document of its own on the channel for answers. */
  lemma AnswersAreTaken(h: Hub, settings: Settings, m: Message, w: World)
    ensures Read(h, settings, m, w).0.pending ==
              if m.channel == AckChannel && IsItsOwn(m) then OnAck(h, m.node, m.payload.ack).pending else h.pending
  {
    hide OnEvent, OnAck, OnState, Settled, RateLimiter.Allow, Sessions.Heard;
    SaidIsOnlySaid();
    var drawn := h.(buckets := Drawing(h, settings, m, w).0);
    if Readable(m) {
      match m.channel
      case StateChannel => StateTouchesNoEvents(h, settings, m.node, m.payload.state, w);
      case AckChannel => OnAckTouchesOnlyPending(h, m.node, m.payload.ack);
      case EventChannel => EventsMoveNoSessions(drawn, settings, m, w);
      case HealthChannel =>
    }
  }

  // -- over a run ------------------------------------------------------------------------------------------------

  /** What handling a message is to the session table: nothing, if its sender may not speak; else what was held, and then
      the message itself unless reading that broke off. */
  ghost function SessionOpsOf(h: Hub, settings: Settings, m: Message, w: World): seq<SessionProofs.Op> {
    if !MaySpeak(h, m.node) then []
    else
      var rest := WithoutHeld(Looked(h), m.node);
      if !HasHeld(h, m) then [SessionOp(rest, settings, m, w)]
      else
        [SessionOp(rest, settings, h.early[m.node], w)]
        + if HeldBreaks(h, settings, m, w) then [] else [SessionOp(Ready(h, settings, m, w), settings, m, w)]
  }

  ghost function SessionOpsIn(h: Hub, settings: Settings, op: Op): seq<SessionProofs.Op> {
    match op
    case Hear(m, w) => SessionOpsOf(h, settings, m, w)
    case ApproveOne(node, pinned, w) =>
      var (books, change) := Approving(h.books, node, pinned, w.registrySaved);
      if change.Kept? && node in h.early then
        SessionOpsOf(h.(books := books, early := h.early - {node}), settings, h.early[node], w)
      else []
    case RevokeOne(node, registrySaved) =>
      if Revoking(h.books, node, registrySaved).1.Kept? then [SessionProofs.OpClose(node, 0.0)] else []
    case _ => []
  }

  ghost function SessionOps(h: Hub, settings: Settings, ops: seq<Op>): seq<SessionProofs.Op>
    decreases ops
  {
    if ops == [] then [] else SessionOpsIn(h, settings, ops[0]) + SessionOps(Apply(h, settings, ops[0]), settings, ops[1..])
  }

  function Folded(t: Sessions.Table, settings: Sessions.Settings, ops: seq<SessionProofs.Op>): Sessions.Table
    decreases ops
  {
    if ops == [] then t else SessionProofs.Moved(Folded(t, settings, ops[..|ops| - 1]), settings, ops[|ops| - 1])
  }

  lemma {:induction false} FoldedOn(t: Sessions.Table, settings: Sessions.Settings, a: seq<SessionProofs.Op>, b: seq<SessionProofs.Op>)
    ensures Folded(t, settings, a + b) == Folded(Folded(t, settings, a), settings, b)
    decreases b
  {
    hide SessionProofs.Moved;
    if b == [] {
      assert a + b == a;
    } else {
      assert (a + b)[..|a + b| - 1] == a + b[..|b| - 1];
      FoldedOn(t, settings, a, b[..|b| - 1]);
    }
  }

  lemma {:induction false} FoldedIsTableAfter(settings: Sessions.Settings, ops: seq<SessionProofs.Op>, i: nat)
    requires i <= |ops|
    ensures Folded(map[], settings, ops[..i]) == SessionProofs.TableAfter(settings, ops, i)
    decreases i
  {
    hide SessionProofs.Moved;
    if i > 0 {
      FoldedIsTableAfter(settings, ops, i - 1);
      assert ops[..i][..i - 1] == ops[..i - 1];
    }
  }

  lemma FoldedOne(t: Sessions.Table, settings: Sessions.Settings, op: SessionProofs.Op)
    ensures Folded(t, settings, [op]) == SessionProofs.Moved(t, settings, op)
  {
    hide SessionProofs.Moved;
    assert [op][..0] == [] && Folded(t, settings, []) == t;
    assert Folded(t, settings, [op]) == SessionProofs.Moved(Folded(t, settings, [op][..0]), settings, op);
  }

  lemma ReadingFolds(h: Hub, settings: Settings, m: Message, w: World)
    ensures Read(h, settings, m, w).0.sessions == Folded(h.sessions, settings.sessions, [SessionOp(h, settings, m, w)])
  {
    hide Read, Folded, SessionOp, SessionProofs.Moved;
    SessionsMove(h, settings, m, w);
    FoldedOne(h.sessions, settings.sessions, SessionOp(h, settings, m, w));
  }

  lemma ReadingTwiceFolds(h: Hub, settings: Settings, held: Message, m: Message, w: World)
    ensures var ready := Read(h, settings, held, w).0;
            Read(ready, settings, m, w).0.sessions
            == Folded(h.sessions, settings.sessions, [SessionOp(h, settings, held, w)] + [SessionOp(ready, settings, m, w)])
  {
    hide Read, Folded, SessionOp;
    var ready := Read(h, settings, held, w).0;
    ReadingFolds(h, settings, held, w);
    ReadingFolds(ready, settings, m, w);
    FoldedOn(h.sessions, settings.sessions, [SessionOp(h, settings, held, w)], [SessionOp(ready, settings, m, w)]);
  }

  lemma HeldBreaksOrNot(h: Hub, settings: Settings, m: Message, w: World)
    requires Quiet(h) && HasHeld(h, m)
    ensures HeldBreaks(h, settings, m, w) <==> Read(WithoutHeld(Looked(h), m.node), settings, h.early[m.node], w).1
  {
    hide Read, Unsettled, Raises, Reread;
    ReadAcks(WithoutHeld(Looked(h), m.node), settings, h.early[m.node], w);
    HeldRaisesOrNot(WithoutHeld(Looked(h), m.node), settings, h.early[m.node], w);
  }

  lemma HandlingMoves(h: Hub, settings: Settings, m: Message, w: World)
    requires Quiet(h)
    ensures Handle(h, settings, m, w).0.sessions == Folded(h.sessions, settings.sessions, SessionOpsOf(h, settings, m, w))
  {
    hide Handle, Read, Folded, SessionOp, MaySpeak, HeldBreaks, Reread, Quiet;
    NothingFolded(h.sessions, settings.sessions);
    if MaySpeak(h, m.node) {
      var rest := WithoutHeld(Looked(h), m.node);
      HandleIsReadyThenRead(h, settings, m, w);
      if HasHeld(h, m) {
        HeldBreaksOrNot(h, settings, m, w);
        ReadingFolds(rest, settings, h.early[m.node], w);
        ReadingTwiceFolds(rest, settings, h.early[m.node], m, w);
        var first := [SessionOp(rest, settings, h.early[m.node], w)];
        assert first + [] == first;
      } else {
        ReadingFolds(rest, settings, m, w);
      }
    } else {
      SilentMovesNothing(h, settings, m, w);
    }
  }

  lemma NothingFolded(t: Sessions.Table, settings: Sessions.Settings)
    ensures Folded(t, settings, []) == t
  {
  }

  lemma SilentMovesNothing(h: Hub, settings: Settings, m: Message, w: World)
    requires !MaySpeak(h, m.node)
    ensures var after := Handle(h, settings, m, w).0;
            after.sessions == h.sessions && after.journal == h.journal && after.queue == h.queue && after.buckets == h.buckets
            && after.reported == h.reported && after.pending == h.pending
  {
    hide Settled;
    SaidIsOnlySaid();
    if Reread(h.books).Some? {
      RevokedIsNotHeard(h, settings, m, w);
    }
  }

  lemma OneOpMoves(h: Hub, settings: Settings, op: Op)
    requires Quiet(h)
    ensures Apply(h, settings, op).sessions == Folded(h.sessions, settings.sessions, SessionOpsIn(h, settings, op))
  {
    hide Handle, Folded, Approving, Revoking, AllDisabled, SessionOpsOf, StillOut, NextRevision;
    NothingFolded(h.sessions, settings.sessions);
    match op
    case Hear(m, w) => HandlingMoves(h, settings, m, w);
    case ApproveOne(node, pinned, w) =>
      if node in h.early {
        HandlingMoves(h.(books := Approving(h.books, node, pinned, w.registrySaved).0, early := h.early - {node}), settings, h.early[node], w);
      }
    case RevokeOne(node, registrySaved) =>
      FoldedOne(h.sessions, settings.sessions, SessionProofs.OpClose(node, 0.0));
    case _ =>
  }

  lemma {:induction false} RunMoves(h: Hub, settings: Settings, ops: seq<Op>)
    requires Steady(h, settings)
    ensures Run(h, settings, ops).sessions == Folded(h.sessions, settings.sessions, SessionOps(h, settings, ops))
    decreases ops
  {
    hide Apply, Folded, SessionOpsIn, QueueOk;
    NothingFolded(h.sessions, settings.sessions);
    if ops != [] {
      var next := Apply(h, settings, ops[0]);
      OneOpMoves(h, settings, ops[0]);
      StepKeepsSteady(h, settings, ops[0]);
      RunMoves(next, settings, ops[1..]);
      FoldedOn(h.sessions, settings.sessions, SessionOpsIn(h, settings, ops[0]), SessionOps(next, settings, ops[1..]));
    }
  }

  /** In every run of the hub from its start, whatever is heard, approved, revoked, configured or edited: an event that is
      read reaches the journal exactly if it is within the budget, a document of its own sender with an envelope, and its
      node stands, with the connection, number and grant of the hello it stands by, less than the grant's lifetime after
      that was last issued. */
  lemma WhoIsHeard(books: Books, journal: Journal.JournalView, settings: Settings, monotonic: real, ops: seq<Op>, m: Message, w: World)
    ensures var start := Started(books, journal, settings.rates, monotonic);
            var (h, told) := (Run(start, settings, ops), SessionOps(start, settings, ops));
            ReachesTheJournal(h, settings, m, w) <==>
              && m.channel == EventChannel
              && RateLimiter.Allow(settings.rates, h.buckets, m.node, w.monotonic).1 == RateLimiter.Pass
              && IsItsOwn(m) && m.payload.event.enveloped
              && SessionProofs.Welcome(settings.sessions, told, |told|, m.node, m.payload.event.connection, m.payload.event.hubEpoch,
                                       m.payload.event.grantId, w.monotonic)
  {
    hide Run, SessionOps, SessionProofs.TableAfter, SessionProofs.Welcome, Sessions.MayEnter, RateLimiter.Allow;
    var start := Started(books, journal, settings.rates, monotonic);
    var told := SessionOps(start, settings, ops);
    StartIsSteady(books, journal, settings, monotonic);
    RunMoves(start, settings, ops);
    FoldedIsTableAfter(settings.sessions, told, |told|);
    assert told[..|told|] == told;
    if IsItsOwn(m) {
      SessionProofs.WhoMayEnter(settings.sessions, told, |told|, m.node, m.payload.event.connection, m.payload.event.hubEpoch,
                                m.payload.event.grantId, w.monotonic);
    }
  }

  // -- how fast events come in ------------------------------------------------------------------------------------

  /** What handling a message asks of the budget: once for an event that is read, and nothing for anything else. */
  ghost function CallsOf(h: Hub, settings: Settings, op: Op): seq<RateLimiter.Call> {
    if op.Hear? && op.message.channel == EventChannel && MaySpeak(h, op.message.node)
       && !HeldBreaks(h, settings, op.message, op.world)
    then [RateLimiter.Call(op.message.node, op.world.monotonic)] else []
  }

  ghost function Calls(h: Hub, settings: Settings, ops: seq<Op>): seq<RateLimiter.Call>
    decreases ops
  {
    if ops == [] then [] else CallsOf(h, settings, ops[0]) + Calls(Apply(h, settings, ops[0]), settings, ops[1..])
  }

  function EntriesFrom(node: NodeId, entries: seq<Journal.Entry>): nat
    decreases entries
  {
    if entries == [] then 0
    else EntriesFrom(node, entries[..|entries| - 1]) + if entries[|entries| - 1].event.node == node then 1 else 0
  }

  lemma OneEntryMore(j: Journal.JournalView, limits: Ingress.Limits, a: Ingress.Arrival)
    ensures var after := Ingress.After(j, limits, a).entries;
            && |j.entries| <= |after| <= |j.entries| + 1
            && (after == j.entries || (a.message.Matched? && after[..|after| - 1] == j.entries
                                       && after[|after| - 1].event.node == a.node))
  {
    hide Ingress.Classify, Journal.OutcomeOf, Journal.TooWide;
  }

  /** What a message may do to the journal and the buckets. */
  ghost predicate Draws(h: Hub, after: Hub, settings: Settings, calls: seq<RateLimiter.Call>) {
    && |calls| <= 1
    && after.buckets == RateLimiter.After(settings.rates, h.buckets, calls)
    && (after.journal.entries != h.journal.entries ==>
          && calls != [] && RateLimiter.Allow(settings.rates, h.buckets, calls[0].node, calls[0].at).1 == RateLimiter.Pass
          && |after.journal.entries| == |h.journal.entries| + 1
          && after.journal.entries[..|h.journal.entries|] == h.journal.entries
          && after.journal.entries[|h.journal.entries|].event.node == calls[0].node)
  }

  lemma ReadingDraws(h: Hub, settings: Settings, m: Message, w: World)
    ensures Draws(h, Read(h, settings, m, w).0, settings,
                  if m.channel == EventChannel then [RateLimiter.Call(m.node, w.monotonic)] else [])
  {
    hide Read, RateLimiter.Allow, Ingress.After, Sessions.MayEnter;
    WhatReachesTheRules(h, settings, m, w);
    OneCall(settings.rates, h.buckets, RateLimiter.Call(m.node, w.monotonic));
    NothingDrawn(settings.rates, h.buckets, m.node);
    hide RateLimiter.After;
    if ReachesTheJournal(h, settings, m, w) {
      OneEntryMore(h.journal, settings.ingress, ArrivalIn(h, m, w));
    }
  }

  lemma OneCall(limits: RateLimiter.Limits, s: RateLimiter.Buckets, call: RateLimiter.Call)
    ensures RateLimiter.After(limits, s, [call]) == RateLimiter.Allow(limits, s, call.node, call.at).0
  {
    hide RateLimiter.Allow;
    assert [call][1..] == [];
    assert RateLimiter.After(limits, s, [call]) == RateLimiter.After(limits, RateLimiter.Allow(limits, s, call.node, call.at).0, [call][1..]);
  }

  lemma DrawsNothing(h: Hub, after: Hub, settings: Settings)
    requires after.journal == h.journal && after.buckets == h.buckets
    ensures Draws(h, after, settings, [])
  {
  }

  lemma HandlingDraws(h: Hub, settings: Settings, m: Message, w: World)
    requires Quiet(h)
    ensures Draws(h, Handle(h, settings, m, w).0, settings, CallsOf(h, settings, Hear(m, w)))
  {
    hide Handle, Read, MaySpeak, HeldBreaks, Reread, RateLimiter.After, RateLimiter.Allow;
    NothingDrawn(settings.rates, h.buckets, m.node);
    if MaySpeak(h, m.node) {
      var rest := WithoutHeld(Looked(h), m.node);
      HandleIsReadyThenRead(h, settings, m, w);
      if HasHeld(h, m) {
        HeldBreaksOrNot(h, settings, m, w);
        ReadingDraws(rest, settings, h.early[m.node], w);
      } else {
        NeverBreaks(h, settings, m, w);
      }
      ReadingDraws(Ready(h, settings, m, w), settings, m, w);
    } else {
      SilentMovesNothing(h, settings, m, w);
    }
  }

  lemma NeverBreaks(h: Hub, settings: Settings, m: Message, w: World)
    requires !HasHeld(h, m)
    ensures !HeldBreaks(h, settings, m, w)
  {
  }

  lemma OneOpDraws(h: Hub, settings: Settings, op: Op)
    requires Quiet(h)
    ensures Draws(h, Apply(h, settings, op), settings, CallsOf(h, settings, op))
  {
    hide Handle, Approving, Revoking, AllDisabled, StillOut, NextRevision, Draws, HeldBreaks, MaySpeak;
    match op
    case Hear(m, w) => HandlingDraws(h, settings, m, w);
    case ApproveOne(node, pinned, w) =>
      var approved := h.(books := Approving(h.books, node, pinned, w.registrySaved).0);
      if Approving(h.books, node, pinned, w.registrySaved).1.Kept? && node in h.early {
        HandlingDraws(approved.(early := h.early - {node}), settings, h.early[node], w);
        HeldDrawsNothing(h, approved.(early := h.early - {node}), settings, h.early[node], w);
      } else {
        DrawsNothing(h, Apply(h, settings, op), settings);
      }
    case _ => DrawsNothing(h, Apply(h, settings, op), settings);
  }

  lemma HeldDrawsNothing(h: Hub, g: Hub, settings: Settings, held: Message, w: World)
    requires held.channel.StateChannel? && g.journal == h.journal && g.buckets == h.buckets
    requires Draws(g, Handle(g, settings, held, w).0, settings, CallsOf(g, settings, Hear(held, w)))
    ensures Draws(h, Handle(g, settings, held, w).0, settings, [])
  {
    hide Handle, HeldBreaks, MaySpeak;
  }

  lemma PassedOneMore(limits: RateLimiter.Limits, s: RateLimiter.Buckets, call: RateLimiter.Call, rest: seq<RateLimiter.Call>, node: NodeId)
    ensures var passes := RateLimiter.Allow(limits, s, call.node, call.at).1 == RateLimiter.Pass;
            var later := RateLimiter.After(limits, s, [call]);
            && RateLimiter.After(limits, s, [call] + rest) == RateLimiter.After(limits, later, rest)
            && RateLimiter.Passed([call] + rest, RateLimiter.Answers(limits, s, [call] + rest))
               == (if passes then 1 else 0) + RateLimiter.Passed(rest, RateLimiter.Answers(limits, later, rest))
            && RateLimiter.PassedFor(node, [call] + rest, RateLimiter.Answers(limits, s, [call] + rest))
               == (if passes && call.node == node then 1 else 0) + RateLimiter.PassedFor(node, rest, RateLimiter.Answers(limits, later, rest))
  {
    hide RateLimiter.Allow;
    assert ([call] + rest)[1..] == rest && [call][1..] == [];
    var t := RateLimiter.Allow(limits, s, call.node, call.at).0;
    assert RateLimiter.After(limits, s, [call]) == RateLimiter.After(limits, t, [call][1..]) == t;
    assert RateLimiter.Answers(limits, s, [call] + rest)[1..] == RateLimiter.Answers(limits, t, rest);
  }

  lemma EntriesGrow(h: Hub, after: Hub, settings: Settings, calls: seq<RateLimiter.Call>, node: NodeId)
    requires Draws(h, after, settings, calls)
    ensures after.journal.entries != h.journal.entries ==>
              && |after.journal.entries| == |h.journal.entries| + 1
              && EntriesFrom(node, after.journal.entries)
                 == EntriesFrom(node, h.journal.entries) + if calls[0].node == node then 1 else 0
  {
  }

  lemma {:induction false} RunDraws(h: Hub, settings: Settings, ops: seq<Op>, node: NodeId)
    requires Steady(h, settings)
    ensures var calls := Calls(h, settings, ops);
            var answers := RateLimiter.Answers(settings.rates, h.buckets, calls);
            && Run(h, settings, ops).buckets == RateLimiter.After(settings.rates, h.buckets, calls)
            && |Run(h, settings, ops).journal.entries| <= |h.journal.entries| + RateLimiter.Passed(calls, answers)
            && EntriesFrom(node, Run(h, settings, ops).journal.entries)
               <= EntriesFrom(node, h.journal.entries) + RateLimiter.PassedFor(node, calls, answers)
    decreases ops
  {
    hide Apply, CallsOf, QueueOk, RateLimiter.Allow, RateLimiter.Answers, RateLimiter.Passed, RateLimiter.PassedFor, RateLimiter.After,
         EntriesFrom;
    if ops == [] {
      NothingDrawn(settings.rates, h.buckets, node);
    } else {
      var next := Apply(h, settings, ops[0]);
      OneOpDraws(h, settings, ops[0]);
      StepKeepsSteady(h, settings, ops[0]);
      RunDraws(next, settings, ops[1..], node);
      var calls, rest := CallsOf(h, settings, ops[0]), Calls(next, settings, ops[1..]);
      EntriesGrow(h, next, settings, calls, node);
      if calls == [] {
        NothingDrawn(settings.rates, h.buckets, node);
        assert calls + rest == rest;
      } else {
        assert calls == [calls[0]];
        PassedOneMore(settings.rates, h.buckets, calls[0], rest, node);
      }
    }
  }

  lemma NothingDrawn(limits: RateLimiter.Limits, s: RateLimiter.Buckets, node: NodeId)
    ensures RateLimiter.After(limits, s, []) == s
    ensures RateLimiter.Passed([], RateLimiter.Answers(limits, s, [])) == 0
    ensures RateLimiter.PassedFor(node, [], RateLimiter.Answers(limits, s, [])) == 0
  {
  }

  lemma {:induction false} RunOn(h: Hub, settings: Settings, a: seq<Op>, b: seq<Op>)
    ensures Run(h, settings, a + b) == Run(Run(h, settings, a), settings, b)
    ensures Calls(h, settings, a + b) == Calls(h, settings, a) + Calls(Run(h, settings, a), settings, b)
    decreases a
  {
    hide Apply, CallsOf;
    if a == [] {
      assert a + b == b;
    } else {
      assert (a + b)[1..] == a[1..] + b;
      RunOn(Apply(h, settings, a[0]), settings, a[1..], b);
    }
  }

  /** No more entries than a bucketful and a minute's worth for every minute between the first of some calls and the last. */
  ghost predicate NoMoreThan(grown: int, calls: seq<RateLimiter.Call>, capacity: real) {
    if calls == [] then grown <= 0
    else grown as real <= capacity * (1.0 + (calls[|calls| - 1].at - calls[0].at) / 60.0)
  }

  lemma GrowthIsBounded(h: Hub, settings: Settings, born: real, first: seq<RateLimiter.Call>, during: seq<Op>, node: NodeId)
    requires RateLimiter.Sensible(settings.rates) && Steady(h, settings)
    requires h.buckets == RateLimiter.After(settings.rates, RateLimiter.Fresh(settings.rates, born), first)
    requires RateLimiter.InOrder(first + Calls(h, settings, during), born)
    ensures var (after, calls) := (Run(h, settings, during).journal.entries, Calls(h, settings, during));
            && NoMoreThan(|after| - |h.journal.entries|, calls, settings.rates.total)
            && NoMoreThan(EntriesFrom(node, after) - EntriesFrom(node, h.journal.entries), calls, settings.rates.perNode)
  {
    hide Run, Calls, RateLimiter.Answers, RateLimiter.Passed, RateLimiter.PassedFor, RateLimiter.After, RateLimiter.Sensible,
         EntriesFrom, Steady, RateLimiter.Fresh, RateLimiter.InOrder;
    RunDraws(h, settings, during, node);
    var calls := Calls(h, settings, during);
    if calls == [] {
      NothingDrawn(settings.rates, h.buckets, node);
    } else {
      PassedInTheWindow(settings.rates, born, first, calls, node);
    }
  }

  /** In every run of the hub on a clock that does not go back, over any stretch of it: however many events arrive, no
      more are written to the journal than a bucketful and a minute's worth for every minute between the first and the
      last of them that was read; of each node, and of all together. */
  lemma AFloodIsBounded(books: Books, journal: Journal.JournalView, settings: Settings, born: real, before: seq<Op>, during: seq<Op>,
                        node: NodeId)
    requires RateLimiter.Sensible(settings.rates)
    requires RateLimiter.InOrder(Calls(Started(books, journal, settings.rates, born), settings, before + during), born)
    ensures var h := Run(Started(books, journal, settings.rates, born), settings, before);
            var (after, calls) := (Run(h, settings, during).journal.entries, Calls(h, settings, during));
            && NoMoreThan(|after| - |h.journal.entries|, calls, settings.rates.total)
            && NoMoreThan(EntriesFrom(node, after) - EntriesFrom(node, h.journal.entries), calls, settings.rates.perNode)
  {
    hide Run, Calls, RateLimiter.Sensible, EntriesFrom, Steady, RateLimiter.InOrder, RateLimiter.After, NoMoreThan;
    var start := Started(books, journal, settings.rates, born);
    EveryRunIsSteady(books, journal, settings, born, before);
    StartIsSteady(books, journal, settings, born);
    RunDraws(start, settings, before, node);
    RunOn(start, settings, before, during);
    GrowthIsBounded(Run(start, settings, before), settings, born, Calls(start, settings, before), during, node);
  }

  lemma StartIsSteady(books: Books, journal: Journal.JournalView, settings: Settings, born: real)
    ensures Steady(Started(books, journal, settings.rates, born), settings)
  {
  }

  lemma PassedInTheWindow(limits: RateLimiter.Limits, born: real, first: seq<RateLimiter.Call>, calls: seq<RateLimiter.Call>, node: NodeId)
    requires RateLimiter.Sensible(limits) && RateLimiter.InOrder(first + calls, born) && calls != []
    ensures var s, minutes := RateLimiter.After(limits, RateLimiter.Fresh(limits, born), first), (calls[|calls| - 1].at - calls[0].at) / 60.0;
            var answers := RateLimiter.Answers(limits, s, calls);
            && RateLimiter.Passed(calls, answers) as real <= limits.total * (1.0 + minutes)
            && RateLimiter.PassedFor(node, calls, answers) as real <= limits.perNode * (1.0 + minutes)
  {
    hide RateLimiter.Answers, RateLimiter.Passed, RateLimiter.PassedFor, RateLimiter.After, RateLimiter.Sensible, RateLimiter.Fresh,
         RateLimiter.InOrder;
    var all := first + calls;
    RateLimiter.RateBound(limits, born, all, |first|, |all|, node);
    Freshly(limits, born);
    RateLimiter.AnswersFrom(limits, RateLimiter.Fresh(limits, born), all, |first|, born);
    assert all[..|first|] == first && all[|first|..] == calls && all[|first|..|all|] == calls;
    var answers := RateLimiter.Answers(limits, RateLimiter.Fresh(limits, born), all);
    assert answers[|first|..|all|] == answers[|first|..];
  }

  lemma Freshly(limits: RateLimiter.Limits, born: real)
    requires RateLimiter.Sensible(limits)
    ensures RateLimiter.TouchedBy(limits, RateLimiter.Fresh(limits, born), born)
  {
  }

  // -- asking a node for other sources -----------------------------------------------------------------------------

  /** What an operator is told who asks a node for other sources, and what is sent: nothing, unless the node is
      registered, approved, there, can be asked for them, has answered the last request or been given time to, and
      there is a broker; then the next number after every one it is known to have been asked for or to run. */
  lemma WhatAskingDoes(h: Hub, node: NodeId, possible: bool, commandId: Id, now: real)
    ensures var (after, answer) := Configure(h, node, possible, commandId, now);
            var there := node in h.sessions && !h.sessions[node].closed;
            var waiting := node in h.pending && (h.pending[node].state == Sent || h.pending[node].state == Answered(Received))
                           && now - h.pending[node].sentAt < 30.0;
            var known := if node in h.reported && h.reported[node].Some? then h.reported[node].value else 0;
            var asked := if node in h.pending then h.pending[node].revision else 0;
            && (answer == Failure(NotRegistered) <==> node !in h.books.document.nodes)
            && (node in h.books.document.nodes ==>
                  var approved := h.books.document.nodes[node].status == Approved;
                  && (answer == Failure(NotApprovedYet) <==> !approved)
                  && (answer == Failure(Offline) <==> approved && !there)
                  && (answer == Failure(Impossible) <==> approved && there && !possible)
                  && (answer == Failure(StillWaiting) <==> approved && there && possible && waiting)
                  && (answer == Failure(LinkDown) <==> approved && there && possible && !waiting && !h.linked)
                  && (answer.Success? <==> approved && there && possible && !waiting && h.linked))
            && (answer.Success? ==>
                  var revision := answer.value.revision;
                  && revision > known && revision > asked && (revision == known + 1 || revision == asked + 1)
                  && answer.value == Configuration(commandId, revision, Sent, now)
                  && after == h.(pending := h.pending[node := answer.value], actions := h.actions + [Configured(node, revision)]))
            && (answer.Failure? && answer != Failure(LinkDown) ==> after == h)
            && (answer == Failure(LinkDown) ==> after == h.(pending := after.pending) && node in after.pending
                                                && after.pending[node].state == Answered(Failed))
  {
  }

  /** A hub that has just started, however often it was restarted before: once a node has said what it runs, the next
      request it is sent carries a higher number. */
  lemma ARestartedHubGoesOn(books: Books, journal: Journal.JournalView, settings: Settings, monotonic: real, m: Message, w: World,
                            commandId: Id, now: real)
    requires HeardState(Started(books, journal, settings.rates, monotonic), m) && m.payload.state.revision.Some?
    ensures var heard := Handle(Started(books, journal, settings.rates, monotonic), settings, m, w).0;
            var answer := Configure(heard, m.node, true, commandId, now).1;
            answer.Success? ==> answer.value.revision > m.payload.state.revision.value
  {
    hide Read, Handle, Configure;
    var start := Started(books, journal, settings.rates, monotonic);
    StartIsSteady(books, journal, settings, monotonic);
    HandleIsReadyThenRead(start, settings, m, w);
    ReportsAreTaken(Ready(start, settings, m, w), settings, m, w);
    WhatAskingDoes(Handle(start, settings, m, w).0, m.node, true, commandId, now);
  }
}
