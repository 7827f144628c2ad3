/** The node's side: readings numbered and spooled, sent under a grant on the current connection,
    and commands acted on once.
  */
module Agent {
  import opened Wrappers
  import opened Wire
  import Numbering
  import Spool
  import Seen

  datatype HeldGrant = HeldGrant(grantId: Id, capability: Capability, hubEpoch: nat, expiresAt: real, sequence: nat)

  predicate InForce(g: HeldGrant, now: real) {
    now < g.expiresAt
  }

  datatype AgentView = AgentView(
    node: NodeId,
    boot: Id,
    connection: Id,
    linkedAt: real,
    grant: Option<HeldGrant>,
    next: Numbering.Counters,
    spool: Spool.SpoolView<Event>,
    seen: Seen.Memory,
    published: nat,
    refused: nat,
    configuring: bool)

  /** A process as it starts: nothing granted, nothing numbered, nothing held. */
  function Booted(node: NodeId, boot: Id, connection: Id): AgentView {
    AgentView(node, boot, connection, 0.0, None, map[], Spool.Empty(), Seen.Nothing(), 0, 0, false)
  }

  // -- recording ---------------------------------------------------------------------------

  /** Whether a reading can be put in an envelope at all. A bad name is found before the reading is
      numbered, a bad value or a missing time zone after. */
  datatype Fit = Sendable | BadName | BadValue

  datatype Sample = Sample(source: SourceId, reading: Reading, clock: ClockStatus, eventId: Id, size: nat,
                           initial: bool, fit: Fit)

  function EventOf(a: AgentView, s: Sample): Event {
    Event(s.eventId, a.node, s.source, a.boot, Numbering.Next(a.next, s.source), s.reading, s.clock)
  }

  function Record(a: AgentView, limits: Spool.Limits, s: Sample, now: real): AgentView {
    match s.fit
    case BadName => a.(refused := a.refused + 1)
    case BadValue => a.(refused := a.refused + 1, next := Numbering.Taken(a.next, s.source))
    case Sendable =>
      a.(next := Numbering.Taken(a.next, s.source),
         spool := Spool.Put(a.spool, limits, Spool.Held(EventOf(a, s), s.size, now, s.initial), now))
  }

  /** A reading and the moment it is taken. */
  datatype Recorded = Recorded(sample: Sample, at: real)

  function RecordAll(a: AgentView, limits: Spool.Limits, readings: seq<Recorded>): AgentView
    decreases readings
  {
    if readings == [] then a
    else RecordAll(Record(a, limits, readings[0].sample, readings[0].at), limits, readings[1..])
  }

  /** An attempt to connect: the next will already names the connection, whether or not the link comes up. */
  function Connected(a: AgentView, connection: Id, up: bool, now: real): AgentView {
    if up then a.(connection := connection, linkedAt := now) else a.(connection := connection)
  }

  // -- sending -----------------------------------------------------------------------------

  predicate Granted(a: AgentView, now: real) {
    a.grant.Some? && a.grant.value.capability == Events && InForce(a.grant.value, now)
  }

  function QueuedMs(held: Spool.Held<Event>, now: real): nat {
    if now <= held.queuedAt then 0 else ((now - held.queuedAt) * 1000.0).Floor
  }

  /** What became of one publish: the client took it, would not, or the message was too big to encode. */
  datatype Link = Took | WouldNot | TooBig

  /** One message going out. The clock is read three times on the way: to ask how long it waited, to tell
      history from news, and to see whether the grant still holds. */
  datatype Attempt = Attempt(asked: real, marked: real, checked: real, link: Link)

  predicate Replayed(a: AgentView, held: Spool.Held<Event>, t: Attempt) {
    t.marked - (QueuedMs(held, t.asked) as real) / 1000.0 < a.linkedAt
  }

  /** How a message would travel; None without a valid grant. */
  function DeliveryFor(a: AgentView, held: Spool.Held<Event>, t: Attempt): Option<Delivery> {
    if a.grant.None? || !InForce(a.grant.value, t.checked) then None
    else
      Some(Delivery(a.connection, a.grant.value.hubEpoch, Some(a.grant.value.grantId), QueuedMs(held, t.asked),
                    Replayed(a, held, t), held.initial))
  }

  function Send(a: AgentView, limits: Spool.Limits, held: Spool.Held<Event>, t: Attempt): (AgentView, Option<Envelope>) {
    var delivery := DeliveryFor(a, held, t);
    if delivery.None? then (a.(spool := Spool.Requeue(a.spool, limits, held)), None)
    else match t.link
      case TooBig => (a.(refused := a.refused + 1), None)
      case Took => (a.(published := a.published + 1), Some(Envelope(held.item, delivery.value)))
      case WouldNot => (a.(spool := Spool.Requeue(a.spool, limits, held)), None)
  }

  /** Up to eight of the oldest, if there is a grant to send them under. */
  function TakeBatch(a: AgentView, limits: Spool.Limits, granted: real, taken: real): (r: (AgentView, seq<Spool.Held<Event>>))
    ensures |r.1| <= 8
  {
    if !Granted(a, granted) then (a, [])
    else
      var (spool, batch) := Spool.Take(a.spool, limits, 8, taken);
      (a.(spool := spool), batch)
  }

  function SendBatch(a: AgentView, limits: Spool.Limits, batch: seq<Spool.Held<Event>>, attempts: seq<Attempt>)
    : (AgentView, seq<Envelope>)
    requires |attempts| == |batch|
    decreases batch
  {
    if batch == [] then (a, [])
    else
      var (b, sent) := Send(a, limits, batch[0], attempts[0]);
      var (c, more) := SendBatch(b, limits, batch[1..], attempts[1..]);
      (c, (if sent.Some? then [sent.value] else []) + more)
  }

  /** A round of the network thread with nothing else going on beside it. */
  function Round(a: AgentView, limits: Spool.Limits, granted: real, taken: real, attempts: seq<Attempt>)
    : (AgentView, seq<Envelope>)
    requires |attempts| == 8
  {
    var (took, batch) := TakeBatch(a, limits, granted, taken);
    SendBatch(took, limits, batch, attempts[..|batch|])
  }

  /** A process and what its network thread has taken out of the spool but not sent yet. */
  datatype Running = Running(view: AgentView, hand: seq<Spool.Held<Event>>)

  function TookUp(r: Running, limits: Spool.Limits, granted: real, taken: real): Running {
    if r.hand != [] then r
    else var (view, batch) := TakeBatch(r.view, limits, granted, taken); Running(view, batch)
  }

  function SentNext(r: Running, limits: Spool.Limits, t: Attempt): (Running, Option<Envelope>) {
    if r.hand == [] then (r, None)
    else var (view, envelope) := Send(r.view, limits, r.hand[0], t); (Running(view, r.hand[1..]), envelope)
  }

  // -- commands ------------------------------------------------------------------------------

  /** What a command asks for. A stream command either ends a stream or starts or renews one; what the
      camera's or the microphone's side then answers comes with it. */
  datatype Action = DoGrant | DoRenew | DoRevoke | DoStop | DoConfigure | DoStream(ends: bool, found: Seen.Outcome)

  /** A command that parsed: its capability is one of the three, its numbers are not negative. */
  datatype Command = Command(commandId: Id, action: Action, hubEpoch: nat, capability: Capability,
                             grantId: Option<Id>, duration: real, sequence: nat)

  predicate NamesAGrant(c: Command) {
    c.action.DoGrant? || c.action.DoRenew?
  }

  /** Whether a grant command is taken, and with what in its place. */
  predicate Takes(held: Option<HeldGrant>, c: Command) {
    && c.grantId.Some?
    && c.duration > 0.0
    && (c.action.DoRenew? ==> held.Some? && held.value.grantId == c.grantId.value && c.sequence > held.value.sequence)
  }

  /** Whether a stream may be asked for at all: a current grant of events, given by the hub that is asking. */
  predicate MayStream(held: Option<HeldGrant>, c: Command, now: real) {
    held.Some? && InForce(held.value, now) && held.value.capability == Events && held.value.hubEpoch == c.hubEpoch
  }

  /** What is held after a command that is acted on at once, and what it is answered. */
  function Apply(held: Option<HeldGrant>, c: Command, now: real): (Option<HeldGrant>, Seen.Outcome)
    requires !c.action.DoConfigure?
  {
    if c.action.DoStop? then (held, Seen.Applied)
    else if c.action.DoRevoke? then (None, Seen.Applied)
    else if c.action.DoStream? then
      (held, if c.action.ends then Seen.Applied else if !MayStream(held, c, now) then Seen.Failed else c.action.found)
    else if !Takes(held, c) then (held, Seen.Failed)
    else (Some(HeldGrant(c.grantId.value, c.capability, c.hubEpoch, now + c.duration, c.sequence)), Seen.Applied)
  }

  /** Whether a command leaves the node with a grant it did not hold, for which the hub is told where every
      source stands. */
  predicate Fresh(held: Option<HeldGrant>, c: Command) {
    NamesAGrant(c) && Takes(held, c) && (held.None? || held.value.grantId != c.grantId.value)
  }

  /** A command acted on at once, with the baselines a fresh grant asks for. */
  function ActOn(a: AgentView, limits: Spool.Limits, c: Command, now: real, baselines: seq<Recorded>): (AgentView, Seen.Outcome)
    requires !c.action.DoConfigure?
  {
    var (grant, outcome) := Apply(a.grant, c, now);
    var b := a.(grant := grant);
    (if Fresh(a.grant, c) then RecordAll(b, limits, baselines) else b, outcome)
  }

  function Remembering(a: AgentView, id: Id, outcome: Seen.Outcome): AgentView {
    a.(seen := Seen.Remember(a.seen, Seen.CAPACITY, id, outcome))
  }

  /** A command as it arrives: answered from memory, or acted on and remembered. A configuration is only
      begun here, and is refused without being remembered while another is being applied. */
  function OnCommand(a: AgentView, limits: Spool.Limits, c: Command, now: real, baselines: seq<Recorded>)
    : (AgentView, Seen.Outcome, bool)
  {
    var (seen, known) := Seen.Ask(a.seen, c.commandId);
    if known.Some? then (a.(seen := seen), known.value, false)
    else if c.action.DoConfigure? then
      if a.configuring then (a, Seen.Failed, false)
      else (Remembering(a.(configuring := true), c.commandId, Seen.Received), Seen.Received, true)
    else
      var (b, outcome) := ActOn(a, limits, c, now, baselines);
      (Remembering(b, c.commandId, outcome), outcome, true)
  }

  // -- the process -----------------------------------------------------------------------------

  class Process {
    const node: NodeId
    const boot: Id
    const spool: Spool.Queue<Event>
    const seen: Seen.Commands
    const sequencer: Numbering.Sequencer
    var connection: Id
    var linkedAt: real
    var grant: Option<HeldGrant>
    var published: nat
    var refused: nat
    var configuring: bool

    function View(): AgentView
      reads this, spool, seen, sequencer
    {
      AgentView(node, boot, connection, linkedAt, grant, sequencer.next, spool.View(), seen.View(), published, refused,
                configuring)
    }

    constructor (node: NodeId, boot: Id, connection: Id, limits: Spool.Limits)
      ensures View() == Booted(node, boot, connection)
      ensures fresh(spool) && fresh(seen) && fresh(sequencer)
      ensures spool.limits == limits && seen.capacity == Seen.CAPACITY
    {
      this.node, this.boot, this.connection := node, boot, connection;
      linkedAt, grant, published, refused, configuring := 0.0, None, 0, 0, false;
      spool := new Spool.Queue(limits);
      seen := new Seen.Commands(Seen.CAPACITY);
      sequencer := new Numbering.Sequencer();
    }

    /** A link that came up: everything recorded before now is history. */
    method Connect(connection: Id, up: bool, now: real)
      modifies this
      ensures View() == Connected(old(View()), connection, up, now)
    {
      this.connection := connection;
      if up {
        linkedAt := now;
      }
    }

    method RecordSample(s: Sample, now: real)
      modifies this, spool, sequencer
      ensures View() == Record(old(View()), spool.limits, s, now)
    {
      if s.fit == BadName {
        refused := refused + 1;
        return;
      }
      var number := sequencer.Take(s.source);
      if s.fit == BadValue {
        refused := refused + 1;
        return;
      }
      spool.PutItem(Event(s.eventId, node, s.source, boot, number, s.reading, s.clock), s.size, s.initial, now);
    }

    method RecordBaselines(readings: seq<Recorded>)
      modifies this, spool, sequencer
      ensures View() == RecordAll(old(View()), spool.limits, readings)
    {
      hide Record;
      ghost var goal := RecordAll(View(), spool.limits, readings);
      assert readings[0..] == readings;
      var i := 0;
      while i < |readings|
        invariant i <= |readings|
        invariant RecordAll(View(), spool.limits, readings[i..]) == goal
      {
        assert readings[i..][1..] == readings[i + 1..];
        RecordSample(readings[i].sample, readings[i].at);
        i := i + 1;
      }
    }

    method SendOne(held: Spool.Held<Event>, t: Attempt) returns (sent: Option<Envelope>)
      modifies this, spool
      ensures (View(), sent) == Send(old(View()), spool.limits, held, t)
    {
      var queued := QueuedMs(held, t.asked);
      var replayed := t.marked - (queued as real) / 1000.0 < linkedAt;
      if grant.None? || !InForce(grant.value, t.checked) {
        spool.RequeueItem(held);
        return None;
      }
      var delivery := Delivery(connection, grant.value.hubEpoch, Some(grant.value.grantId), queued, replayed, held.initial);
      match t.link {
        case TooBig =>
          refused := refused + 1;
          return None;
        case Took =>
          published := published + 1;
          return Some(Envelope(held.item, delivery));
        case WouldNot =>
          spool.RequeueItem(held);
          return None;
      }
    }

    /** One round of the network thread: take what there is a grant for, send it item by item. */
    method NetworkRound(granted: real, taken: real, attempts: seq<Attempt>) returns (sent: seq<Envelope>)
      requires |attempts| == 8
      modifies this, spool
      ensures (View(), sent) == Round(old(View()), spool.limits, granted, taken, attempts)
    {
      hide Send, Spool.Expire, DeliveryFor;
      sent := [];
      var batch: seq<Spool.Held<Event>> := [];
      if grant.Some? && grant.value.capability == Events && InForce(grant.value, granted) {
        batch := spool.TakeItems(8, taken);
      }
      ghost var goal := SendBatch(View(), spool.limits, batch, attempts[..|batch|]);
      assert batch[0..] == batch && attempts[0..|batch|] == attempts[..|batch|];
      assert [] + goal.1 == goal.1;
      var i := 0;
      while i < |batch|
        invariant i <= |batch| <= 8
        invariant var rest := SendBatch(View(), spool.limits, batch[i..], attempts[i..|batch|]);
                  goal == (rest.0, sent + rest.1)
      {
        assert batch[i..][1..] == batch[i + 1..] && attempts[i..|batch|][1..] == attempts[i + 1..|batch|];
        var envelope := SendOne(batch[i], attempts[i]);
        ghost var more := SendBatch(View(), spool.limits, batch[i + 1..], attempts[i + 1..|batch|]).1;
        var one := if envelope.Some? then [envelope.value] else [];
        assert sent + (one + more) == (sent + one) + more;
        sent := sent + one;
        i := i + 1;
      }
      assert sent + [] == sent;
    }

    method HandleCommand(c: Command, now: real, baselines: seq<Recorded>) returns (outcome: Seen.Outcome, acted: bool)
      requires seen.capacity == Seen.CAPACITY
      modifies this, seen, spool, sequencer
      ensures (View(), outcome, acted) == OnCommand(old(View()), spool.limits, c, now, baselines)
    {
      hide Spool.Put, Seen.Remember, RecordAll;
      var previous := seen.AskOutcome(c.commandId);
      if previous.Some? {
        return previous.value, false;
      }
      if c.action.DoConfigure? {
        outcome, acted := BeginConfigure(c);
        return;
      }
      outcome := ApplyCommand(c, now, baselines);
      seen.RememberOutcome(c.commandId, outcome);
      acted := true;
    }

    /** Acknowledge a configuration at once and leave the work to another thread, unless one is at it. */
    method BeginConfigure(c: Command) returns (outcome: Seen.Outcome, begun: bool)
      requires seen.capacity == Seen.CAPACITY
      modifies this, seen
      ensures outcome == (if old(configuring) then Seen.Failed else Seen.Received) && begun == !old(configuring)
      ensures View() == if begun then Remembering(old(View()).(configuring := true), c.commandId, Seen.Received) else old(View())
    {
      if configuring {
        return Seen.Failed, false;
      }
      configuring := true;
      seen.RememberOutcome(c.commandId, Seen.Received);
      return Seen.Received, true;
    }

    /** The thread that applies a configuration lets the next one in before it says how this one went. */
    method FinishConfigure(id: Id, outcome: Seen.Outcome)
      requires seen.capacity == Seen.CAPACITY
      modifies this, seen
      ensures View() == Remembering(old(View()).(configuring := false), id, outcome)
    {
      configuring := false;
      seen.RememberOutcome(id, outcome);
    }

    method ApplyCommand(c: Command, now: real, baselines: seq<Recorded>) returns (outcome: Seen.Outcome)
      requires !c.action.DoConfigure?
      modifies this, spool, sequencer
      ensures (View(), outcome) == ActOn(old(View()), spool.limits, c, now, baselines)
    {
      hide RecordAll;
      if c.action.DoStop? {
        return Seen.Applied;
      }
      if c.action.DoRevoke? {
        grant := None;
        return Seen.Applied;
      }
      if c.action.DoStream? {
        if c.action.ends {
          return Seen.Applied;
        }
        if grant.None? || !InForce(grant.value, now) || grant.value.capability != Events {
          return Seen.Failed;
        }
        if grant.value.hubEpoch != c.hubEpoch {
          return Seen.Failed;
        }
        return c.action.found;
      }
      if c.grantId.None? || c.duration <= 0.0 {
        return Seen.Failed;
      }
      if c.action.DoRenew? {
        if grant.None? || grant.value.grantId != c.grantId.value {
          return Seen.Failed;
        }
        if c.sequence <= grant.value.sequence {
          return Seen.Failed;
        }
      }
      var anew := grant.None? || grant.value.grantId != c.grantId.value;
      grant := Some(HeldGrant(c.grantId.value, c.capability, c.hubEpoch, now + c.duration, c.sequence));
      if anew {
        RecordBaselines(baselines);
      }
      return Seen.Applied;
    }
  }
}
