/** The hub, its nodes and everything in flight between them, one step at a time.

    The network is a set of everything ever published: any of it may be delivered now, later,
    again or never, in any order. Nodes reboot, the hub restarts, the journal fails, receipts are
    tidied away. Some fields only remember the past, so that what must hold of it can be said.
  */
module System {
  import opened Wrappers
  import opened Wire
  import opened Journal
  import Ingress
  import Sessions
  import Agent
  import Spool
  import Seen

  datatype Config = Config(sessions: Sessions.Settings, ingress: Ingress.Limits, spool: Spool.Limits)

  datatype Sent =
    | SentHello(node: NodeId, hello: Sessions.Hello)
    | SentEvent(node: NodeId, envelope: Envelope)
    | SentCommand(node: NodeId, command: Agent.Command)

  /** Whose boot an id is, and where it comes among all boots in the order they happened. */
  datatype Life = Life(node: NodeId, order: nat)

  datatype Sys = Sys(
    epoch: nat,                          // in the registry's file
    sessions: Sessions.Table,
    journal: JournalView,
    processes: map<NodeId, Agent.Running>,
    sent: set<Sent>,
    queue: seq<Entry>,                   // every event ever handed to the rules, in order
    admitted: seq<(NodeId, Id)>,         // node and boot of every event let through the door, in order
    lives: map<Id, Life>,                // every boot id ever drawn
    links: map<Id, Id>,                  // every connection id ever drawn, and the boot that drew it
    ended: map<Id, nat>,                 // the boots that are over, and the epoch reached by then
    made: set<Event>)                    // every event ever numbered and spooled

  function Start(): Sys {
    Sys(0, map[], Empty(), map[], {}, [], [], map[], map[], map[], {})
  }

  /** How hearing a hello goes: how many numbers the hub has lost, since it started, to writes that failed;
      and whether it gets as far as the grant, or breaks off once the session is open. */
  datatype Hearing = Hearing(lostNumbers: nat, granted: bool, grantId: Id, commandId: Id, now: real)

  datatype Step =
    // the node
    | Boot(node: NodeId, boot: Id, connection: Id)
    | Connect(node: NodeId, connection: Id, up: bool, now: real)
    | SayState(node: NodeId, online: bool)
    | TakeReading(node: NodeId, sample: Agent.Sample, now: real)
    | TakeBatch(node: NodeId, granted: real, taken: real)
    | SendOne(node: NodeId, attempt: Agent.Attempt)
    | HearCommand(node: NodeId, command: Agent.Command, now: real)
    | LetTheNextIn(node: NodeId)
    | FinishConfigure(node: NodeId, commandId: Id, outcome: Seen.Outcome)
    // the hub
    | HearHello(node: NodeId, hello: Sessions.Hello, how: Hearing)
    | HearEvent(node: NodeId, envelope: Envelope, retained: bool, monotonic: real, now: real,
                sources: Ingress.Sources, disk: Ingress.Disk, full: bool)
    | RenewGrants(commandIds: map<Sessions.Held, Id>, now: real)
    | CloseSession(node: NodeId, commandId: Id)
    | Ask(node: NodeId, command: Agent.Command)
    | RestartHub
    | ForgetReceipts(now: real, olderThan: real)

  // -- what each step needs -----------------------------------------------------------------

  predicate Enabled(s: Sys, step: Step) {
    match step
    case Boot(node, boot, connection) => boot !in s.lives && connection !in s.links && connection != ""
    case Connect(node, connection, up, now) => node in s.processes && connection !in s.links && connection != ""
    case SayState(node, online) => node in s.processes
    case TakeReading(node, sample, now) => node in s.processes && forall e | e in s.made :: e.eventId != sample.eventId
    case TakeBatch(node, granted, taken) => node in s.processes && s.processes[node].hand == []
    case SendOne(node, attempt) => node in s.processes && s.processes[node].hand != []
    case HearCommand(node, command, now) => node in s.processes && SentCommand(node, command) in s.sent
    case LetTheNextIn(node) => node in s.processes
    case FinishConfigure(node, commandId, outcome) => node in s.processes
    case HearHello(node, hello, _) => SentHello(node, hello) in s.sent
    case HearEvent(node, envelope, _, _, _, _, _, _) => SentEvent(node, envelope) in s.sent
    case RenewGrants(commandIds, now) => true
    case CloseSession(node, commandId) => true
    case Ask(node, command) => (command.action.DoStop? || command.action.DoConfigure? || command.action.DoStream?) && command.hubEpoch <= s.epoch
    case RestartHub => true
    case ForgetReceipts(now, olderThan) => true
  }

  // -- what each step does ------------------------------------------------------------------

  function HelloOf(p: Agent.Running, online: bool): Sessions.Hello {
    Sessions.Hello(Some(p.view.connection), Some(p.view.boot), online)
  }

  function AsCommand(g: Sessions.Grant, action: Agent.Action, commandId: Id): Agent.Command {
    Agent.Command(commandId, action, g.hubEpoch, g.capability, Some(g.grantId), g.expiresAt - g.issuedAt, g.sequence)
  }

  /** The process there was is over; a new one starts with nothing. */
  function Booted(s: Sys, node: NodeId, boot: Id, connection: Id): Sys {
    s.(processes := s.processes[node := Agent.Running(Agent.Booted(node, boot, connection), [])],
       lives := s.lives[boot := Life(node, |s.lives|)],
       links := s.links[connection := boot],
       ended := if node in s.processes then s.ended[s.processes[node].view.boot := s.epoch] else s.ended)
  }

  /** What the broker may say on the node's behalf for the rest of time. */
  function Will(node: NodeId, p: Agent.Running): Sent {
    SentHello(node, HelloOf(p, false))
  }

  function Connected(s: Sys, node: NodeId, connection: Id, up: bool, now: real): Sys
    requires node in s.processes
  {
    var p := s.processes[node];
    var q := p.(view := Agent.Connected(p.view, connection, up, now));
    s.(processes := s.processes[node := q],
       links := s.links[connection := p.view.boot],
       sent := s.sent + (if up then {SentHello(node, HelloOf(q, true)), Will(node, q)} else {Will(node, q)}))
  }

  function ReadingTaken(c: Config, s: Sys, node: NodeId, sample: Agent.Sample, now: real): Sys
    requires node in s.processes
  {
    var p := s.processes[node];
    s.(processes := s.processes[node := p.(view := Agent.Record(p.view, c.spool, sample, now))],
       made := if sample.fit.Sendable? then s.made + {Agent.EventOf(p.view, sample)} else s.made)
  }

  function BatchTaken(c: Config, s: Sys, node: NodeId, granted: real, taken: real): Sys
    requires node in s.processes
  {
    s.(processes := s.processes[node := Agent.TookUp(s.processes[node], c.spool, granted, taken)])
  }

  function OneSent(c: Config, s: Sys, node: NodeId, attempt: Agent.Attempt): Sys
    requires node in s.processes && s.processes[node].hand != []
  {
    var (after, envelope) := Agent.SentNext(s.processes[node], c.spool, attempt);
    s.(processes := s.processes[node := after],
       sent := if envelope.Some? then s.sent + {SentEvent(node, envelope.value)} else s.sent)
  }

  function Viewed(s: Sys, node: NodeId, view: Agent.AgentView): Sys
    requires node in s.processes
  {
    s.(processes := s.processes[node := s.processes[node].(view := view)])
  }

  /** A command is heard; the baselines a fresh grant asks for are readings taken after it. */
  function CommandHeard(c: Config, s: Sys, node: NodeId, command: Agent.Command, now: real): Sys
    requires node in s.processes
  {
    Viewed(s, node, Agent.OnCommand(s.processes[node].view, c.spool, command, now, []).0)
  }

  function HelloHeard(c: Config, s: Sys, node: NodeId, hello: Sessions.Hello, how: Hearing): Sys {
    var epoch := s.epoch + how.lostNumbers + 1;
    var table := Sessions.Greeted(s.sessions, c.sessions, node, hello, how.granted, epoch, how.grantId, how.now);
    if !Sessions.OpensASession(s.sessions, node, hello) then s.(sessions := table)
    else if !how.granted then s.(sessions := table, epoch := epoch)
    else
      s.(sessions := table, epoch := epoch,
         sent := s.sent + {SentCommand(node, AsCommand(table[node].grants[Events], Agent.DoGrant, how.commandId))})
  }

  predicate AtTheDoor(s: Sys, node: NodeId, envelope: Envelope, monotonic: real) {
    var d := envelope.delivery;
    Sessions.MayEnter(s.sessions, node, Some(d.connection), Some(d.hubEpoch), d.grantId, monotonic)
  }

  function EventHeard(c: Config, s: Sys, node: NodeId, envelope: Envelope, retained: bool, monotonic: real, now: real,
                      sources: Ingress.Sources, disk: Ingress.Disk, full: bool): Sys
  {
    if !AtTheDoor(s, node, envelope, monotonic) then s
    else
      var (journal, receipt) := Ingress.Accept(s.journal, sources, c.ingress, node, Ingress.Matched(envelope), retained, now, disk);
      s.(journal := journal,
         admitted := s.admitted + [(node, envelope.event.boot)],
         queue := if receipt.Some? && receipt.value.event.Some? && !full then s.queue + [receipt.value.event.value] else s.queue)
  }

  function RenewalsSent(s: Sys, table: Sessions.Table, due: set<Sessions.Held>, commandIds: map<Sessions.Held, Id>): set<Sent> {
    set h | h in due && h in commandIds && Sessions.Holds(table, h) ::
      SentCommand(h.0, AsCommand(Sessions.GrantOf(table, h), Agent.DoRenew, commandIds[h]))
  }

  function Renewed(c: Config, s: Sys, commandIds: map<Sessions.Held, Id>, now: real): Sys {
    var table := Sessions.AfterRound(s.sessions, c.sessions, now);
    s.(sessions := table, sent := s.sent + RenewalsSent(s, table, Sessions.Due(s.sessions, c.sessions, now), commandIds))
  }

  function RevokeCommand(commandId: Id): Agent.Command {
    Agent.Command(commandId, Agent.DoRevoke, 0, Events, None, 0.0, 0)
  }

  function Apply(c: Config, s: Sys, step: Step): Sys
    requires Enabled(s, step)
  {
    match step
    case Boot(node, boot, connection) => Booted(s, node, boot, connection)
    case Connect(node, connection, up, now) => Connected(s, node, connection, up, now)
    case SayState(node, online) => s.(sent := s.sent + {SentHello(node, HelloOf(s.processes[node], online))})
    case TakeReading(node, sample, now) => ReadingTaken(c, s, node, sample, now)
    case TakeBatch(node, granted, taken) => BatchTaken(c, s, node, granted, taken)
    case SendOne(node, attempt) => OneSent(c, s, node, attempt)
    case HearCommand(node, command, now) => CommandHeard(c, s, node, command, now)
    case LetTheNextIn(node) => Viewed(s, node, s.processes[node].view.(configuring := false))
    case FinishConfigure(node, commandId, outcome) =>
      Viewed(s, node, Agent.Remembering(s.processes[node].view, commandId, outcome))
    case HearHello(node, hello, how) => HelloHeard(c, s, node, hello, how)
    case HearEvent(node, envelope, retained, monotonic, now, sources, disk, full) =>
      EventHeard(c, s, node, envelope, retained, monotonic, now, sources, disk, full)
    case RenewGrants(commandIds, now) => Renewed(c, s, commandIds, now)
    case CloseSession(node, commandId) =>
      s.(sessions := Sessions.Closed(s.sessions, node, None), sent := s.sent + {SentCommand(node, RevokeCommand(commandId))})
    case Ask(node, command) => s.(sent := s.sent + {SentCommand(node, command)})
    case RestartHub => s.(sessions := map[])
    case ForgetReceipts(now, olderThan) =>
      s.(journal := s.journal.(receipts := ReceiptsSince(s.journal.receipts, now - olderThan)))
  }

  /** A run from the start, every step of it enabled where it is taken. */
  ghost predicate IsRun(c: Config, states: seq<Sys>, steps: seq<Step>) {
    && |states| == |steps| + 1
    && states[0] == Start()
    && forall i | 0 <= i < |steps| :: Enabled(states[i], steps[i]) && states[i + 1] == Apply(c, states[i], steps[i])
  }
}
