/** The hub's side of every message: who is speaking, how often, what it says, what is done about
    it, and when the broker is told that the message is dealt with.

    A message is modelled as what each handler would find in it where it looks. Everything the
    world answers during one call is in `World`.
  */
module Service {
  import opened Wrappers
  import opened Wire
  import opened Registry
  import opened Basics
  import Journal
  import Ingress
  import Sessions
  import RateLimiter

  datatype Channel = StateChannel | HealthChannel | AckChannel | EventChannel

  // -- what a message says ----------------------------------------------------------------------

  /** A declared kind: a value no table can look up, one the hub has no word for, or one it knows. */
  datatype KindSays = Unhashable | Unheard | Known

  /** Whether an entry declares a camera, and then whether its frame rate can be read as a number. */
  datatype Filming = NoCamera | Camera(rateReads: bool)

  datatype EntrySays =
    | NotAnEntry
    | Entry(kind: KindSays, sourceId: Option<SourceId>, wellNamed: bool, enabled: bool, nameFits: bool, filming: Filming)

  /** The list of sources: a list, nothing at all, or something else that may not even have a length. */
  datatype DeclaredSays = NotSaid | NotAList(sized: bool) | Listed(entries: seq<EntrySays>)

  datatype StateSays = StateSays(ourProtocol: bool, hello: Sessions.Hello, declared: DeclaredSays, revision: Option<int>)

  datatype Answer = Received | Applied | Failed

  datatype AckSays = AckSays(commandId: Option<Id>, outcome: Option<Answer>)

  datatype EventSays = EventSays(enveloped: bool, connection: Option<Id>, hubEpoch: Option<nat>, grantId: Option<Id>,
                                 message: Ingress.Message)

  /** What the decoder makes of the bytes. `TooDeep`: nested so deep that it breaks off. */
  datatype Payload =
    | TooBig | Empty | NotJson | NotAnObject | TooDeep
    | Document(claims: Option<NodeId>, state: StateSays, ack: AckSays, event: EventSays)

  datatype Message = Message(node: NodeId, channel: Channel, qos: nat, retained: bool, payload: Payload)

  // -- what the hub holds and does ---------------------------------------------------------------------

  datatype Action =
    | Acked(message: Message)
    | Journalled(entry: Journal.Entry)
    | Granted(node: NodeId, grant: Sessions.Grant)
    | Revoked(node: NodeId)
    | Configured(node: NodeId, revision: int)

  datatype Progress = Sent | Answered(answer: Answer)

  datatype Configuration = Configuration(commandId: Id, revision: int, state: Progress, sentAt: real)

  datatype Settings = Settings(
    sessions: Sessions.Settings,
    ingress: Ingress.Limits,
    rates: RateLimiter.Limits,
    queueDepth: nat,
    films: bool)                            // whether this hub makes satellite cameras its own

  /** What the world answers during one call: the clocks, the journal, whether the registry's file and the fate
      of a dropped event can be written, and a fresh id. */
  datatype World = World(now: real, monotonic: real, disk: Ingress.Disk, registrySaved: bool, fateSaved: bool, grantId: Id)

  datatype Hub = Hub(
    linked: bool,                           // whether there is a broker to talk to
    books: Books,
    sessions: Sessions.Table,
    journal: Journal.JournalView,
    sources: Ingress.Sources,
    cameras: set<Journal.Key>,              // the satellite cameras that are this hub's own
    buckets: RateLimiter.Buckets,
    early: map<NodeId, Message>,            // the state of a node not approved yet
    reported: map<NodeId, Option<int>>,     // the revision a node says it runs
    pending: map<NodeId, Configuration>,
    queue: seq<Journal.Entry>,
    actions: seq<Action>)                   // everything said to the broker and written, in order

  /** A hub as it starts: nobody heard, nothing held, nothing queued. */
  function Started(books: Books, journal: Journal.JournalView, rates: RateLimiter.Limits, monotonic: real): Hub {
    Hub(false, books, map[], journal, map[], {}, RateLimiter.Fresh(rates, monotonic), map[], map[], map[], [], [])
  }

  const PATIENCE: real := 30.0

  function Doing(h: Hub, action: Action): Hub {
    h.(actions := h.actions + [action])
  }

  /** A command reaches the broker only while there is one. */
  function Saying(h: Hub, action: Action): Hub {
    if h.linked then Doing(h, action) else h
  }

  /** Nothing below QoS 1 is ever acknowledged: there is nothing to acknowledge. */
  function Settled(h: Hub, m: Message): Hub {
    if m.qos == 0 then h else Saying(h, Acked(m))
  }

  // -- the sources a node declares ------------------------------------------------------------------

  predicate Usable(e: EntrySays) {
    e.Entry? && e.kind.Known? && e.sourceId.Some? && e.wellNamed
  }

  function StatusOf(e: EntrySays): Ingress.SourceStatus
    requires e.Entry?
  {
    if e.enabled then Ingress.Ready else Ingress.Disabled
  }

  datatype Adopted = Adopted(sources: Ingress.Sources, cameras: set<Journal.Key>, named: set<Journal.Key>, raised: bool)

  /** A camera this hub would make its own now. */
  predicate WouldFilm(a: Adopted, films: bool, key: Journal.Key, e: EntrySays) {
    films && e.Entry? && e.filming.Camera? && e.enabled && key !in a.cameras
  }

  function AdoptOne(a: Adopted, films: bool, node: NodeId, e: EntrySays): Adopted {
    if e.Entry? && e.kind.Unhashable? then a.(raised := true)
    else if !Usable(e) then a
    else
      var key := (node, e.sourceId.value);
      var named := a.(named := a.named + {key});
      if WouldFilm(a, films, key, e) && !e.filming.rateReads then named.(raised := true)
      else
        var filmed := if WouldFilm(a, films, key, e) then named.(cameras := a.cameras + {key}) else named;
        if key !in a.sources && !e.nameFits then filmed.(raised := true)
        else filmed.(sources := a.sources[key := StatusOf(e)])
  }

  function AdoptEntries(a: Adopted, films: bool, node: NodeId, entries: seq<EntrySays>): Adopted
    decreases entries
  {
    if entries == [] || a.raised then a else AdoptEntries(AdoptOne(a, films, node, entries[0]), films, node, entries[1..])
  }

  function EntriesOf(declared: DeclaredSays): seq<EntrySays> {
    if declared.Listed? then declared.entries else []
  }

  /** A source the node no longer declares stays known, and nothing may count on it. */
  function WithoutTheRest(sources: Ingress.Sources, node: NodeId, named: set<Journal.Key>): Ingress.Sources {
    map key | key in sources :: if key.0 == node && key !in named then Ingress.Disabled else sources[key]
  }

  /** The list a node declares, adopted to its end or as far as it breaks off. */
  function Adopt(sources: Ingress.Sources, cameras: set<Journal.Key>, films: bool, node: NodeId, declared: DeclaredSays): Adopted {
    var a := AdoptEntries(Adopted(sources, cameras, {}, false), films, node, EntriesOf(declared));
    if a.raised then a else a.(sources := WithoutTheRest(a.sources, node, a.named))
  }

  function Adopting(h: Hub, settings: Settings, node: NodeId, declared: DeclaredSays): (Hub, bool) {
    var a := Adopt(h.sources, h.cameras, settings.films, node, declared);
    (h.(sources := a.sources, cameras := a.cameras), a.raised)
  }

  predicate Unsized(declared: DeclaredSays) {
    declared.NotAList? && !declared.sized
  }

  // -- the four handlers -----------------------------------------------------------------------------

  function Remembered(h: Hub, node: NodeId, says: StateSays): Hub {
    if says.hello.online then h.(reported := h.reported[node := says.revision]) else h
  }

  /** A new session: numbered, its sources adopted, its grant issued. It may break off in between. */
  function OpenSession(h: Hub, settings: Settings, node: NodeId, says: StateSays, w: World): (Hub, bool) {
    var (books, change) := Numbered(h.books, w.registrySaved);
    var numbered := h.(books := books);
    if !change.Kept? then (numbered, true)
    else
      var started := numbered.(sessions := Sessions.Opened(h.sessions, node, Sessions.NamedConnection(says.hello), says.hello.boot,
                                                           books.document.hubEpoch, w.monotonic));
      var (adopted, raised) := Adopting(started, settings, node, says.declared);
      if raised then (adopted, true)
      else
        var grant := Sessions.NewGrant(adopted.sessions[node], Events, w.grantId, settings.sessions.grantSeconds, w.monotonic);
        (Saying(adopted.(sessions := Sessions.Granted(adopted.sessions, node, grant)), Action.Granted(node, grant)),
         Unsized(says.declared))
  }

  function OnState(h: Hub, settings: Settings, node: NodeId, says: StateSays, w: World): (Hub, bool) {
    if !says.ourProtocol then (h.(sessions := Sessions.Closed(h.sessions, node, None)), false)
    else
      var h := Remembered(h, node, says);
      if !says.hello.online then (h.(sessions := Sessions.Closed(h.sessions, node, says.hello.connection)), false)
      else if Sessions.SaysItAgain(h.sessions, node, says.hello) then Adopting(h, settings, node, says.declared)
      else OpenSession(h, settings, node, says, w)
  }

  function OnAck(h: Hub, node: NodeId, says: AckSays): Hub {
    if node !in h.pending || says.commandId != Some(h.pending[node].commandId) || says.outcome.None? then h
    else if says.outcome.value.Received? && !h.pending[node].state.Sent? then h
    else h.(pending := h.pending[node := h.pending[node].(state := Answered(says.outcome.value))])
  }

  /** Whether an event's envelope gets as far as being looked into. */
  predicate PastTheSession(h: Hub, node: NodeId, says: EventSays, monotonic: real) {
    says.enveloped && Sessions.MayEnter(h.sessions, node, says.connection, says.hubEpoch, says.grantId, monotonic)
  }

  function Accepting(h: Hub, settings: Settings, m: Message, message: Ingress.Message, w: World)
    : (Journal.JournalView, Option<Ingress.Receipt>)
  {
    Ingress.Accept(h.journal, h.sources, settings.ingress, m.node, message, m.retained, w.now, w.disk)
  }

  /** Through the door: journalled, then acknowledged unless that failed, then queued for the rules. An event
      for which there is no room is marked so in the journal, if that can be written. */
  function Enter(h: Hub, settings: Settings, m: Message, message: Ingress.Message, w: World): (Hub, bool) {
    var (journal, receipt) := Accepting(h, settings, m, message, w);
    if receipt.None? then (h, true)
    else (Concluded(h.(journal := journal), settings, m, receipt.value), NoRoom(h, settings, receipt.value) && !w.fateSaved)
  }

  predicate NoRoom(h: Hub, settings: Settings, receipt: Ingress.Receipt) {
    receipt.event.Some? && |h.queue| >= settings.queueDepth
  }

  function Concluded(h: Hub, settings: Settings, m: Message, receipt: Ingress.Receipt): Hub {
    var written := if receipt.stored && h.journal.entries != []
                   then Doing(h, Journalled(h.journal.entries[|h.journal.entries| - 1])) else h;
    var answered := if receipt.settle then Settled(written, m) else written;
    if receipt.event.Some? && |h.queue| < settings.queueDepth then answered.(queue := h.queue + [receipt.event.value])
    else answered
  }

  function OnEvent(h: Hub, settings: Settings, m: Message, says: EventSays, w: World): (Hub, bool) {
    if !PastTheSession(h, m.node, says, w.monotonic) then (Settled(h, m), false)
    else Enter(h, settings, m, says.message, w)
  }

  // -- one message -----------------------------------------------------------------------------------------

  predicate Readable(m: Message) {
    m.payload.Document? && (m.payload.claims.None? || m.payload.claims.value == m.node)
  }

  /** Only events are counted against a budget. */
  function Drawing(h: Hub, settings: Settings, m: Message, w: World): (RateLimiter.Buckets, RateLimiter.Answer) {
    if m.channel.EventChannel? then RateLimiter.Allow(settings.rates, h.buckets, m.node, w.monotonic)
    else (h.buckets, RateLimiter.Pass)
  }

  /** A message from a node that may speak, once nothing it said earlier is waiting. */
  function Read(h: Hub, settings: Settings, m: Message, w: World): (Hub, bool) {
    var (buckets, answer) := Drawing(h, settings, m, w);
    var h := h.(buckets := buckets);
    if !answer.Pass? then (Settled(h, m), false)
    else if m.payload.TooDeep? then (h, true)
    else if !Readable(m) then (Settled(h, m), false)
    else
      match m.channel
      case EventChannel => OnEvent(h, settings, m, m.payload.event, w)
      case HealthChannel => (Settled(h.(sessions := Sessions.Heard(h.sessions, m.node, w.monotonic)), m), false)
      case AckChannel => (Settled(OnAck(h, m.node, m.payload.ack), m), false)
      case StateChannel =>
        var (after, raised) := OnState(h, settings, m.node, m.payload.state, w);
        if raised then (after, true) else (Settled(after, m), false)
  }

  /** A name that may not speak: settled, and its state kept if only approval is missing. */
  function TurnAway(h: Hub, m: Message, refusal: Refusal): Hub {
    Settled(if refusal.NotApproved? && m.channel.StateChannel? then h.(early := h.early[m.node := m.(qos := 0)]) else h, m)
  }

  /** Every message: the registry is looked at again first, and nothing goes on if it cannot be read. */
  function Handle(h: Hub, settings: Settings, m: Message, w: World): (Hub, bool)
    decreases |h.early|
  {
    var books := Reread(h.books);
    if books.None? then (h, true)
    else
      var h := h.(books := books.value);
      var refusal := Authenticate(h.books.document, m.node);
      if refusal.Some? then (TurnAway(h, m, refusal.value), false)
      else if m.node !in h.early then Read(h, settings, m, w)
      else
        var held := h.early[m.node];
        var rest := h.(early := h.early - {m.node});
        assert rest.early.Keys == h.early.Keys - {m.node};
        if m.channel.StateChannel? then Read(rest, settings, m, w)
        else
          var (after, raised) := Handle(rest, settings, held, w);
          if raised then (after, true) else Read(after, settings, m, w)
  }

  // -- what an operator asks -------------------------------------------------------------------------------

  /** Approving reads what the node had already said, once the approval is kept. */
  function Approve(h: Hub, settings: Settings, node: NodeId, pinned: Option<string>, w: World): (Hub, bool) {
    var (books, change) := Approving(h.books, node, pinned, w.registrySaved);
    var h := h.(books := books);
    if !change.Kept? then (h, true)
    else if node !in h.early then (h, false)
    else Handle(h.(early := h.early - {node}), settings, h.early[node], w)
  }

  function AllDisabled(sources: Ingress.Sources, node: NodeId): Ingress.Sources {
    WithoutTheRest(sources, node, {})
  }

  /** Everything the hub believed about a node goes at once, once the revocation is kept; its record stays. */
  function Revoke(h: Hub, node: NodeId, registrySaved: bool): (Hub, bool) {
    var (books, change) := Revoking(h.books, node, registrySaved);
    var h := h.(books := books);
    if !change.Kept? then (h, true)
    else
      var h := h.(early := h.early - {node}, sessions := Sessions.Closed(h.sessions, node, None));
      (Saying(h, Action.Revoked(node)).(reported := h.reported - {node}, pending := h.pending - {node},
                                        sources := AllDisabled(h.sources, node)), false)
  }

  // -- configuration ----------------------------------------------------------------------------------------

  datatype ConfigureError = NotRegistered | NotApprovedYet | Offline | Impossible | StillWaiting | LinkDown

  predicate StillOut(h: Hub, node: NodeId, now: real) {
    && node in h.pending
    && h.pending[node].state in {Sent, Answered(Received)}
    && now - h.pending[node].sentAt < PATIENCE
  }

  function ReportedRevision(h: Hub, node: NodeId): int {
    if node in h.reported && h.reported[node].Some? then h.reported[node].value else 0
  }

  function NextRevision(h: Hub, node: NodeId): int {
    Max(ReportedRevision(h, node), if node in h.pending then h.pending[node].revision else 0) + 1
  }

  /** `possible` is whether this kind of machine can be asked for these sources at all. */
  function Configure(h: Hub, node: NodeId, possible: bool, commandId: Id, now: real)
    : (Hub, Result<Configuration, ConfigureError>)
  {
    if node !in h.books.document.nodes then (h, Failure(NotRegistered))
    else if h.books.document.nodes[node].status != Approved then (h, Failure(NotApprovedYet))
    else if Sessions.Current(h.sessions, node).None? then (h, Failure(Offline))
    else if !possible then (h, Failure(Impossible))
    else if StillOut(h, node, now) then (h, Failure(StillWaiting))
    else
      var entry := Configuration(commandId, NextRevision(h, node), Sent, now);
      if h.linked then (Doing(h.(pending := h.pending[node := entry]), Configured(node, entry.revision)), Success(entry))
      else (h.(pending := h.pending[node := entry.(state := Answered(Failed))]), Failure(LinkDown))
  }
}
