/** The service itself: the objects it owns, changed in place, one message at a time. Every method
    does what the function of the same name in `Service` says.
  */
module SatelliteServices {
  import opened Wrappers
  import opened Wire
  import opened Registry
  import opened Service
  import Journal
  import Ingress
  import Sessions
  import RateLimiter

  class SatelliteService {
    const settings: Settings
    const nodes: NodeRegistry
    const manager: Sessions.SessionManager
    const store: Journal.Store
    const ingress: Ingress.EventIngress
    const limiter: RateLimiter.Limiter
    var linked: bool
    var sources: Ingress.Sources
    var cameras: set<Journal.Key>
    var early: map<NodeId, Message>
    var reported: map<NodeId, Option<int>>
    var configured: map<NodeId, Configuration>
    var queue: seq<Journal.Entry>
    var actions: seq<Action>

    ghost predicate Valid()
    {
      && manager.registry == nodes && manager.settings == settings.sessions
      && ingress.store == store && ingress.limits == settings.ingress
      && limiter.Budgets() == settings.rates
    }

    function Now(): Hub
      reads this, nodes, manager, store, limiter
    {
      Hub(linked, nodes.Now(), manager.sessions, store.View(), sources, cameras, limiter.Now(), early, reported, configured,
          queue, actions)
    }

    constructor (settings: Settings, nodes: NodeRegistry, store: Journal.Store, monotonic: real)
      ensures Valid() && this.settings == settings && this.nodes == nodes && this.store == store
      ensures fresh(manager) && fresh(limiter) && fresh(ingress)
      ensures Now() == Started(nodes.Now(), store.View(), settings.rates, monotonic)
    {
      this.settings := settings;
      this.nodes := nodes;
      this.store := store;
      manager := new Sessions.SessionManager(settings.sessions, nodes);
      ingress := new Ingress.EventIngress(store, settings.ingress);
      limiter := new RateLimiter.Limiter(settings.rates, monotonic);
      linked, sources, cameras := false, map[], {};
      early, reported, configured := map[], map[], map[];
      queue, actions := [], [];
    }

    method Act(action: Action)
      modifies this`actions
      ensures Now() == Doing(old(Now()), action)
    {
      actions := actions + [action];
    }

    method Say(action: Action)
      modifies this`actions
      ensures Now() == Saying(old(Now()), action)
    {
      if linked {
        Act(action);
      }
    }

    method Settle(m: Message)
      modifies this`actions
      ensures Now() == Settled(old(Now()), m)
    {
      if m.qos != 0 {
        Say(Acked(m));
      }
    }

    method AdoptSources(node: NodeId, declared: DeclaredSays) returns (raised: bool)
      modifies this`sources, this`cameras
      ensures (Now(), raised) == Adopting(old(Now()), settings, node, declared)
    {
      hide AdoptOne;
      var entries := EntriesOf(declared);
      ghost var all := AdoptEntries(Adopted(sources, cameras, {}, false), settings.films, node, entries);
      var named: set<Journal.Key> := {};
      var i := 0;
      assert entries[0..] == entries;
      while i < |entries|
        invariant i <= |entries|
        invariant all == AdoptEntries(Adopted(sources, cameras, named, false), settings.films, node, entries[i..])
      {
        assert entries[i..][0] == entries[i] && entries[i..][1..] == entries[i + 1..];
        var broke: bool;
        named, broke := AdoptEntry(named, node, entries[i]);
        if broke {
          return true;
        }
        i := i + 1;
      }
      sources := WithoutTheRest(sources, node, named);
      return false;
    }

    method AdoptEntry(named: set<Journal.Key>, node: NodeId, e: EntrySays) returns (named': set<Journal.Key>, raised: bool)
      modifies this`sources, this`cameras
      ensures Adopted(sources, cameras, named', raised)
           == AdoptOne(Adopted(old(sources), old(cameras), named, false), settings.films, node, e)
    {
      if e.Entry? && e.kind.Unhashable? {
        return named, true;
      }
      if !Usable(e) {
        return named, false;
      }
      var key := (node, e.sourceId.value);
      named' := named + {key};
      if settings.films && e.filming.Camera? && e.enabled && key !in cameras {
        if !e.filming.rateReads {
          return named', true;
        }
        cameras := cameras + {key};
      }
      if key !in sources && !e.nameFits {
        return named', true;
      }
      sources := sources[key := StatusOf(e)];
      return named', false;
    }

    method StartSession(node: NodeId, says: StateSays, w: World) returns (raised: bool)
      requires Valid()
      modifies this, nodes, manager
      ensures (Now(), raised) == OpenSession(old(Now()), settings, node, says, w)
      ensures early == old(early)
    {
      hide Adopting, Numbered;
      var change := manager.Open(node, Sessions.NamedConnection(says.hello), says.hello.boot, w.monotonic, w.registrySaved);
      if !change.Kept? {
        return true;
      }
      var broke := AdoptSources(node, says.declared);
      if broke {
        return true;
      }
      var grant := manager.GrantCapability(node, Events, w.grantId, w.monotonic);
      Say(Action.Granted(node, grant.value));
      return Unsized(says.declared);
    }

    method HearState(node: NodeId, says: StateSays, w: World) returns (raised: bool)
      requires Valid()
      modifies this, nodes, manager
      ensures (Now(), raised) == OnState(old(Now()), settings, node, says, w)
      ensures early == old(early)
    {
      hide Adopting, OpenSession;
      if !says.ourProtocol {
        var closed := manager.Close(node, None);
        return false;
      }
      if says.hello.online {
        reported := reported[node := says.revision];
      } else {
        var closed := manager.Close(node, says.hello.connection);
        return false;
      }
      if Sessions.SaysItAgain(manager.sessions, node, says.hello) {
        raised := AdoptSources(node, says.declared);
        return;
      }
      raised := StartSession(node, says, w);
    }

    method HearAck(node: NodeId, says: AckSays)
      modifies this`configured
      ensures Now() == OnAck(old(Now()), node, says)
    {
      if node !in configured || says.commandId != Some(configured[node].commandId) {
        return;
      }
      if says.outcome.None? {
        return;
      }
      if says.outcome.value.Received? && !configured[node].state.Sent? {
        return;
      }
      configured := configured[node := configured[node].(state := Answered(says.outcome.value))];
    }

    method HearEvent(m: Message, says: EventSays, w: World) returns (raised: bool)
      requires Valid()
      modifies this, store
      ensures (Now(), raised) == OnEvent(old(Now()), settings, m, says, w)
      ensures early == old(early)
    {
      hide Enter, Settled, Sessions.IsCurrent, Sessions.GrantIsCurrent;
      if !says.enveloped {
        Settle(m);
        return false;
      }
      if says.connection.None? || !Sessions.IsCurrent(manager.sessions, m.node, says.connection.value, says.hubEpoch) {
        Settle(m);
        return false;
      }
      if says.grantId.None? || !Sessions.GrantIsCurrent(manager.sessions, m.node, says.grantId.value, w.monotonic) {
        Settle(m);
        return false;
      }
      raised := EnterEvent(m, says.message, w);
    }

    method EnterEvent(m: Message, message: Ingress.Message, w: World) returns (raised: bool)
      requires Valid()
      modifies this, store
      ensures (Now(), raised) == Enter(old(Now()), settings, m, message, w)
      ensures early == old(early)
    {
      hide Ingress.Accept, Concluded;
      NoReceiptNoChange(store.View(), sources, settings.ingress, m, message, w);
      var receipt := ingress.AcceptEvent(sources, m.node, message, m.retained, w.now, w.disk);
      if receipt.None? {
        return true;
      }
      raised := receipt.value.event.Some? && |queue| >= settings.queueDepth && !w.fateSaved;
      Conclude(m, receipt.value);
    }

    method Conclude(m: Message, receipt: Ingress.Receipt)
      requires Valid()
      modifies this
      ensures Now() == Concluded(old(Now()), settings, m, receipt)
      ensures early == old(early)
    {
      hide Settled;
      if receipt.stored && store.entries != [] {
        Act(Journalled(store.entries[|store.entries| - 1]));
      }
      if receipt.settle {
        Settle(m);
      }
      if receipt.event.Some? && |queue| < settings.queueDepth {
        queue := queue + [receipt.event.value];
      }
    }

    method ReadMessage(m: Message, w: World) returns (raised: bool)
      requires Valid()
      modifies this, nodes, manager, store, limiter
      ensures (Now(), raised) == Read(old(Now()), settings, m, w)
      ensures early == old(early)
    {
      hide OnState, OnEvent, OnAck, RateLimiter.Allow, Sessions.Heard, Settled;
      if m.channel.EventChannel? {
        var budget := limiter.AllowEvent(m.node, w.monotonic);
        if !budget.Pass? {
          Settle(m);
          return false;
        }
      }
      if m.payload.TooDeep? {
        return true;
      }
      if !Readable(m) {
        Settle(m);
        return false;
      }
      match m.channel {
        case EventChannel =>
          raised := HearEvent(m, m.payload.event, w);
          return;
        case HealthChannel =>
          var known := manager.Heartbeat(m.node, w.monotonic);
        case AckChannel =>
          HearAck(m.node, m.payload.ack);
        case StateChannel =>
          raised := HearState(m.node, m.payload.state, w);
          if raised {
            return;
          }
      }
      Settle(m);
      return false;
    }

    method TurnAwayMessage(m: Message, refusal: Refusal)
      modifies this
      ensures Now() == TurnAway(old(Now()), m, refusal)
    {
      if refusal.NotApproved? && m.channel.StateChannel? {
        early := early[m.node := m.(qos := 0)];
      }
      Settle(m);
    }

    method HandleMessage(m: Message, w: World) returns (raised: bool)
      requires Valid()
      modifies this, nodes, manager, store, limiter
      ensures (Now(), raised) == Handle(old(Now()), settings, m, w)
      decreases |early|, 1
    {
      hide Read, Authenticate, TurnAway, Reread;
      var readable := nodes.Refresh();
      if !readable {
        return true;
      }
      var refusal := Authenticate(nodes.document, m.node);
      if refusal.Some? {
        TurnAwayMessage(m, refusal.value);
        return false;
      }
      if m.node in early {
        raised := ReadAfterHeld(m, w);
      } else {
        raised := ReadMessage(m, w);
      }
    }

    /** A message of a node whose state is held: a newer state takes its place, anything else waits for it to be
        read. */
    method ReadAfterHeld(m: Message, w: World) returns (raised: bool)
      requires Valid() && m.node in early
      modifies this, nodes, manager, store, limiter
      ensures var h := old(Now());
              var rest := h.(early := h.early - {m.node});
              (Now(), raised) ==
                if m.channel.StateChannel? then Read(rest, settings, m, w)
                else
                  var (after, broke) := Handle(rest, settings, h.early[m.node], w);
                  if broke then (after, true) else Read(after, settings, m, w)
      decreases |early|, 0
    {
      hide Read, Handle;
      var held := early[m.node];
      assert (early - {m.node}).Keys == early.Keys - {m.node};
      early := early - {m.node};
      if !m.channel.StateChannel? {
        raised := HandleMessage(held, w);
        if raised {
          return;
        }
      }
      raised := ReadMessage(m, w);
    }

    method ApproveNode(node: NodeId, pinned: Option<string>, w: World) returns (raised: bool)
      requires Valid()
      modifies this, nodes, manager, store, limiter
      ensures (Now(), raised) == Approve(old(Now()), settings, node, pinned, w)
    {
      hide Handle, Approving;
      var change := nodes.Approve(node, pinned, w.registrySaved);
      if !change.Kept? {
        return true;
      }
      if node !in early {
        return false;
      }
      var waiting := early[node];
      early := early - {node};
      raised := HandleMessage(waiting, w);
    }

    method RevokeNode(node: NodeId, registrySaved: bool) returns (raised: bool)
      requires Valid()
      modifies this, nodes, manager
      ensures (Now(), raised) == Revoke(old(Now()), node, registrySaved)
    {
      hide Revoking;
      var change := nodes.Revoke(node, registrySaved);
      if !change.Kept? {
        return true;
      }
      early := early - {node};
      manager.RevokeAll(node);
      var closed := manager.Close(node, None);
      assert manager.sessions == Sessions.Closed(old(manager.sessions), node, None);
      Say(Action.Revoked(node));
      reported := reported - {node};
      configured := configured - {node};
      sources := AllDisabled(sources, node);
      return false;
    }

    method ConfigureNode(node: NodeId, possible: bool, commandId: Id, now: real)
        returns (out: Result<Configuration, ConfigureError>)
      requires Valid()
      modifies this
      ensures (Now(), out) == Configure(old(Now()), node, possible, commandId, now)
    {
      if node !in nodes.document.nodes {
        return Failure(NotRegistered);
      }
      if nodes.document.nodes[node].status != Approved {
        return Failure(NotApprovedYet);
      }
      if Sessions.Current(manager.sessions, node).None? {
        return Failure(Offline);
      }
      if !possible {
        return Failure(Impossible);
      }
      if StillOut(Now(), node, now) {
        return Failure(StillWaiting);
      }
      var known := if node in reported && reported[node].Some? then reported[node].value else 0;
      var last := if node in configured then configured[node].revision else 0;
      var revision := (if known >= last then known else last) + 1;
      var entry := Configuration(commandId, revision, Sent, now);
      configured := configured[node := entry];
      if !linked {
        configured := configured[node := entry.(state := Answered(Failed))];
        assert configured == old(configured)[node := entry.(state := Answered(Failed))];
        return Failure(LinkDown);
      }
      Act(Configured(node, revision));
      return Success(entry);
    }
  }

  /** Nobody heard back: then nothing was written. */
  lemma NoReceiptNoChange(j: Journal.JournalView, sources: Ingress.Sources, limits: Ingress.Limits, m: Message,
                          message: Ingress.Message, w: World)
    ensures var (after, receipt) := Ingress.Accept(j, sources, limits, m.node, message, m.retained, w.now, w.disk);
            receipt.None? ==> after == j
  {
    hide Ingress.Classify, Ingress.TurnedAway;
  }
}
