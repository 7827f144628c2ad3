/** Connections, epochs and grants: who is talking now, and what they may say. */
module Sessions {
  import opened Wrappers
  import opened Wire
  import opened Registry

  /** How long a grant lasts and how early it is renewed; a renewal always comes before expiry. */
  datatype Settings = Settings(grantSeconds: real, renewEverySeconds: real) {
    ghost predicate Valid() {
      0.0 < renewEverySeconds < grantSeconds
    }
  }

  datatype Grant = Grant(grantId: Id, node: NodeId, capability: Capability, hubEpoch: nat,
                         issuedAt: real, expiresAt: real, sequence: nat)

  predicate LiveAt(g: Grant, now: real) {
    now < g.expiresAt
  }

  datatype Session = Session(node: NodeId, connection: Id, boot: Option<Id>, hubEpoch: nat,
                             openedAt: real, lastSeen: real, closed: bool, grants: map<Capability, Grant>)

  type Table = map<NodeId, Session>

  // -- sessions --------------------------------------------------------------------------

  function Current(t: Table, node: NodeId): Option<Session> {
    if node in t && !t[node].closed then Some(t[node]) else None
  }

  function Opened(t: Table, node: NodeId, connection: Id, boot: Option<Id>, epoch: nat, now: real): Table {
    t[node := Session(node, connection, boot, epoch, now, now, false, map[])]
  }

  /** Closing names a connection or means whatever one is there; news about an older connection
      changes nothing. */
  predicate ClosesIt(t: Table, node: NodeId, connection: Option<Id>) {
    node in t && (connection.None? || t[node].connection == connection.value)
  }

  function Closed(t: Table, node: NodeId, connection: Option<Id>): Table {
    if ClosesIt(t, node, connection) then t[node := t[node].(closed := true, grants := map[])] else t
  }

  function Heard(t: Table, node: NodeId, now: real): Table {
    if Current(t, node).None? then t else t[node := t[node].(lastSeen := now)]
  }

  predicate IsCurrent(t: Table, node: NodeId, connection: Id, hubEpoch: Option<nat>) {
    && Current(t, node).Some?
    && t[node].connection == connection
    && (hubEpoch.None? || hubEpoch.value == t[node].hubEpoch)
  }

  // -- grants ----------------------------------------------------------------------------

  function GrantFor(s: Session, capability: Capability, now: real): Option<Grant> {
    if capability in s.grants && LiveAt(s.grants[capability], now) then Some(s.grants[capability]) else None
  }

  predicate GrantIsCurrent(t: Table, node: NodeId, grantId: Id, now: real) {
    && Current(t, node).Some?
    && var held := GrantFor(t[node], Events, now);
       held.Some? && held.value.grantId == grantId
  }

  function NewGrant(s: Session, capability: Capability, grantId: Id, seconds: real, now: real): Grant {
    Grant(grantId, s.node, capability, s.hubEpoch, now, now + seconds, 0)
  }

  function Granted(t: Table, node: NodeId, grant: Grant): Table
    requires node in t
  {
    t[node := t[node].(grants := t[node].grants[grant.capability := grant])]
  }

  /** The same grant, counted once more and lasting from now. */
  function Renewed(s: Session, held: Grant, seconds: real, now: real): Grant {
    Grant(held.grantId, s.node, held.capability, s.hubEpoch, now, now + seconds, held.sequence + 1)
  }

  type Held = (NodeId, Capability)

  predicate Holds(t: Table, held: Held) {
    held.0 in t && !t[held.0].closed && held.1 in t[held.0].grants
  }

  function GrantOf(t: Table, held: Held): Grant
    requires Holds(t, held)
  {
    t[held.0].grants[held.1]
  }

  predicate IsDue(g: Grant, settings: Settings, now: real) {
    g.expiresAt - now <= settings.renewEverySeconds
  }

  /** What a round leaves of one session: what is due is renewed, the rest stays. */
  function SessionAfterRound(s: Session, settings: Settings, now: real): Session {
    if s.closed then s
    else s.(grants := map c | c in s.grants ::
              if IsDue(s.grants[c], settings, now) then Renewed(s, s.grants[c], settings.grantSeconds, now)
              else s.grants[c])
  }

  function AfterRound(t: Table, settings: Settings, now: real): Table {
    map n | n in t :: SessionAfterRound(t[n], settings, now)
  }

  // -- how often a node came back ----------------------------------------------------------

  /** A node that reconnects has a new connection; one that restarted has a new boot id as well. */
  datatype Comings = Comings(connections: nat, boots: nat, lastBoot: Option<Id>, restartedAt: Option<real>)

  function ComingsOf(comings: map<NodeId, Comings>, node: NodeId): Comings {
    if node in comings then comings[node] else Comings(0, 0, None, None)
  }

  function Came(c: Comings, boot: Option<Id>, now: real): Comings {
    var came := c.(connections := c.connections + 1);
    if boot.None? || boot == c.lastBoot then came
    else Comings(came.connections, c.boots + 1, boot, if c.lastBoot.Some? then Some(now) else c.restartedAt)
  }

  class SessionManager {
    const settings: Settings
    const registry: NodeRegistry
    var sessions: Table
    var comings: map<NodeId, Comings>

    constructor (settings: Settings, registry: NodeRegistry)
      ensures sessions == map[] && comings == map[] && this.settings == settings && this.registry == registry
    {
      this.settings := settings;
      this.registry := registry;
      sessions, comings := map[], map[];
    }

    /** A session replaces any older one of its node and is stamped with a number never used; without
        such a number there is no session. */
    method Open(node: NodeId, connection: Id, boot: Option<Id>, now: real, works: bool) returns (change: Change)
      modifies this, registry
      ensures (registry.Now(), change) == Numbered(old(registry.Now()), works)
      ensures sessions == if change.Kept? then Opened(old(sessions), node, connection, boot, registry.document.hubEpoch, now)
                          else old(sessions)
      ensures comings == if change.Kept? then old(comings)[node := Came(ComingsOf(old(comings), node), boot, now)]
                         else old(comings)
    {
      var epoch: Option<nat>;
      epoch, change := registry.NextEpoch(works);
      if epoch.None? {
        return;
      }
      sessions := sessions[node := Session(node, connection, boot, epoch.value, now, now, false, map[])];
      var known := ComingsOf(comings, node);
      known := known.(connections := known.connections + 1);
      if boot.Some? && boot != known.lastBoot {
        known := Comings(known.connections, known.boots + 1, boot, if known.lastBoot.Some? then Some(now) else known.restartedAt);
      }
      comings := comings[node := known];
    }

    method Close(node: NodeId, connection: Option<Id>) returns (closed: bool)
      modifies this`sessions
      ensures closed == ClosesIt(old(sessions), node, connection)
      ensures sessions == Closed(old(sessions), node, connection)
    {
      if node !in sessions {
        return false;
      }
      if connection.Some? && sessions[node].connection != connection.value {
        return false;
      }
      sessions := sessions[node := sessions[node].(closed := true, grants := map[])];
      return true;
    }

    method Heartbeat(node: NodeId, now: real) returns (known: bool)
      modifies this`sessions
      ensures known == Current(old(sessions), node).Some?
      ensures sessions == Heard(old(sessions), node, now)
    {
      if node !in sessions || sessions[node].closed {
        return false;
      }
      sessions := sessions[node := sessions[node].(lastSeen := now)];
      return true;
    }

    method GrantCapability(node: NodeId, capability: Capability, grantId: Id, now: real) returns (issued: Option<Grant>)
      modifies this`sessions
      ensures issued.Some? <==> Current(old(sessions), node).Some?
      ensures issued.None? ==> sessions == old(sessions)
      ensures issued.Some? ==>
                && issued.value == NewGrant(old(sessions)[node], capability, grantId, settings.grantSeconds, now)
                && sessions == Granted(old(sessions), node, issued.value)
    {
      if node !in sessions || sessions[node].closed {
        return None;
      }
      var session := sessions[node];
      var grant := NewGrant(session, capability, grantId, settings.grantSeconds, now);
      sessions := sessions[node := session.(grants := session.grants[capability := grant])];
      return Some(grant);
    }

    method RevokeAll(node: NodeId)
      modifies this`sessions
      ensures sessions == if node in old(sessions) then old(sessions)[node := old(sessions)[node].(grants := map[])]
                          else old(sessions)
    {
      if node in sessions {
        sessions := sessions[node := sessions[node].(grants := map[])];
      }
    }

    /** One housekeeping round: everything close to lapsing is renewed, one grant at a time, each once. */
    method RenewDueGrants(now: real) returns (renewed: seq<Grant>)
      modifies this`sessions
      ensures sessions == AfterRound(old(sessions), settings, now)
      ensures |renewed| == |Due(old(sessions), settings, now)|
      ensures forall h: Held | h in Due(old(sessions), settings, now) :: Holds(sessions, h) && GrantOf(sessions, h) in renewed
      ensures forall g | g in renewed :: exists h: Held | h in Due(old(sessions), settings, now) :: Holds(sessions, h) && g == GrantOf(sessions, h)
    {
      var start := sessions;
      var due := Due(start, settings, now);
      var done: set<Held> := {};
      renewed := [];
      NoneRenewedYet(start, settings.grantSeconds, now);
      DueAreHeld(start, settings, now);
      while done != due
        invariant done <= due
        invariant sessions == RenewedSome(start, done, settings.grantSeconds, now)
        invariant JustThese(renewed, start, done, settings.grantSeconds, now)
        decreases due - done
      {
        hide RenewedSome, Renewed, Due, RenewalOf, Holds, JustThese;
        assert due == done + (due - done);
        var h :| h in due - done;
        OneMoreRenewed(start, done, h, settings, now);
        var renewal := Renewed(sessions[h.0], sessions[h.0].grants[h.1], settings.grantSeconds, now);
        sessions := sessions[h.0 := sessions[h.0].(grants := sessions[h.0].grants[h.1 := renewal])];
        OneMoreOfThese(renewed, start, done, h, settings.grantSeconds, now);
        renewed := renewed + [renewal];
        done := done + {h};
      }
      AllDueRenewed(start, settings, now);
      DueAreRenewed(start, settings, now);
      hide AfterRound, Due, RenewalOf, Holds, RenewedSome;
    }
  }

  /** The grants a round renews. */
  function Due(t: Table, settings: Settings, now: real): set<Held> {
    set n, c | n in t.Keys && c in t[n].grants.Keys && !t[n].closed && IsDue(t[n].grants[c], settings, now) :: (n, c)
  }

  function RenewedSome(t: Table, done: set<Held>, seconds: real, now: real): Table {
    map n | n in t :: t[n].(grants := map c | c in t[n].grants ::
      if (n, c) in done then Renewed(t[n], t[n].grants[c], seconds, now) else t[n].grants[c])
  }

  lemma NoneRenewedYet(t: Table, seconds: real, now: real)
    ensures RenewedSome(t, {}, seconds, now) == t
  {
    var r := RenewedSome(t, {}, seconds, now);
    forall n | n in t ensures r[n] == t[n] {
      assert r[n].grants == t[n].grants;
    }
  }

  /** What a grant becomes that is renewed now. */
  function RenewalOf(t: Table, h: Held, seconds: real, now: real): Grant {
    if Holds(t, h) then Renewed(t[h.0], t[h.0].grants[h.1], seconds, now) else Grant("", h.0, h.1, 0, now, now, 0)
  }

  /** The renewals of some grants, each once, and no others. */
  ghost predicate JustThese(renewed: seq<Grant>, t: Table, done: set<Held>, seconds: real, now: real) {
    && |renewed| == |done|
    && (forall h | h in done :: RenewalOf(t, h, seconds, now) in renewed)
    && (forall g | g in renewed :: exists h | h in done :: g == RenewalOf(t, h, seconds, now))
  }

  lemma OneMoreOfThese(renewed: seq<Grant>, t: Table, done: set<Held>, h: Held, seconds: real, now: real)
    requires JustThese(renewed, t, done, seconds, now) && h !in done
    ensures JustThese(renewed + [RenewalOf(t, h, seconds, now)], t, done + {h}, seconds, now)
  {
    hide RenewalOf;
    assert h in done + {h};
  }

  lemma DueAreHeld(t: Table, settings: Settings, now: real)
    ensures forall h: Held | h in Due(t, settings, now) :: Holds(t, h)
  {
  }

  lemma DueAreRenewed(t: Table, settings: Settings, now: real)
    ensures forall h: Held | h in Due(t, settings, now) ::
              Holds(AfterRound(t, settings, now), h)
              && GrantOf(AfterRound(t, settings, now), h) == RenewalOf(t, h, settings.grantSeconds, now)
  {
  }

  lemma OneMoreRenewed(t: Table, done: set<Held>, h: Held, settings: Settings, now: real)
    requires h in Due(t, settings, now) && h !in done
    ensures var r := RenewedSome(t, done, settings.grantSeconds, now);
            && h.0 in r && h.1 in r[h.0].grants
            && Renewed(r[h.0], r[h.0].grants[h.1], settings.grantSeconds, now) == RenewalOf(t, h, settings.grantSeconds, now)
            && r[h.0 := r[h.0].(grants := r[h.0].grants[h.1 := RenewalOf(t, h, settings.grantSeconds, now)])]
               == RenewedSome(t, done + {h}, settings.grantSeconds, now)
  {
    var seconds := settings.grantSeconds;
    var r, w := RenewedSome(t, done, seconds, now), RenewedSome(t, done + {h}, seconds, now);
    var renewal := Renewed(r[h.0], r[h.0].grants[h.1], seconds, now);
    var updated := r[h.0 := r[h.0].(grants := r[h.0].grants[h.1 := renewal])];
    forall n | n in t ensures updated[n] == w[n] {
      assert updated[n].grants == w[n].grants;
    }
  }

  lemma AllDueRenewed(t: Table, settings: Settings, now: real)
    ensures RenewedSome(t, Due(t, settings, now), settings.grantSeconds, now) == AfterRound(t, settings, now)
  {
    var r, w := RenewedSome(t, Due(t, settings, now), settings.grantSeconds, now), AfterRound(t, settings, now);
    forall n | n in t ensures r[n] == w[n] {
      assert r[n].grants == w[n].grants;
    }
  }

  // -- what the hub asks of a table ------------------------------------------------------------

  /** Whether an event may come in: on the current connection, in the current epoch, under the
      grant that is live now. */
  predicate MayEnter(t: Table, node: NodeId, connection: Option<Id>, hubEpoch: Option<nat>, grantId: Option<Id>, now: real) {
    && connection.Some? && IsCurrent(t, node, connection.value, hubEpoch)
    && grantId.Some? && GrantIsCurrent(t, node, grantId.value, now)
  }

  /** A session is opened and granted in one go, as the state handler does. */
  function OpenAndGrant(t: Table, settings: Settings, node: NodeId, connection: Id, boot: Option<Id>, epoch: nat,
                        grantId: Id, now: real): Table
  {
    var started := Opened(t, node, connection, boot, epoch, now);
    Granted(started, node, NewGrant(started[node], Events, grantId, settings.grantSeconds, now))
  }

  /** What a node says of itself when it connects, changes its configuration or leaves. */
  datatype Hello = Hello(connection: Option<Id>, boot: Option<Id>, online: bool)

  /** The same connection of the same boot saying what it is now: the session carries on. */
  predicate SaysItAgain(t: Table, node: NodeId, hello: Hello) {
    && hello.online
    && Current(t, node).Some?
    && Some(t[node].connection) == hello.connection
    && t[node].boot == hello.boot
  }

  function NamedConnection(hello: Hello): Id {
    if hello.connection.None? || hello.connection.value == "" then "unknown" else hello.connection.value
  }

  /** What a state message does to the table: a goodbye closes, a hello opens and grants. */
  function AfterHello(t: Table, settings: Settings, node: NodeId, hello: Hello, epoch: nat, grantId: Id, now: real): Table {
    if !hello.online then Closed(t, node, hello.connection)
    else if SaysItAgain(t, node, hello) then t
    else OpenAndGrant(t, settings, node, NamedConnection(hello), hello.boot, epoch, grantId, now)
  }

  /** The same, when opening may be all it comes to: what comes after breaks off before the grant. */
  function Greeted(t: Table, settings: Settings, node: NodeId, hello: Hello, granted: bool, epoch: nat, grantId: Id, now: real): Table {
    if OpensASession(t, node, hello) && !granted then Opened(t, node, NamedConnection(hello), hello.boot, epoch, now)
    else AfterHello(t, settings, node, hello, epoch, grantId, now)
  }

  predicate OpensASession(t: Table, node: NodeId, hello: Hello) {
    hello.online && !SaysItAgain(t, node, hello)
  }

  // -- epochs ------------------------------------------------------------------------------

  /** What a delayed goodbye does: nothing, once the node is on a newer connection. */
  lemma LateGoodbyeIsIgnored(t: Table, node: NodeId, connection: Id, boot: Option<Id>, epoch: nat, now: real, older: Id)
    requires older != connection
    ensures var started := Opened(t, node, connection, boot, epoch, now);
            Closed(started, node, Some(older)) == started
  {
  }

  // -- comings ------------------------------------------------------------------------------

  /** What a node says of its boot each time it comes, and when. */
  datatype Coming = Coming(boot: Option<Id>, at: real)

  function Counted(comings: seq<Coming>): Comings
    decreases comings
  {
    if comings == [] then Comings(0, 0, None, None)
    else var last := comings[|comings| - 1]; Came(Counted(comings[..|comings| - 1]), last.boot, last.at)
  }

  /** The boots that were named, without those that name the one before again. */
  function Boots(comings: seq<Coming>): seq<Coming>
    decreases comings
  {
    if comings == [] then []
    else
      var before, last := Boots(comings[..|comings| - 1]), comings[|comings| - 1];
      if last.boot.None? || (before != [] && before[|before| - 1].boot == last.boot) then before else before + [last]
  }

  /** However often a node reconnects, and whether or not it says which boot it is: its comings are counted
      one by one, its boots by how often the one it names changes, and the last restart is the last change. */
  lemma {:induction false} RestartsAreTold(comings: seq<Coming>)
    ensures var c, boots := Counted(comings), Boots(comings);
            && c.connections == |comings| && c.boots == |boots|
            && c.lastBoot == (if boots == [] then None else boots[|boots| - 1].boot)
            && c.restartedAt == (if |boots| <= 1 then None else Some(boots[|boots| - 1].at))
            && (forall i | 0 <= i < |boots| :: boots[i].boot.Some?)
            && (forall i | 0 < i < |boots| :: boots[i - 1].boot != boots[i].boot)
    decreases comings
  {
    if comings != [] {
      RestartsAreTold(comings[..|comings| - 1]);
    }
  }
}
