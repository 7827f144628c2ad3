/** What holds in every run of the hub and its nodes, however messages are lost, repeated, delayed
    and reordered, and whenever either side restarts.
  */
module SystemProofs {
  import opened Wrappers
  import opened Wire
  import opened Journal
  import opened System
  import Ingress
  import Sessions
  import Agent
  import Spool
  import Numbering
  import Seen

  // -- who is who -----------------------------------------------------------------------------

  predicate KnownLink(s: Sys, connection: Id, boot: Id) {
    connection in s.links && s.links[connection] == boot
  }

  predicate LifeOf(s: Sys, boot: Id, node: NodeId) {
    boot in s.lives && s.lives[boot].node == node
  }

  function Order(s: Sys, boot: Id): int {
    if boot in s.lives then s.lives[boot].order else -1
  }

  /** Nothing an ended boot sent carries an epoch later than its end. */
  predicate WithinItsLife(s: Sys, boot: Id, epoch: nat) {
    epoch <= s.epoch && (boot in s.ended ==> epoch <= s.ended[boot])
  }

  ghost predicate SentOk(s: Sys, m: Sent) {
    match m
    case SentHello(node, hello) =>
      && hello.connection.Some? && hello.connection.value != "" && hello.boot.Some?
      && KnownLink(s, hello.connection.value, hello.boot.value)
      && LifeOf(s, hello.boot.value, node)
    case SentEvent(node, envelope) =>
      && envelope.event in s.made
      && envelope.event.node == node
      && KnownLink(s, envelope.delivery.connection, envelope.event.boot)
      && LifeOf(s, envelope.event.boot, node)
      && WithinItsLife(s, envelope.event.boot, envelope.delivery.hubEpoch)
    case SentCommand(node, command) => command.hubEpoch <= s.epoch
  }

  ghost predicate HeldOk(made: set<Event>, view: Agent.AgentView, held: Spool.Held<Event>) {
    held.item in made && held.item.node == view.node && held.item.boot == view.boot
  }

  ghost predicate AllHeldOk(made: set<Event>, view: Agent.AgentView, items: seq<Spool.Held<Event>>) {
    forall i | 0 <= i < |items| :: HeldOk(made, view, items[i])
  }

  ghost predicate NumbersAhead(made: set<Event>, view: Agent.AgentView) {
    forall e | e in made && e.boot == view.boot :: e.sequence < Numbering.Next(view.next, e.source)
  }

  ghost predicate ProcessOk(s: Sys, node: NodeId) {
    node in s.processes ==>
      var p := s.processes[node];
      && p.view.node == node
      && LifeOf(s, p.view.boot, node) && p.view.boot !in s.ended
      && p.view.connection != "" && KnownLink(s, p.view.connection, p.view.boot)
      && (p.view.grant.Some? ==> p.view.grant.value.hubEpoch <= s.epoch)
      && AllHeldOk(s.made, p.view, p.view.spool.items)
      && AllHeldOk(s.made, p.view, p.hand)
      && p.view.spool.bytes == Spool.Sizes(p.view.spool.items)
      && NumbersAhead(s.made, p.view)
  }

  ghost predicate SessionOk(s: Sys, node: NodeId) {
    node in s.sessions ==>
      var session := s.sessions[node];
      && session.hubEpoch <= s.epoch
      && session.connection in s.links
      && LifeOf(s, s.links[session.connection], node)
      && forall c | c in session.grants :: session.grants[c].hubEpoch <= s.epoch
  }

  /** Every boot ever drawn is over, or is the one its node runs now and the latest of its node. */
  ghost predicate LifeOk(s: Sys, boot: Id) {
    boot in s.lives ==>
      var node := s.lives[boot].node;
      && s.lives[boot].order < |s.lives|
      && node in s.processes
      && s.lives[boot].order <= Order(s, s.processes[node].view.boot)
      && (s.processes[node].view.boot != boot ==> boot in s.ended && s.ended[boot] <= s.epoch)
  }

  ghost predicate MadeOk(s: Sys) {
    && (forall e | e in s.made :: LifeOf(s, e.boot, e.node))
    && (forall e, f | e in s.made && f in s.made && e.eventId == f.eventId :: e == f)
    && (forall e, f | e in s.made && f in s.made && e.boot == f.boot && e.source == f.source && e.sequence == f.sequence ::
          e == f)
  }

  ghost predicate Orderly(s: Sys) {
    && (forall m | m in s.sent :: SentOk(s, m))
    && (forall node :: ProcessOk(s, node))
    && (forall node :: SessionOk(s, node))
    && (forall boot :: LifeOk(s, boot))
    && (forall a, b | a in s.lives && b in s.lives && a != b :: s.lives[a].order != s.lives[b].order)
    && (forall boot | boot in s.ended :: boot in s.lives)
    && (forall c | c in s.links :: s.links[c] in s.lives)
    && MadeOk(s)
  }

  lemma SentIsOk(s: Sys, m: Sent)
    requires Orderly(s) && m in s.sent
    ensures SentOk(s, m)
  {
  }

  lemma NodeIsOk(s: Sys, node: NodeId)
    requires Orderly(s)
    ensures ProcessOk(s, node) && SessionOk(s, node)
  {
  }

  lemma LifeIsOk(s: Sys, boot: Id)
    requires Orderly(s)
    ensures LifeOk(s, boot)
    ensures boot in s.ended ==> boot in s.lives
  {
  }

  // -- nothing that is true of the past is undone -----------------------------------------------

  ghost predicate Grew(s: Sys, t: Sys) {
    && s.epoch <= t.epoch
    && s.made <= t.made
    && (forall b | b in s.lives :: b in t.lives && t.lives[b] == s.lives[b])
    && (forall c | c in s.links :: c in t.links && t.links[c] == s.links[c])
    && (forall b | b in s.ended :: b in t.ended && t.ended[b] == s.ended[b])
    && (forall b | b in t.ended && b !in s.ended :: t.ended[b] >= s.epoch)
  }

  lemma SentStaysOk(s: Sys, t: Sys, m: Sent)
    requires Grew(s, t) && SentOk(s, m)
    ensures SentOk(t, m)
  {
  }

  lemma AllSentStaysOk(s: Sys, t: Sys)
    requires Grew(s, t)
    requires forall m | m in s.sent :: SentOk(s, m)
    requires forall m | m in t.sent && m !in s.sent :: SentOk(t, m)
    ensures forall m | m in t.sent :: SentOk(t, m)
  {
    forall m | m in t.sent ensures SentOk(t, m) {
      if m in s.sent { SentStaysOk(s, t, m); }
    }
  }

  lemma HeldStaysOk(made: set<Event>, made': set<Event>, view: Agent.AgentView, view': Agent.AgentView, items: seq<Spool.Held<Event>>)
    requires made <= made' && view'.node == view.node && view'.boot == view.boot
    requires AllHeldOk(made, view, items)
    ensures AllHeldOk(made', view', items)
  {
    forall i | 0 <= i < |items| ensures HeldOk(made', view', items[i]) {
      assert HeldOk(made, view, items[i]);
    }
  }

  // -- the node's steps -------------------------------------------------------------------------

  /** A step that only moves one process: what it holds and what it may have sent. */
  lemma OrderlyAfterProcess(s: Sys, t: Sys, node: NodeId)
    requires Orderly(s) && node in s.processes && node in t.processes
    requires t == s.(processes := t.processes, sent := t.sent, made := t.made, links := t.links)
    requires Grew(s, t) && MadeOk(t)
    requires forall n | n in t.processes :: n in s.processes && (n != node ==> t.processes[n] == s.processes[n])
    requires forall n | n in s.processes :: n in t.processes
    requires t.processes[node].view.boot == s.processes[node].view.boot
    requires forall e | e in t.made && e !in s.made :: e.boot == s.processes[node].view.boot
    requires forall m | m in t.sent && m !in s.sent :: SentOk(t, m)
    requires forall c | c in t.links :: t.links[c] in t.lives
    requires ProcessOk(t, node)
    ensures Orderly(t)
  {
    AllSentStaysOk(s, t);
    assert ProcessOk(s, node);
    forall n ensures ProcessOk(t, n) {
      if n != node && n in t.processes {
        assert ProcessOk(s, n);
        var p := s.processes[n];
        HeldStaysOk(s.made, t.made, p.view, p.view, p.view.spool.items);
        HeldStaysOk(s.made, t.made, p.view, p.view, p.hand);
        assert p.view.boot != s.processes[node].view.boot;
      }
    }
    forall n ensures SessionOk(t, n) {
      assert SessionOk(s, n);
    }
    forall b ensures LifeOk(t, b) {
      assert LifeOk(s, b);
    }
  }

  lemma HeldAmong(made: set<Event>, view: Agent.AgentView, view': Agent.AgentView,
                  from: seq<Spool.Held<Event>>, items: seq<Spool.Held<Event>>, lo: nat, hi: nat)
    requires view'.node == view.node && view'.boot == view.boot
    requires AllHeldOk(made, view, from)
    requires lo <= hi <= |from| && items == from[lo..hi]
    ensures AllHeldOk(made, view', items)
  {
    forall i | 0 <= i < |items| ensures HeldOk(made, view', items[i]) {
      assert HeldOk(made, view, from[lo + i]);
    }
  }

  lemma ConnectKeepsProcess(s: Sys, node: NodeId, connection: Id, up: bool, now: real)
    requires node in s.processes && ProcessOk(s, node) && connection !in s.links && connection != ""
    ensures ProcessOk(Connected(s, node, connection, up, now), node)
  {
    hide HeldOk;
    var t := Connected(s, node, connection, up, now);
    var p, q := s.processes[node], t.processes[node];
    HeldStaysOk(s.made, t.made, p.view, q.view, p.view.spool.items);
    HeldStaysOk(s.made, t.made, p.view, q.view, p.hand);
  }

  lemma ConnectSaysWhoItIs(s: Sys, node: NodeId, connection: Id, up: bool, now: real)
    requires node in s.processes && ProcessOk(s, node) && connection !in s.links && connection != ""
    ensures var t := Connected(s, node, connection, up, now);
            Grew(s, t) && forall m | m in t.sent && m !in s.sent :: SentOk(t, m)
  {
    hide AllHeldOk, NumbersAhead;
  }

  lemma ConnectKeepsOrder(s: Sys, node: NodeId, connection: Id, up: bool, now: real)
    requires Orderly(s) && Enabled(s, Connect(node, connection, up, now))
    ensures Orderly(Connected(s, node, connection, up, now))
  {
    NodeIsOk(s, node);
    ConnectKeepsProcess(s, node, connection, up, now);
    ConnectSaysWhoItIs(s, node, connection, up, now);
    LinksLeadToLives(s, node);
    hide AllHeldOk, NumbersAhead, SentOk, SessionOk, LifeOk, Grew;
    OrderlyAfterProcess(s, Connected(s, node, connection, up, now), node);
  }

  lemma LinksLeadToLives(s: Sys, node: NodeId)
    requires Orderly(s)
    ensures forall c | c in s.links :: s.links[c] in s.lives
    ensures node in s.processes ==> s.processes[node].view.boot in s.lives
  {
    NodeIsOk(s, node);
  }

  lemma SayStateKeepsOrder(s: Sys, node: NodeId, online: bool, t: Sys)
    requires Orderly(s) && node in s.processes
    requires t == s.(sent := s.sent + {SentHello(node, HelloOf(s.processes[node], online))})
    ensures Orderly(t)
  {
    assert ProcessOk(s, node);
    OrderlyAfterProcess(s, t, node);
  }

  lemma NewEventIsNew(s: Sys, node: NodeId, sample: Agent.Sample, t: Sys)
    requires Orderly(s) && node in s.processes
    requires forall e | e in s.made :: e.eventId != sample.eventId
    requires t == s.(made := s.made + {Agent.EventOf(s.processes[node].view, sample)}, processes := t.processes)
    ensures MadeOk(t)
  {
    assert ProcessOk(s, node);
    var p := s.processes[node];
    var e := Agent.EventOf(p.view, sample);
    forall f | f in s.made && e.boot == f.boot && e.source == f.source ensures e.sequence != f.sequence {
      assert f.sequence < Numbering.Next(p.view.next, f.source);
    }
  }

  /** A reading that goes into the spool: what is held is still this boot's own. */
  lemma PutKeepsHeld(c: Config, made: set<Event>, view: Agent.AgentView, view': Agent.AgentView, held: Spool.Held<Event>, now: real)
    requires AllHeldOk(made, view, view.spool.items) && view.spool.bytes == Spool.Sizes(view.spool.items)
    requires HeldOk(made, view, held)
    requires view'.node == view.node && view'.boot == view.boot && view'.spool == Spool.Put(view.spool, c.spool, held, now)
    ensures AllHeldOk(made, view', view'.spool.items) && view'.spool.bytes == Spool.Sizes(view'.spool.items)
  {
    hide Spool.Put, Spool.Sizes, HeldOk;
    var lost := Spool.PutKeepsTheNewest(view.spool, c.spool, held, now);
    var all := view.spool.items + [held];
    HeldAmong(made, view, view', all, view'.spool.items, lost, |all|);
  }

  lemma ReadingKeepsProcess(c: Config, s: Sys, node: NodeId, sample: Agent.Sample, now: real)
    requires node in s.processes && ProcessOk(s, node)
    ensures ProcessOk(ReadingTaken(c, s, node, sample, now), node)
  {
    hide Spool.Put, Spool.Sizes;
    var t := ReadingTaken(c, s, node, sample, now);
    var p, q := s.processes[node], t.processes[node];
    HeldStaysOk(s.made, t.made, p.view, p.view, p.view.spool.items);
    HeldStaysOk(s.made, t.made, p.view, q.view, p.hand);
    if sample.fit.Sendable? {
      PutKeepsHeld(c, t.made, p.view, q.view, Spool.Held(Agent.EventOf(p.view, sample), sample.size, now, sample.initial), now);
    } else {
      HeldStaysOk(s.made, t.made, p.view, q.view, p.view.spool.items);
    }
  }

  lemma ReadingKeepsOrder(c: Config, s: Sys, node: NodeId, sample: Agent.Sample, now: real)
    requires Orderly(s) && Enabled(s, TakeReading(node, sample, now))
    ensures Orderly(ReadingTaken(c, s, node, sample, now))
  {
    hide Spool.Put, AllHeldOk, NumbersAhead;
    var t := ReadingTaken(c, s, node, sample, now);
    assert ProcessOk(s, node);
    ReadingKeepsProcess(c, s, node, sample, now);
    if sample.fit.Sendable? {
      NewEventIsNew(s, node, sample, t);
    }
    hide ProcessOk, MadeOk, SentOk, SessionOk, LifeOk;
    OrderlyAfterProcess(s, t, node);
  }

  lemma TakeKeepsHeld(c: Config, made: set<Event>, view: Agent.AgentView, granted: real, taken: real)
    requires AllHeldOk(made, view, view.spool.items) && view.spool.bytes == Spool.Sizes(view.spool.items)
    ensures var (view', hand) := Agent.TakeBatch(view, c.spool, granted, taken);
            && AllHeldOk(made, view', view'.spool.items) && AllHeldOk(made, view', hand)
            && view'.spool.bytes == Spool.Sizes(view'.spool.items)
  {
    hide Spool.Take, Spool.Sizes, HeldOk;
    if Agent.Granted(view, granted) {
      var lost := Spool.TakeHandsOutTheOldest(view.spool, c.spool, 8, taken);
      var (view', hand) := Agent.TakeBatch(view, c.spool, granted, taken);
      var from := view.spool.items;
      assert from[lost..] == hand + view'.spool.items;
      assert hand == from[lost..lost + |hand|];
      assert view'.spool.items == from[lost + |hand|..|from|];
      HeldAmong(made, view, view', from, hand, lost, lost + |hand|);
      HeldAmong(made, view, view', from, view'.spool.items, lost + |hand|, |from|);
    }
  }

  lemma BatchKeepsOrder(c: Config, s: Sys, node: NodeId, granted: real, taken: real)
    requires Orderly(s) && Enabled(s, TakeBatch(node, granted, taken))
    ensures Orderly(BatchTaken(c, s, node, granted, taken))
  {
    hide Spool.Take, AllHeldOk, SentOk, SessionOk, LifeOk;
    var t := BatchTaken(c, s, node, granted, taken);
    assert ProcessOk(s, node);
    TakeKeepsHeld(c, s.made, s.processes[node].view, granted, taken);
    assert ProcessOk(t, node);
    hide ProcessOk;
    OrderlyAfterProcess(s, t, node);
  }

  /** One send: what is still held is this boot's own, requeued or not. */
  lemma SendKeepsHeld(c: Config, made: set<Event>, p: Agent.Running, q: Agent.Running, attempt: Agent.Attempt)
    requires p.hand != [] && q == Agent.SentNext(p, c.spool, attempt).0
    requires AllHeldOk(made, p.view, p.view.spool.items) && AllHeldOk(made, p.view, p.hand)
    requires p.view.spool.bytes == Spool.Sizes(p.view.spool.items)
    ensures AllHeldOk(made, q.view, q.view.spool.items) && AllHeldOk(made, q.view, q.hand)
    ensures q.view.spool.bytes == Spool.Sizes(q.view.spool.items)
  {
    hide Spool.Requeue, Spool.Sizes, HeldOk, Agent.DeliveryFor;
    var held := p.hand[0];
    HeldAmong(made, p.view, q.view, p.hand, q.hand, 1, |p.hand|);
    var requeued := [held] + p.view.spool.items;
    assert AllHeldOk(made, p.view, requeued);
    Spool.RequeueKeepsTheOldest(p.view.spool, c.spool, held);
    if q.view.spool == p.view.spool {
      HeldAmong(made, p.view, q.view, p.view.spool.items, q.view.spool.items, 0, |q.view.spool.items|);
    } else {
      HeldAmong(made, p.view, q.view, requeued, q.view.spool.items, 0, |q.view.spool.items|);
    }
  }

  lemma SendIsOk(c: Config, s: Sys, node: NodeId, attempt: Agent.Attempt)
    requires node in s.processes && s.processes[node].hand != [] && ProcessOk(s, node)
    ensures var t := OneSent(c, s, node, attempt);
            && ProcessOk(t, node) && Grew(s, t)
            && forall m | m in t.sent && m !in s.sent :: SentOk(t, m)
  {
    hide Spool.Requeue, Spool.Sizes;
    var t := OneSent(c, s, node, attempt);
    SendKeepsHeld(c, s.made, s.processes[node], t.processes[node], attempt);
    assert HeldOk(s.made, s.processes[node].view, s.processes[node].hand[0]);
    hide AllHeldOk;
  }

  lemma SendKeepsOrder(c: Config, s: Sys, node: NodeId, attempt: Agent.Attempt)
    requires Orderly(s) && Enabled(s, SendOne(node, attempt))
    ensures Orderly(OneSent(c, s, node, attempt))
  {
    var t := OneSent(c, s, node, attempt);
    NodeIsOk(s, node);
    SendIsOk(c, s, node, attempt);
    hide Spool.Requeue, AllHeldOk, NumbersAhead, SentOk, SessionOk, LifeOk, Grew;
    OrderlyAfterProcess(s, t, node);
  }

  lemma NothingRecorded(c: Config, view: Agent.AgentView, command: Agent.Command, now: real)
    ensures var after := Agent.OnCommand(view, c.spool, command, now, []).0;
            && after == view.(grant := after.grant, seen := after.seen, configuring := after.configuring)
            && (after.grant != view.grant && after.grant.Some? ==> after.grant.value.hubEpoch == command.hubEpoch)
  {
    hide Seen.Remember, Seen.MovedToEnd;
    assert Agent.RecordAll(view, c.spool, []) == view;
  }

  lemma MemoryKeepsOrder(s: Sys, node: NodeId, view: Agent.AgentView)
    requires Orderly(s) && node in s.processes
    requires view == s.processes[node].view.(seen := view.seen, configuring := view.configuring)
    ensures Orderly(Viewed(s, node, view))
  {
    hide SessionOk, LifeOk, AllHeldOk;
    var t := Viewed(s, node, view);
    var p := s.processes[node];
    assert ProcessOk(s, node);
    HeldStaysOk(s.made, t.made, p.view, view, view.spool.items);
    HeldStaysOk(s.made, t.made, p.view, view, p.hand);
    hide SentOk;
    OrderlyAfterProcess(s, t, node);
  }

  lemma CommandKeepsOrder(c: Config, s: Sys, node: NodeId, command: Agent.Command, now: real)
    requires Orderly(s) && Enabled(s, HearCommand(node, command, now))
    ensures Orderly(CommandHeard(c, s, node, command, now))
  {
    hide SessionOk, LifeOk, AllHeldOk, Seen.Remember, Seen.MovedToEnd;
    var t := CommandHeard(c, s, node, command, now);
    var p, q := s.processes[node], t.processes[node];
    assert ProcessOk(s, node);
    SentIsOk(s, SentCommand(node, command));
    NothingRecorded(c, p.view, command, now);
    HeldStaysOk(s.made, t.made, p.view, q.view, p.view.spool.items);
    HeldStaysOk(s.made, t.made, p.view, q.view, p.hand);
    hide SentOk;
    OrderlyAfterProcess(s, t, node);
  }

  lemma BootKeepsProcesses(s: Sys, node: NodeId, boot: Id, connection: Id, n: NodeId)
    requires Orderly(s) && Enabled(s, Boot(node, boot, connection))
    ensures ProcessOk(Booted(s, node, boot, connection), n)
  {
    var t := Booted(s, node, boot, connection);
    assert ProcessOk(s, n) && ProcessOk(s, node);
    if n == node {
      assert forall e | e in t.made :: e.boot != boot;
      assert LifeOf(t, boot, node);
    } else if n in t.processes {
      assert t.processes[n] == s.processes[n];
      assert node in s.processes ==> s.processes[node].view.boot != s.processes[n].view.boot;
    }
  }

  lemma BootKeepsLives(s: Sys, node: NodeId, boot: Id, connection: Id, b: Id)
    requires Orderly(s) && Enabled(s, Boot(node, boot, connection))
    ensures LifeOk(Booted(s, node, boot, connection), b)
  {
    var t := Booted(s, node, boot, connection);
    assert ProcessOk(s, node) && LifeOk(s, b);
    assert |t.lives| == |s.lives| + 1;
  }

  lemma BootGrows(s: Sys, node: NodeId, boot: Id, connection: Id)
    requires Orderly(s) && Enabled(s, Boot(node, boot, connection))
    ensures Grew(s, Booted(s, node, boot, connection))
  {
    assert ProcessOk(s, node);
  }

  lemma BootKeepsTheRest(s: Sys, node: NodeId, boot: Id, connection: Id)
    requires Orderly(s) && Enabled(s, Boot(node, boot, connection))
    ensures var t := Booted(s, node, boot, connection);
            && (forall a, b | a in t.lives && b in t.lives && a != b :: t.lives[a].order != t.lives[b].order)
            && (forall b | b in t.ended :: b in t.lives)
            && (forall c | c in t.links :: t.links[c] in t.lives)
            && MadeOk(t)
  {
    hide SentOk, AllHeldOk, NumbersAhead;
    var t := Booted(s, node, boot, connection);
    NodeIsOk(s, node);
    forall b | b in s.lives ensures s.lives[b].order < |s.lives| {
      LifeIsOk(s, b);
    }
    hide SessionOk, LifeOk;
  }

  lemma BootKeepsSessions(s: Sys, node: NodeId, boot: Id, connection: Id, n: NodeId)
    requires Orderly(s) && Enabled(s, Boot(node, boot, connection))
    ensures SessionOk(Booted(s, node, boot, connection), n)
  {
    NodeIsOk(s, n);
  }

  lemma BootKeepsOrder(s: Sys, node: NodeId, boot: Id, connection: Id)
    requires Orderly(s) && Enabled(s, Boot(node, boot, connection))
    ensures Orderly(Booted(s, node, boot, connection))
  {
    hide ProcessOk, SentOk, LifeOk, SessionOk, MadeOk;
    var t := Booted(s, node, boot, connection);
    BootGrows(s, node, boot, connection);
    AllSentStaysOk(s, t);
    forall n ensures ProcessOk(t, n) {
      BootKeepsProcesses(s, node, boot, connection, n);
    }
    forall b ensures LifeOk(t, b) {
      BootKeepsLives(s, node, boot, connection, b);
    }
    forall n ensures SessionOk(t, n) {
      BootKeepsSessions(s, node, boot, connection, n);
    }
    BootKeepsTheRest(s, node, boot, connection);
  }

  // -- the hub's steps ----------------------------------------------------------------------------

  /** A step of the hub alone: it may open or change sessions, send commands, and write. */
  lemma OrderlyAfterHub(s: Sys, t: Sys)
    requires Orderly(s)
    requires t == s.(epoch := t.epoch, sessions := t.sessions, sent := t.sent, journal := t.journal,
                     queue := t.queue, admitted := t.admitted)
    requires s.epoch <= t.epoch
    requires forall m | m in t.sent && m !in s.sent :: SentOk(t, m)
    requires forall n :: SessionOk(t, n)
    ensures Orderly(t) && Grew(s, t)
  {
    AllSentStaysOk(s, t);
    forall n ensures ProcessOk(t, n) {
      assert ProcessOk(s, n);
    }
    forall b ensures LifeOk(t, b) {
      assert LifeOk(s, b);
    }
  }

  lemma HelloKeepsOrder(c: Config, s: Sys, node: NodeId, hello: Sessions.Hello, how: Hearing)
    requires Orderly(s) && Enabled(s, HearHello(node, hello, how))
    ensures Orderly(HelloHeard(c, s, node, hello, how))
  {
    hide Orderly, ProcessOk, LifeOk, MadeOk;
    var t := HelloHeard(c, s, node, hello, how);
    SentIsOk(s, SentHello(node, hello));
    forall n ensures SessionOk(t, n) {
      NodeIsOk(s, n);
    }
    OrderlyAfterHub(s, t);
  }

  lemma EventKeepsOrder(c: Config, s: Sys, t: Sys)
    requires Orderly(s)
    requires t == s.(journal := t.journal, queue := t.queue, admitted := t.admitted)
    ensures Orderly(t)
  {
    forall n ensures SessionOk(t, n) {
      assert SessionOk(s, n);
    }
    OrderlyAfterHub(s, t);
  }

  lemma RenewalKeepsOrder(c: Config, s: Sys, commandIds: map<Sessions.Held, Id>, now: real)
    requires Orderly(s)
    ensures Orderly(Renewed(c, s, commandIds, now))
  {
    var t := Renewed(c, s, commandIds, now);
    forall n ensures SessionOk(t, n) {
      assert SessionOk(s, n);
    }
    forall m | m in t.sent && m !in s.sent ensures SentOk(t, m) {
      var h: Sessions.Held :| Sessions.Holds(t.sessions, h) && h in commandIds
        && m == SentCommand(h.0, AsCommand(Sessions.GrantOf(t.sessions, h), Agent.DoRenew, commandIds[h]));
      assert SessionOk(t, h.0);
    }
    OrderlyAfterHub(s, t);
  }

  lemma CloseKeepsOrder(s: Sys, node: NodeId, commandId: Id, t: Sys)
    requires Orderly(s)
    requires t == s.(sessions := Sessions.Closed(s.sessions, node, None), sent := s.sent + {SentCommand(node, RevokeCommand(commandId))})
    ensures Orderly(t)
  {
    forall n ensures SessionOk(t, n) {
      assert SessionOk(s, n);
    }
    OrderlyAfterHub(s, t);
  }

  lemma StartIsOrderly()
    ensures Orderly(Start())
  {
  }

  predicate OfTheNode(step: Step) {
    step.Connect? || step.SayState? || step.TakeReading? || step.TakeBatch? || step.SendOne? || step.HearCommand?
    || step.LetTheNextIn? || step.FinishConfigure?
  }

  lemma StepKeepsOrder(c: Config, s: Sys, step: Step)
    requires Orderly(s) && Enabled(s, step)
    ensures Orderly(Apply(c, s, step))
  {
    hide Orderly, Apply, Enabled;
    if OfTheNode(step) {
      NodeStepKeepsOrder(c, s, step);
    } else {
      HubStepKeepsOrder(c, s, step);
    }
  }

  lemma NodeStepKeepsOrder(c: Config, s: Sys, step: Step)
    requires Orderly(s) && Enabled(s, step) && OfTheNode(step)
    ensures Orderly(Apply(c, s, step))
  {
    hide Orderly, Connected, ReadingTaken, BatchTaken, OneSent, CommandHeard;
    var t := Apply(c, s, step);
    match step
    case Connect(node, connection, up, now) => ConnectKeepsOrder(s, node, connection, up, now);
    case SayState(node, online) => SayStateKeepsOrder(s, node, online, t);
    case TakeReading(node, sample, now) => ReadingKeepsOrder(c, s, node, sample, now);
    case TakeBatch(node, granted, taken) => BatchKeepsOrder(c, s, node, granted, taken);
    case SendOne(node, attempt) => SendKeepsOrder(c, s, node, attempt);
    case HearCommand(node, command, now) => CommandKeepsOrder(c, s, node, command, now);
    case LetTheNextIn(node) => MemoryKeepsOrder(s, node, s.processes[node].view.(configuring := false));
    case FinishConfigure(node, commandId, outcome) =>
      MemoryKeepsOrder(s, node, Agent.Remembering(s.processes[node].view, commandId, outcome));
  }

  lemma HubStepKeepsOrder(c: Config, s: Sys, step: Step)
    requires Orderly(s) && Enabled(s, step) && !OfTheNode(step)
    ensures Orderly(Apply(c, s, step))
  {
    hide Orderly, Booted, HelloHeard, Renewed;
    var t := Apply(c, s, step);
    match step
    case Boot(node, boot, connection) => BootKeepsOrder(s, node, boot, connection);
    case HearHello(node, hello, how) => HelloKeepsOrder(c, s, node, hello, how);
    case HearEvent(_, _, _, _, _, _, _, _) => EventKeepsOrder(c, s, t);
    case RenewGrants(commandIds, now) => RenewalKeepsOrder(c, s, commandIds, now);
    case CloseSession(node, commandId) => CloseKeepsOrder(s, node, commandId, t);
    case Ask(node, command) => AskKeepsOrder(s, node, command, t);
    case RestartHub => RestartKeepsOrder(s, t);
    case ForgetReceipts(_, _) => EventKeepsOrder(c, s, t);
  }

  lemma AskKeepsOrder(s: Sys, node: NodeId, command: Agent.Command, t: Sys)
    requires Orderly(s) && command.hubEpoch <= s.epoch
    requires t == s.(sent := s.sent + {SentCommand(node, command)})
    ensures Orderly(t)
  {
    forall n ensures SessionOk(t, n) {
      assert SessionOk(s, n);
    }
    OrderlyAfterHub(s, t);
  }

  lemma RestartKeepsOrder(s: Sys, t: Sys)
    requires Orderly(s) && t == s.(sessions := map[])
    ensures Orderly(t)
  {
    OrderlyAfterHub(s, t);
  }

  // -- what has been let in, and what may still be --------------------------------------------------

  /** If a later boot of the node has been let in, then for every earlier boot either the session is
      on a connection at least as late as that, or it was stamped after the earlier boot ended. */
  ghost predicate GuardedAt(s: Sys, node: NodeId) {
    node in s.sessions && s.sessions[node].connection in s.links ==>
      forall later, b | (node, later) in s.admitted && LifeOf(s, b, node) && Order(s, b) < Order(s, later) ::
        || Order(s, s.links[s.sessions[node].connection]) >= Order(s, later)
        || (b in s.ended && s.ended[b] < s.sessions[node].hubEpoch)
  }

  ghost predicate AdmittedOk(s: Sys) {
    && (forall i | 0 <= i < |s.admitted| :: LifeOf(s, s.admitted[i].1, s.admitted[i].0))
    && (forall i, j | 0 <= i < j < |s.admitted| && s.admitted[i].0 == s.admitted[j].0 ::
          Order(s, s.admitted[i].1) <= Order(s, s.admitted[j].1))
  }

  ghost predicate MarksOk(s: Sys) {
    forall key | key in s.journal.marks :: (key.0, s.journal.marks[key].boot) in s.admitted
  }

  /** An event that was handed on is not past the mark of its source. */
  ghost predicate BehindTheMark(s: Sys, e: Event) {
    var key := (e.node, e.source);
    && key in s.journal.marks
    && (e.node, e.boot) in s.admitted
    && Order(s, e.boot) <= Order(s, s.journal.marks[key].boot)
    && (s.journal.marks[key].boot == e.boot ==> e.sequence <= s.journal.marks[key].highWater)
  }

  /** One reading of a source strictly precedes another: in an earlier boot, or earlier in the same. */
  ghost predicate Precedes(s: Sys, e: Event, f: Event) {
    Order(s, e.boot) < Order(s, f.boot) || (e.boot == f.boot && e.sequence < f.sequence)
  }

  ghost predicate QueueRises(s: Sys) {
    forall i, j | 0 <= i < j < |s.queue| && s.queue[i].event.node == s.queue[j].event.node
                  && s.queue[i].event.source == s.queue[j].event.source ::
      Precedes(s, s.queue[i].event, s.queue[j].event)
  }

  ghost predicate QueueOk(s: Sys) {
    && (forall i | 0 <= i < |s.queue| :: BehindTheMark(s, s.queue[i].event))
    && QueueRises(s)
  }

  ghost predicate ReceiptOk(s: Sys, key: (NodeId, Id)) {
    key in s.journal.receipts ==>
      exists e | e in s.made :: e.node == key.0 && e.eventId == key.1 && s.journal.receipts[key].contents == Fingerprint(e)
  }

  ghost predicate History(s: Sys) {
    && (forall node :: GuardedAt(s, node))
    && AdmittedOk(s) && MarksOk(s) && QueueOk(s)
    && (forall key :: ReceiptOk(s, key))
  }

  lemma OrderStays(s: Sys, t: Sys)
    requires Grew(s, t)
    ensures forall b | b in s.lives :: Order(t, b) == Order(s, b)
    ensures forall b, n | LifeOf(s, b, n) :: LifeOf(t, b, n)
  {
  }

  /** A step that admits nothing keeps the history, as long as every session stays guarded. */
  lemma HistoryStays(s: Sys, t: Sys)
    requires Orderly(s) && History(s) && Grew(s, t)
    requires t.queue == s.queue && t.admitted == s.admitted
    requires t.journal == s.journal.(receipts := t.journal.receipts)
    requires forall key | key in t.journal.receipts :: key in s.journal.receipts && t.journal.receipts[key] == s.journal.receipts[key]
    requires forall node :: GuardedAt(t, node)
    ensures History(t)
  {
    hide Orderly, GuardedAt;
    OrderStays(s, t);
    forall key ensures ReceiptOk(t, key) {
      assert ReceiptOk(s, key);
    }
    assert forall i | 0 <= i < |s.queue| :: BehindTheMark(s, s.queue[i].event);
    forall i | 0 <= i < |t.queue| ensures BehindTheMark(t, t.queue[i].event) {
      AdmittedIsLife(s, (t.queue[i].event.node, t.queue[i].event.boot));
      var key := (t.queue[i].event.node, t.queue[i].event.source);
      AdmittedIsLife(s, (key.0, s.journal.marks[key].boot));
    }
  }

  lemma AdmittedIsLife(s: Sys, who: (NodeId, Id))
    requires AdmittedOk(s) && who in s.admitted
    ensures LifeOf(s, who.1, who.0)
  {
  }

  /** A session that is unchanged, apart from its grants or its being closed, stays guarded while no
      boot ends. */
  lemma GuardStays(s: Sys, t: Sys, node: NodeId)
    requires GuardedAt(s, node) && AdmittedOk(s) && Orderly(s)
    requires t.admitted == s.admitted && t.lives == s.lives && t.ended == s.ended
    requires forall c | c in s.links :: c in t.links && t.links[c] == s.links[c]
    requires node in t.sessions ==> node in s.sessions && t.sessions[node].connection == s.sessions[node].connection
                                    && t.sessions[node].hubEpoch == s.sessions[node].hubEpoch
    ensures GuardedAt(t, node)
  {
    NodeIsOk(s, node);
    hide Orderly, ProcessOk, AdmittedOk;
  }

  /** A new boot: whoever ends was the latest, so nothing later had been let in. */
  lemma GuardSurvivesABoot(s: Sys, node: NodeId, boot: Id, connection: Id, n: NodeId)
    requires Orderly(s) && History(s) && Enabled(s, Boot(node, boot, connection))
    ensures GuardedAt(Booted(s, node, boot, connection), n)
  {
    hide Orderly, AllHeldOk, NumbersAhead, MarksOk, QueueOk, ReceiptOk, AdmittedOk;
    var t := Booted(s, node, boot, connection);
    NodeIsOk(s, n);
    NodeIsOk(s, node);
    assert GuardedAt(s, n);
    if n in t.sessions && t.sessions[n].connection in t.links {
      forall later, b | (n, later) in t.admitted && LifeOf(t, b, n) && Order(t, b) < Order(t, later)
        ensures Order(t, t.links[t.sessions[n].connection]) >= Order(t, later) || (b in t.ended && t.ended[b] < t.sessions[n].hubEpoch)
      {
        AdmittedIsLife(s, (n, later));
        LifeIsOk(s, later);
        LifeIsOk(s, b);
        assert b in s.lives;
        assert node in s.processes && b == s.processes[node].view.boot ==> false;
      }
    }
  }

  /** A new session is stamped after every boot that has ended. */
  lemma NewSessionIsGuarded(c: Config, s: Sys, node: NodeId, hello: Sessions.Hello, how: Hearing, n: NodeId)
    requires Orderly(s) && History(s) && Enabled(s, HearHello(node, hello, how))
    ensures GuardedAt(HelloHeard(c, s, node, hello, how), n)
  {
    hide Orderly, ProcessOk, MarksOk, QueueOk, ReceiptOk, AdmittedOk;
    var t := HelloHeard(c, s, node, hello, how);
    SentIsOk(s, SentHello(node, hello));
    NodeIsOk(s, n);
    assert GuardedAt(s, n);
    if n == node && Sessions.OpensASession(s.sessions, node, hello) {
      forall later, b | (n, later) in t.admitted && LifeOf(t, b, n) && Order(t, b) < Order(t, later)
        ensures b in t.ended && t.ended[b] < t.sessions[n].hubEpoch
      {
        AdmittedIsLife(s, (n, later));
        LifeIsOk(s, later);
        LifeIsOk(s, b);
      }
    } else {
      GuardStays(s, t, n);
    }
  }

  // -- the door -------------------------------------------------------------------------------------

  /** What comes through the door is of the latest boot let in so far, or of a later one. */
  lemma OnlyTheLatestBootComesIn(s: Sys, node: NodeId, envelope: Envelope, monotonic: real, earlier: Id)
    requires Orderly(s) && History(s)
    requires SentEvent(node, envelope) in s.sent && AtTheDoor(s, node, envelope, monotonic)
    requires (node, earlier) in s.admitted
    ensures Order(s, earlier) <= Order(s, envelope.event.boot)
  {
    assert SentOk(s, SentEvent(node, envelope));
    assert GuardedAt(s, node);
    AdmittedIsLife(s, (node, earlier));
  }

  /** The journal's step in the hub's, with the marks it starts from. */
  lemma AcceptMovesOneMark(j: JournalView, sources: Ingress.Sources, limits: Ingress.Limits, node: NodeId, envelope: Envelope,
                           retained: bool, now: real, disk: Ingress.Disk)
    ensures var (after, receipt) := Ingress.Accept(j, sources, limits, node, Ingress.Matched(envelope), retained, now, disk);
            var e := envelope.event;
            var key := (e.node, e.source);
            var mark := Ingress.Position(MarkOf(j, e.node, e.source), e.boot);
            && (receipt.Some? && receipt.value.event.Some? ==>
                  && e.node == node && key in after.marks
                  && receipt.value.event.value.event == e && e.sequence > mark.highWater)
            && (after == j || (e.node == node && key in after.marks
                               && after.marks == j.marks[key := after.marks[key]]
                               && after.marks[key].boot == e.boot && after.marks[key].highWater >= mark.highWater
                               && (receipt.Some? && receipt.value.event.Some? ==> after.marks[key].highWater >= e.sequence)
                               && after.receipts == j.receipts[(e.node, e.eventId) := Seal(Fingerprint(e), now)]))
            && (after == j ==> !(receipt.Some? && receipt.value.event.Some?))
  {
    hide NumberTaken;
    var e := envelope.event;
    var outcome := OutcomeOf(j, e);
    if outcome == Stored {
      assert (e.node, e.eventId) !in j.receipts;
    }
  }

  /** Everything that is known once an event has come through the door. */
  lemma ThroughTheDoor(c: Config, s: Sys, step: Step, t: Sys)
    requires Orderly(s) && step.HearEvent? && Enabled(s, step) && t == Apply(c, s, step)
    requires AtTheDoor(s, step.node, step.envelope, step.monotonic)
    ensures var e := step.envelope.event;
            var key := (e.node, e.source);
            var mark := Ingress.Position(MarkOf(s.journal, e.node, e.source), e.boot);
            && e in s.made && e.node == step.node && LifeOf(s, e.boot, e.node)
            && t == s.(journal := t.journal, admitted := s.admitted + [(e.node, e.boot)], queue := t.queue)
            && (t.journal == s.journal ||
                (&& key in t.journal.marks && t.journal.marks == s.journal.marks[key := t.journal.marks[key]]
                 && t.journal.marks[key].boot == e.boot && t.journal.marks[key].highWater >= mark.highWater
                 && t.journal.receipts == s.journal.receipts[(e.node, e.eventId) := Seal(Fingerprint(e), step.now)]))
            && (t.queue == s.queue ||
                (&& t.journal != s.journal && |t.queue| == |s.queue| + 1 && t.queue == s.queue + [t.queue[|s.queue|]]
                 && t.queue[|s.queue|].event == e && e.sequence > mark.highWater
                 && t.journal.marks[key].highWater >= e.sequence))
  {
    hide Ingress.Accept, Orderly, AtTheDoor;
    SentIsOk(s, SentEvent(step.node, step.envelope));
    AcceptMovesOneMark(s.journal, step.sources, c.ingress, step.node, step.envelope, step.retained, step.now, step.disk);
  }

  lemma DoorKeepsAdmitted(c: Config, s: Sys, step: Step, t: Sys)
    requires Orderly(s) && History(s) && step.HearEvent? && Enabled(s, step) && t == Apply(c, s, step)
    ensures AdmittedOk(t)
    ensures forall node :: GuardedAt(t, node)
  {
    hide Orderly, MarksOk, QueueOk, ReceiptOk, Order, AdmittedOk;
    var node, envelope := step.node, step.envelope;
    if AtTheDoor(s, node, envelope, step.monotonic) {
      ThroughTheDoor(c, s, step, t);
      hide Apply, Enabled;
      forall i | 0 <= i < |s.admitted| && s.admitted[i].0 == node
        ensures Order(s, s.admitted[i].1) <= Order(s, envelope.event.boot)
      {
        assert (node, s.admitted[i].1) in s.admitted;
        OnlyTheLatestBootComesIn(s, node, envelope, step.monotonic, s.admitted[i].1);
      }
      AdmitOneMore(s, t, (node, envelope.event.boot));
      forall n ensures GuardedAt(t, n) {
        assert GuardedAt(s, n);
        GuardedAfterTheDoor(s, t, n, (node, envelope.event.boot), envelope, step.monotonic);
      }
    } else {
      assert t == s;
    }
  }

  /** The boot let in is the one the session is on, so the session stays guarded. */
  lemma GuardedAfterTheDoor(s: Sys, t: Sys, n: NodeId, who: (NodeId, Id), envelope: Envelope, monotonic: real)
    requires Orderly(s) && GuardedAt(s, n) && t == s.(journal := t.journal, admitted := s.admitted + [who], queue := t.queue)
    requires SentEvent(who.0, envelope) in s.sent && who.1 == envelope.event.boot && AtTheDoor(s, who.0, envelope, monotonic)
    ensures GuardedAt(t, n)
  {
    SentIsOk(s, SentEvent(who.0, envelope));
    hide Orderly;
    assert forall b | b in s.lives :: Order(t, b) == Order(s, b);
  }

  lemma AdmitOneMore(s: Sys, t: Sys, who: (NodeId, Id))
    requires AdmittedOk(s) && t.admitted == s.admitted + [who] && t.lives == s.lives
    requires LifeOf(s, who.1, who.0)
    requires forall i | 0 <= i < |s.admitted| && s.admitted[i].0 == who.0 :: Order(s, s.admitted[i].1) <= Order(s, who.1)
    ensures AdmittedOk(t)
  {
    forall i | 0 <= i < |t.admitted| ensures LifeOf(t, t.admitted[i].1, t.admitted[i].0) {
      if i < |s.admitted| { assert t.admitted[i] == s.admitted[i]; }
    }
  }

  lemma DoorKeepsMarks(c: Config, s: Sys, step: Step, t: Sys)
    requires Orderly(s) && MarksOk(s) && step.HearEvent? && Enabled(s, step) && t == Apply(c, s, step)
    requires AtTheDoor(s, step.node, step.envelope, step.monotonic)
    ensures MarksOk(t)
  {
    ThroughTheDoor(c, s, step, t);
    hide Orderly, Apply, Enabled, AtTheDoor;
    var e := step.envelope.event;
    assert (e.node, e.boot) in t.admitted;
    forall k | k in t.journal.marks ensures (k.0, t.journal.marks[k].boot) in t.admitted {
      if t.journal == s.journal || k != (e.node, e.source) { assert (k.0, s.journal.marks[k].boot) in s.admitted; }
    }
  }

  lemma DoorKeepsReceipts(c: Config, s: Sys, step: Step, t: Sys)
    requires Orderly(s) && step.HearEvent? && Enabled(s, step) && t == Apply(c, s, step)
    requires AtTheDoor(s, step.node, step.envelope, step.monotonic)
    requires forall key :: ReceiptOk(s, key)
    ensures forall key :: ReceiptOk(t, key)
  {
    ThroughTheDoor(c, s, step, t);
    hide Orderly, Apply, Enabled, AtTheDoor;
    forall k ensures ReceiptOk(t, k) {
      assert ReceiptOk(s, k);
    }
  }

  lemma DoorKeepsQueue(c: Config, s: Sys, step: Step, t: Sys)
    requires Orderly(s) && History(s) && step.HearEvent? && Enabled(s, step) && t == Apply(c, s, step)
    requires AtTheDoor(s, step.node, step.envelope, step.monotonic)
    ensures QueueOk(t)
  {
    ThroughTheDoor(c, s, step, t);
    hide Orderly, GuardedAt, AtTheDoor, ReceiptOk, Apply, Enabled, Precedes, AdmittedOk;
    var e := step.envelope.event;
    var key := (e.node, e.source);
    assert (e.node, e.boot) in t.admitted;
    if key in s.journal.marks && t.journal != s.journal {
      assert (e.node, s.journal.marks[key].boot) in s.admitted;
      OnlyTheLatestBootComesIn(s, step.node, step.envelope, step.monotonic, s.journal.marks[key].boot);
    }
    forall i | 0 <= i < |s.queue| ensures BehindTheMark(t, s.queue[i].event) {
      MarkMovesAhead(s, t, s.queue[i].event, e);
    }
    if t.queue != s.queue {
      forall i | 0 <= i < |s.queue| && s.queue[i].event.node == e.node && s.queue[i].event.source == e.source
        ensures Precedes(t, s.queue[i].event, e)
      {
        NewOneIsAhead(s, s.queue[i].event, e);
        PrecedesStays(s, t, s.queue[i].event, e);
      }
      assert BehindTheMark(t, e);
      hide BehindTheMark;
      QueueGrows(s, t, t.queue[|s.queue|]);
    } else {
      hide BehindTheMark;
      QueueStays(s, t);
    }
  }

  lemma PrecedesStays(s: Sys, t: Sys, e: Event, f: Event)
    requires Precedes(s, e, f) && t.lives == s.lives
    ensures Precedes(t, e, f)
  {
  }

  lemma QueueStays(s: Sys, t: Sys)
    requires QueueOk(s) && t.queue == s.queue && t.lives == s.lives
    requires forall i | 0 <= i < |t.queue| :: BehindTheMark(t, t.queue[i].event)
    ensures QueueOk(t)
  {
    hide BehindTheMark;
    forall i, j | 0 <= i < j < |t.queue| && t.queue[i].event.node == t.queue[j].event.node
                  && t.queue[i].event.source == t.queue[j].event.source
      ensures Precedes(t, t.queue[i].event, t.queue[j].event)
    {
      PrecedesStays(s, t, s.queue[i].event, s.queue[j].event);
    }
  }

  /** An event already handed on stays behind its source's mark when the mark moves. */
  lemma MarkMovesAhead(s: Sys, t: Sys, q: Event, e: Event)
    requires BehindTheMark(s, q) && AdmittedOk(s) && Orderly(s) && e.boot in s.lives
    requires t.lives == s.lives && (forall who | who in s.admitted :: who in t.admitted)
    requires var key := (e.node, e.source);
             t.journal == s.journal ||
             (&& key in t.journal.marks && t.journal.marks == s.journal.marks[key := t.journal.marks[key]]
              && t.journal.marks[key].boot == e.boot
              && t.journal.marks[key].highWater >= Ingress.Position(MarkOf(s.journal, e.node, e.source), e.boot).highWater
              && (key in s.journal.marks ==> Order(s, s.journal.marks[key].boot) <= Order(s, e.boot)))
    ensures BehindTheMark(t, q)
  {
    var key := (e.node, e.source);
    if t.journal != s.journal && (q.node, q.source) == key {
      AdmittedIsLife(s, (q.node, q.boot));
      if e.boot == q.boot {
        assert Order(s, s.journal.marks[key].boot) == Order(s, e.boot);
        AdmittedIsLife(s, (q.node, q.boot));
      }
    }
  }

  /** A live event is ahead of everything of its source that was handed on before it. */
  lemma NewOneIsAhead(s: Sys, q: Event, e: Event)
    requires Orderly(s) && BehindTheMark(s, q) && AdmittedOk(s) && MarksOk(s)
    requires q.node == e.node && q.source == e.source && e.boot in s.lives
    requires Order(s, s.journal.marks[(e.node, e.source)].boot) <= Order(s, e.boot)
    requires e.sequence > Ingress.Position(MarkOf(s.journal, e.node, e.source), e.boot).highWater
    ensures Precedes(s, q, e)
  {
    var mark := s.journal.marks[(e.node, e.source)];
    AdmittedIsLife(s, (q.node, q.boot));
    AdmittedIsLife(s, (e.node, mark.boot));
    if Order(s, q.boot) == Order(s, e.boot) {
      assert q.boot == e.boot && mark.boot == e.boot;
    }
  }

  lemma QueueGrows(s: Sys, t: Sys, entry: Entry)
    requires QueueOk(s) && t.queue == s.queue + [entry] && t.lives == s.lives
    requires forall i | 0 <= i < |s.queue| :: BehindTheMark(t, s.queue[i].event)
    requires BehindTheMark(t, entry.event)
    requires forall i | 0 <= i < |s.queue| && s.queue[i].event.node == entry.event.node
                        && s.queue[i].event.source == entry.event.source :: Precedes(t, s.queue[i].event, entry.event)
    ensures QueueOk(t)
  {
    forall i, j | 0 <= i < j < |t.queue| && t.queue[i].event.node == t.queue[j].event.node
                  && t.queue[i].event.source == t.queue[j].event.source
      ensures Precedes(t, t.queue[i].event, t.queue[j].event)
    {
      assert t.queue[i] == s.queue[i];
      if j < |s.queue| {
        assert t.queue[j] == s.queue[j];
        assert Precedes(s, s.queue[i].event, s.queue[j].event);
      }
    }
  }

  // -- every step, every run --------------------------------------------------------------------------

  lemma NodeStepGrows(c: Config, s: Sys, step: Step)
    requires Enabled(s, step) && OfTheNode(step)
    ensures Grew(s, Apply(c, s, step))
  {
    hide Agent.Record, Agent.OnCommand, Agent.Send, Agent.TakeBatch;
  }

  lemma HubStepGrows(c: Config, s: Sys, step: Step)
    requires Enabled(s, step) && !OfTheNode(step) && !step.Boot?
    ensures Grew(s, Apply(c, s, step))
  {
    hide Ingress.Accept, Sessions.Greeted, Sessions.AfterHello, Sessions.AfterRound, Sessions.Opened, RenewalsSent, AtTheDoor, Grew, Booted;
    OnlyTheHubMoved(s, Apply(c, s, step));
  }

  lemma OnlyTheHubMoved(s: Sys, t: Sys)
    requires t == s.(epoch := t.epoch, sessions := t.sessions, journal := t.journal, sent := t.sent, queue := t.queue,
                     admitted := t.admitted)
    requires s.epoch <= t.epoch
    ensures Grew(s, t)
  {
  }

  lemma StepGrows(c: Config, s: Sys, step: Step)
    requires Orderly(s) && Enabled(s, step)
    ensures Grew(s, Apply(c, s, step))
  {
    hide Orderly, Grew, Enabled, Booted;
    if step.Boot? {
      BootGrows(s, step.node, step.boot, step.connection);
    } else if OfTheNode(step) {
      NodeStepGrows(c, s, step);
    } else {
      HubStepGrows(c, s, step);
    }
  }

  lemma NodeStepKeepsHistory(c: Config, s: Sys, step: Step)
    requires Orderly(s) && History(s) && Enabled(s, step)
    requires OfTheNode(step)
    ensures History(Apply(c, s, step))
  {
    var t := Apply(c, s, step);
    StepGrows(c, s, step);
    hide Agent.Record, Agent.OnCommand, Agent.Send, Agent.TakeBatch, GuardedAt, MarksOk, QueueOk, ReceiptOk, Orderly;
    forall node ensures GuardedAt(t, node) {
      assert GuardedAt(s, node);
      GuardStays(s, t, node);
    }
    HistoryStays(s, t);
  }

  lemma HubStepKeepsHistory(c: Config, s: Sys, step: Step)
    requires Orderly(s) && History(s) && Enabled(s, step)
    requires step.RenewGrants? || step.CloseSession? || step.Ask? || step.RestartHub? || step.ForgetReceipts?
    ensures History(Apply(c, s, step))
  {
    var t := Apply(c, s, step);
    StepGrows(c, s, step);
    hide GuardedAt, MarksOk, QueueOk, ReceiptOk, Orderly;
    forall node ensures GuardedAt(t, node) {
      assert GuardedAt(s, node);
      GuardStays(s, t, node);
    }
    HistoryStays(s, t);
  }

  lemma BootKeepsHistory(c: Config, s: Sys, step: Step)
    requires Orderly(s) && History(s) && Enabled(s, step) && step.Boot?
    ensures History(Apply(c, s, step))
  {
    hide GuardedAt, MarksOk, QueueOk, ReceiptOk, Orderly;
    var t := Apply(c, s, step);
    StepGrows(c, s, step);
    forall n ensures GuardedAt(t, n) {
      GuardSurvivesABoot(s, step.node, step.boot, step.connection, n);
    }
    HistoryStays(s, t);
  }

  lemma HelloKeepsHistory(c: Config, s: Sys, step: Step)
    requires Orderly(s) && History(s) && Enabled(s, step) && step.HearHello?
    ensures History(Apply(c, s, step))
  {
    hide GuardedAt, MarksOk, QueueOk, ReceiptOk, AdmittedOk, Orderly, Grew, Sessions.Greeted, Sessions.AfterHello, Sessions.Opened,
         Sessions.OpensASession;
    var t := Apply(c, s, step);
    StepGrows(c, s, step);
    forall n ensures GuardedAt(t, n) {
      NewSessionIsGuarded(c, s, step.node, step.hello, step.how, n);
    }
    HistoryStays(s, t);
  }

  lemma StepKeepsHistory(c: Config, s: Sys, step: Step)
    requires Orderly(s) && History(s) && Enabled(s, step)
    ensures History(Apply(c, s, step))
  {
    hide Apply, Orderly, History, Enabled;
    match step
    case Boot(_, _, _) => BootKeepsHistory(c, s, step);
    case HearHello(_, _, _) => HelloKeepsHistory(c, s, step);
    case HearEvent(_, _, _, _, _, _, _, _) => EventKeepsHistory(c, s, step);
    case RenewGrants(_, _) => HubStepKeepsHistory(c, s, step);
    case CloseSession(_, _) => HubStepKeepsHistory(c, s, step);
    case Ask(_, _) => HubStepKeepsHistory(c, s, step);
    case RestartHub => HubStepKeepsHistory(c, s, step);
    case ForgetReceipts(_, _) => HubStepKeepsHistory(c, s, step);
    case _ => NodeStepKeepsHistory(c, s, step);
  }

  lemma EventKeepsHistory(c: Config, s: Sys, step: Step)
    requires Orderly(s) && History(s) && Enabled(s, step) && step.HearEvent?
    ensures History(Apply(c, s, step))
  {
    hide Orderly, MarksOk, QueueOk, ReceiptOk, AdmittedOk, GuardedAt, Apply, Enabled;
    var t := Apply(c, s, step);
    DoorKeepsAdmitted(c, s, step, t);
    if AtTheDoor(s, step.node, step.envelope, step.monotonic) {
      DoorKeepsMarks(c, s, step, t);
      DoorKeepsReceipts(c, s, step, t);
      DoorKeepsQueue(c, s, step, t);
    } else {
      TurnedAwayChangesNothing(c, s, step);
    }
  }

  lemma TurnedAwayChangesNothing(c: Config, s: Sys, step: Step)
    requires step.HearEvent? && Enabled(s, step) && !AtTheDoor(s, step.node, step.envelope, step.monotonic)
    ensures Apply(c, s, step) == s
  {
    hide AtTheDoor;
  }

  lemma {:induction false} RunsAreOrderly(c: Config, states: seq<Sys>, steps: seq<Step>, i: nat)
    requires IsRun(c, states, steps) && i <= |steps|
    ensures Orderly(states[i]) && History(states[i])
    decreases i
  {
    hide Orderly, Apply, Enabled;
    if i == 0 {
      StartIsOrderly();
    } else {
      RunsAreOrderly(c, states, steps, i - 1);
      StepKeepsOrder(c, states[i - 1], steps[i - 1]);
      StepKeepsHistory(c, states[i - 1], steps[i - 1]);
    }
  }

  // -- what a reader of the repository is promised -------------------------------------------------------

  /** In every run, what a source hands to the rules rises strictly, boot after boot and number after
      number within a boot; so no reading reaches them twice. */
  lemma EachReadingReachesTheRulesOnce(c: Config, states: seq<Sys>, steps: seq<Step>)
    requires IsRun(c, states, steps)
    ensures var end := states[|steps|];
            && QueueRises(end)
            && forall i, j | 0 <= i < j < |end.queue| ::
                 var e, f := end.queue[i].event, end.queue[j].event;
                 e.node == f.node && e.source == f.source && e.boot == f.boot ==> e.sequence < f.sequence
  {
    hide Orderly, Apply, Enabled;
    var end := states[|steps|];
    RunsAreOrderly(c, states, steps, |steps|);
    forall i, j | 0 <= i < j < |end.queue|
      ensures var e, f := end.queue[i].event, end.queue[j].event;
              e.node == f.node && e.source == f.source && e.boot == f.boot ==> e.sequence < f.sequence
    {
      var e, f := end.queue[i].event, end.queue[j].event;
      if e.node == f.node && e.source == f.source {
        assert Precedes(end, e, f);
      }
    }
  }

  /** In every run, once an event of a later boot has been let in, no event of an earlier boot of that
      node is let in again, whatever late hello opened a session in between. */
  lemma EarlierBootsStayOut(c: Config, states: seq<Sys>, steps: seq<Step>, i: nat, j: nat)
    requires IsRun(c, states, steps)
    requires var end := states[|steps|]; i < j < |end.admitted| && end.admitted[i].0 == end.admitted[j].0
    ensures var end := states[|steps|];
            var (a, b) := (end.admitted[i].1, end.admitted[j].1);
            a in end.lives && b in end.lives && end.lives[a].order <= end.lives[b].order
  {
    hide Orderly, Apply, Enabled;
    var end := states[|steps|];
    RunsAreOrderly(c, states, steps, |steps|);
    assert LifeOf(end, end.admitted[i].1, end.admitted[i].0) && LifeOf(end, end.admitted[j].1, end.admitted[j].0);
  }

  /** A hello of a boot that is over may still open a session, and nothing ever published is let in
      through it. */
  lemma StaleSessionHearsNothing(c: Config, s: Sys, node: NodeId, hello: Sessions.Hello, how: Hearing,
                                 envelope: Envelope, monotonic: real)
    requires Orderly(s) && Enabled(s, HearHello(node, hello, how))
    requires Sessions.OpensASession(s.sessions, node, hello) && hello.boot.value in s.ended
    requires SentEvent(node, envelope) in s.sent
    ensures !AtTheDoor(HelloHeard(c, s, node, hello, how), node, envelope, monotonic)
  {
    assert SentOk(s, SentHello(node, hello));
    assert SentOk(s, SentEvent(node, envelope));
    assert LifeOk(s, hello.boot.value);
    assert ProcessOk(s, node);
  }

  /** In every run a number names one reading and an id one event, so the journal never finds two
      different events wearing the same one. */
  lemma NoFalseCollision(c: Config, states: seq<Sys>, steps: seq<Step>, i: nat)
    requires IsRun(c, states, steps) && i < |steps| && steps[i].HearEvent?
    ensures OutcomeOf(states[i].journal, steps[i].envelope.event) in {Stored, SeenBefore}
  {
    var s, e := states[i], steps[i].envelope.event;
    RunsAreOrderly(c, states, steps, i);
    assert SentOk(s, SentEvent(steps[i].node, steps[i].envelope));
    forall key | key in s.journal.receipts ensures ReceiptOk(s, key) {
    }
  }

  lemma {:induction false} EpochsOnlyRise(c: Config, states: seq<Sys>, steps: seq<Step>, i: nat, j: nat)
    requires IsRun(c, states, steps) && i <= j <= |steps|
    ensures states[i].epoch <= states[j].epoch
    decreases j
  {
    hide Orderly, Apply, Enabled;
    if i < j {
      EpochsOnlyRise(c, states, steps, i, j - 1);
      RunsAreOrderly(c, states, steps, j - 1);
      StepGrows(c, states[j - 1], steps[j - 1]);
    }
  }

  predicate Opens(s: Sys, step: Step) {
    step.HearHello? && Sessions.OpensASession(s.sessions, step.node, step.hello)
  }

  /** A session that opens is stamped with the number the hub has just reached. */
  lemma OpeningStamps(c: Config, s: Sys, step: Step)
    requires Enabled(s, step) && Opens(s, step)
    ensures var t := Apply(c, s, step);
            && step.node in t.sessions && t.sessions[step.node].hubEpoch == t.epoch > s.epoch
  {
    HelloStamps(c, s, step.node, step.hello, step.how);
    hide HelloHeard;
  }

  lemma HelloStamps(c: Config, s: Sys, node: NodeId, hello: Sessions.Hello, how: Hearing)
    requires Sessions.OpensASession(s.sessions, node, hello)
    ensures var t := HelloHeard(c, s, node, hello, how);
            && node in t.sessions && t.sessions[node].hubEpoch == t.epoch > s.epoch
  {
  }

  /** In every run, no two sessions are ever stamped with the same epoch, across restarts of the hub. */
  lemma EpochsNeverRepeat(c: Config, states: seq<Sys>, steps: seq<Step>, i: nat, j: nat)
    requires IsRun(c, states, steps) && i < j < |steps|
    requires Opens(states[i], steps[i]) && Opens(states[j], steps[j])
    ensures steps[i].node in states[i + 1].sessions && steps[j].node in states[j + 1].sessions
    ensures states[i + 1].sessions[steps[i].node].hubEpoch < states[j + 1].sessions[steps[j].node].hubEpoch
  {
    hide Apply, Enabled, Opens;
    EpochsOnlyRise(c, states, steps, i + 1, j);
    OpeningStamps(c, states[i], steps[i]);
    OpeningStamps(c, states[j], steps[j]);
  }

  // -- such runs exist ------------------------------------------------------------------------------------

  const SOME_LIMITS := Config(Sessions.Settings(30.0, 10.0), Ingress.Limits(60.0, 5.0), Spool.Limits(10, 1000, 60.0))

  function OneSample(): Agent.Sample {
    Agent.Sample("door", Reading("contact", Flag(true), None, Valid, Utc(1.0)), Synced, "event", 100, false, Agent.Sendable)
  }

  /** A node that boots, connects and has been granted events. */
  function OpeningSteps(): seq<Step> {
    [Boot("node", "boot", "none"),
     Connect("node", "link", true, 0.0),
     HearHello("node", Sessions.Hello(Some("link"), Some("boot"), true), Hearing(0, true, "grant", "command", 0.0)),
     HearCommand("node", Agent.Command("command", Agent.DoGrant, 1, Events, Some("grant"), 30.0, 0), 0.0)]
  }

  /** One reading of it, all the way. */
  function ReadingSteps(): seq<Step> {
    [TakeReading("node", OneSample(), 1.0),
     TakeBatch("node", 1.0, 1.0),
     SendOne("node", Agent.Attempt(1.0, 1.0, 1.0, Agent.Took)),
     HearEvent("node", OneEnvelope(), false, 1.0, 1.0, map[("node", "door") := Ingress.Ready], Ingress.Disk(Ingress.Reads, Commits), false)]
  }

  function OneEnvelope(): Envelope {
    var s := OneSample();
    Envelope(Event("event", "node", "door", "boot", 0, s.reading, Synced), Delivery("link", 1, Some("grant"), 0, false, false))
  }

  ghost predicate Follows(c: Config, s: Sys, steps: seq<Step>, t: Sys)
    decreases steps
  {
    if steps == [] then s == t
    else Enabled(s, steps[0]) && Follows(c, Apply(c, s, steps[0]), steps[1..], t)
  }

  lemma {:induction false} FollowingIsARun(c: Config, before: seq<Sys>, taken: seq<Step>, steps: seq<Step>, t: Sys) returns (states: seq<Sys>)
    requires IsRun(c, before, taken) && Follows(c, before[|taken|], steps, t)
    ensures IsRun(c, states, taken + steps) && states[|taken + steps|] == t
    decreases steps
  {
    hide Apply, Enabled;
    if steps == [] {
      states := before;
      assert taken + steps == taken;
    } else {
      var next := Apply(c, before[|taken|], steps[0]);
      states := FollowingIsARun(c, before + [next], taken + [steps[0]], steps[1..], t);
      assert taken + [steps[0]] + steps[1..] == taken + steps;
    }
  }

  lemma FourFollow(c: Config, s: Sys, steps: seq<Step>)
    requires |steps| == 4 && Enabled(s, steps[0])
    requires var a := Apply(c, s, steps[0]);
             && Enabled(a, steps[1])
             && var b := Apply(c, a, steps[1]);
                && Enabled(b, steps[2])
                && var d := Apply(c, b, steps[2]);
                   Enabled(d, steps[3])
    ensures Follows(c, s, steps, Apply(c, Apply(c, Apply(c, Apply(c, s, steps[0]), steps[1]), steps[2]), steps[3]))
  {
    hide Apply, Enabled;
    var a := Apply(c, s, steps[0]);
    var b := Apply(c, a, steps[1]);
    var d := Apply(c, b, steps[2]);
    var t := Apply(c, d, steps[3]);
    assert Follows(c, d, steps[3..], t) by {
      assert Follows(c, t, steps[3..][1..], t);
    }
    assert steps[2..][1..] == steps[3..] && Follows(c, b, steps[2..], t);
    assert steps[1..][1..] == steps[2..] && Follows(c, a, steps[1..], t);
  }

  predicate NothingRead(s: Sys) {
    s.made == {} && s.queue == [] && s.journal == Empty()
  }

  function JustLinked(grant: Option<Agent.HeldGrant>, seen: Seen.Memory): Agent.Running {
    Agent.Running(Agent.Booted("node", "boot", "link").(grant := grant, seen := seen), [])
  }

  function JustOpened(): Sessions.Session {
    Sessions.Session("node", "link", Some("boot"), 1, 0.0, 0.0, false,
                     map[Events := Sessions.Grant("grant", "node", Events, 1, 0.0, 30.0, 0)])
  }

  /** The node is up, and has said hello. */
  predicate Linked(s: Sys) {
    && NothingRead(s) && s.epoch == 0 && s.sessions == map[]
    && "node" in s.processes && s.processes["node"] == JustLinked(None, Seen.Nothing())
    && SentHello("node", Sessions.Hello(Some("link"), Some("boot"), true)) in s.sent
  }

  /** The hub has heard it and granted it events. */
  predicate Opened(s: Sys) {
    && NothingRead(s) && s.epoch == 1
    && "node" in s.sessions && s.sessions["node"] == JustOpened()
    && "node" in s.processes && s.processes["node"] == JustLinked(None, Seen.Nothing())
    && SentCommand("node", OpeningSteps()[3].command) in s.sent
  }

  predicate ReadyToRead(s: Sys) {
    && NothingRead(s) && s.epoch == 1
    && "node" in s.sessions && s.sessions["node"] == JustOpened()
    && "node" in s.processes
    && var r := s.processes["node"];
       r == JustLinked(Some(Agent.HeldGrant("grant", Events, 1, 30.0, 0)), r.view.seen)
  }

  lemma LinkingWorks()
    ensures var c, s, steps := SOME_LIMITS, Start(), OpeningSteps();
            && Enabled(s, steps[0]) && Enabled(Apply(c, s, steps[0]), steps[1])
            && Linked(Apply(c, Apply(c, s, steps[0]), steps[1]))
  {
  }

  lemma HelloWorks(s: Sys)
    requires Linked(s)
    ensures Enabled(s, OpeningSteps()[2]) && Opened(Apply(SOME_LIMITS, s, OpeningSteps()[2]))
  {
  }

  lemma GrantWorks(s: Sys)
    requires Opened(s)
    ensures Enabled(s, OpeningSteps()[3]) && ReadyToRead(Apply(SOME_LIMITS, s, OpeningSteps()[3]))
  {
    hide Seen.Remember, AsCommand;
    var r, c := s.processes["node"].view, OpeningSteps()[3].command;
    assert Agent.OnCommand(r, SOME_LIMITS.spool, c, 0.0, []).0.grant == Some(Agent.HeldGrant("grant", Events, 1, 30.0, 0));
    NothingRecorded(SOME_LIMITS, r, c, 0.0);
  }

  lemma OpeningWorks() returns (t: Sys)
    ensures Follows(SOME_LIMITS, Start(), OpeningSteps(), t) && ReadyToRead(t)
  {
    hide Apply, Enabled, Follows;
    var c, s, steps := SOME_LIMITS, Start(), OpeningSteps();
    LinkingWorks();
    var b := Apply(c, Apply(c, s, steps[0]), steps[1]);
    HelloWorks(b);
    GrantWorks(Apply(c, b, steps[2]));
    FourFollow(c, s, steps);
    t := Apply(c, Apply(c, b, steps[2]), steps[3]);
  }

  function OneHeld(): Spool.Held<Event> {
    Spool.Held(OneEnvelope().event, 100, 1.0, false)
  }

  /** The reading waits in the node's spool, or then in the network thread's hand. */
  predicate Waiting(s: Sys, inHand: bool) {
    && s.queue == [] && s.journal == Empty()
    && "node" in s.sessions && s.sessions["node"] == JustOpened()
    && "node" in s.processes
    && var r := s.processes["node"];
       && r.hand == (if inHand then [OneHeld()] else [])
       && (!inHand ==> r.view.spool == Spool.SpoolView([OneHeld()], 100, Spool.Drops(0, 0, 0)))
       && r.view.connection == "link" && r.view.linkedAt == 0.0
       && r.view.grant == Some(Agent.HeldGrant("grant", Events, 1, 30.0, 0))
  }

  lemma TakingWorks(s: Sys)
    requires ReadyToRead(s)
    ensures Enabled(s, ReadingSteps()[0]) && Waiting(Apply(SOME_LIMITS, s, ReadingSteps()[0]), false)
  {
    hide OpeningSteps;
  }

  lemma TakingUpWorks(s: Sys)
    requires Waiting(s, false)
    ensures Enabled(s, ReadingSteps()[1]) && Waiting(Apply(SOME_LIMITS, s, ReadingSteps()[1]), true)
  {
  }

  lemma SendingWorks(s: Sys)
    requires Waiting(s, true)
    ensures var t := Apply(SOME_LIMITS, s, ReadingSteps()[2]);
            && Enabled(s, ReadingSteps()[2])
            && t.queue == [] && t.journal == Empty() && t.sessions == s.sessions
            && SentEvent("node", OneEnvelope()) in t.sent
  {
  }

  lemma HearingWorks(s: Sys)
    requires s.queue == [] && s.journal == Empty() && "node" in s.sessions && s.sessions["node"] == JustOpened()
    requires SentEvent("node", OneEnvelope()) in s.sent
    ensures Enabled(s, ReadingSteps()[3])
    ensures var queue := Apply(SOME_LIMITS, s, ReadingSteps()[3]).queue; |queue| == 1 && queue[0].event.eventId == "event"
  {
    assert AtTheDoor(s, "node", OneEnvelope(), 1.0);
  }

  lemma ReadingWorks(s: Sys) returns (t: Sys)
    requires ReadyToRead(s)
    ensures Follows(SOME_LIMITS, s, ReadingSteps(), t)
    ensures |t.queue| == 1 && t.queue[0].event.eventId == "event"
  {
    hide Apply, Enabled, Follows;
    var c, steps := SOME_LIMITS, ReadingSteps();
    TakingWorks(s);
    var a := Apply(c, s, steps[0]);
    TakingUpWorks(a);
    var b := Apply(c, a, steps[1]);
    SendingWorks(b);
    var d := Apply(c, b, steps[2]);
    HearingWorks(d);
    FourFollow(c, s, steps);
    t := Apply(c, d, steps[3]);
  }

  /** The theorems above are about something: there is a run in which a reading reaches the rules. */
  lemma AReadingCanReachTheRules() returns (states: seq<Sys>, steps: seq<Step>)
    ensures IsRun(SOME_LIMITS, states, steps)
    ensures var queue := states[|steps|].queue; |queue| == 1 && queue[0].event.eventId == "event"
  {
    hide Apply, Enabled, Follows;
    var c := SOME_LIMITS;
    var s := OpeningWorks();
    states := FollowingIsARun(c, [Start()], [], OpeningSteps(), s);
    assert [] + OpeningSteps() == OpeningSteps();
    var t := ReadingWorks(s);
    states := FollowingIsARun(c, states, OpeningSteps(), ReadingSteps(), t);
    steps := OpeningSteps() + ReadingSteps();
  }
}
