/** A grant on both sides of the wire: what the hub issues is what a node takes, and a node that hears every renewal
    in time may publish throughout.
  */
module GrantProofs {
  import opened Wrappers
  import opened Wire
  import Agent
  import AgentProofs
  import Seen
  import Spool
  import Sessions
  import SessionProofs
  import System

  // -- what the hub issues --------------------------------------------------------------------------

  /** The command for the grant that came with a hello, or for its `k`-th renewal. */
  function Issued(settings: Sessions.Settings, hello: SessionProofs.Op, k: nat, commandId: Id): Agent.Command
    requires hello.OpHello?
  {
    Agent.Command(commandId, if k == 0 then Agent.DoGrant else Agent.DoRenew, hello.epoch, Events, Some(hello.grantId),
                  settings.grantSeconds, k)
  }

  /** In every history of the hub, while a node's session stands: the command it makes of the node's grant is that of
      the last issue of it. */
  lemma WhatTheHubIssues(settings: Sessions.Settings, ops: seq<SessionProofs.Op>, node: NodeId, i: nat, commandId: Id)
    requires i <= |ops| && SessionProofs.Standing(ops, node, i).Some?
    requires ops[SessionProofs.Standing(ops, node, i).value].granted
    ensures var t, o := SessionProofs.TableAfter(settings, ops, i), SessionProofs.Standing(ops, node, i).value;
            var k := SessionProofs.LastIssue(settings, ops, o, i).renewals;
            && Sessions.Holds(t, (node, Events))
            && System.AsCommand(Sessions.GrantOf(t, (node, Events)), if k == 0 then Agent.DoGrant else Agent.DoRenew, commandId)
               == Issued(settings, ops[o], k, commandId)
  {
    hide SessionProofs.TableAfter, SessionProofs.LastIssue, SessionProofs.Standing;
    SessionProofs.TheTableTells(settings, ops, node, i);
  }

  /** The command of a round that renews a node's grant is applied by a node that holds any earlier issue of that grant,
      and gives it the grant's whole lifetime from the moment it is heard. */
  lemma ARenewalIsTaken(settings: Sessions.Settings, ops: seq<SessionProofs.Op>, node: NodeId, i: nat, earlier: nat,
                        a: Agent.AgentView, limits: Spool.Limits, commandId: Id, now: real, baselines: seq<Agent.Recorded>)
    requires i < |ops| && SessionProofs.Renews(settings, ops, node, i) && settings.Valid()
    requires earlier <= i && SessionProofs.Standing(ops, node, i).value < earlier
    requires var g := System.AsCommand(HubGrant(settings, ops, node, earlier), Agent.DoRenew, commandId);
             a.grant.Some? && a.grant.value.grantId == g.grantId.value && a.grant.value.sequence == g.sequence
    requires commandId !in a.seen.outcomes
    ensures var c := System.AsCommand(HubGrant(settings, ops, node, i + 1), Agent.DoRenew, commandId);
            var (after, outcome, acted) := Agent.OnCommand(a, limits, c, now, baselines);
            && acted && outcome == Seen.Applied
            && after.grant == Some(Agent.HeldGrant(a.grant.value.grantId, Events, c.hubEpoch, now + settings.grantSeconds, c.sequence))
            && c.sequence > a.grant.value.sequence
  {
    hide SessionProofs.TableAfter, SessionProofs.LastIssue, SessionProofs.Standing, Seen.Remember;
    SessionProofs.ARenewalIsNewer(settings, ops, node, i, earlier);
  }

  /** The node's grant of events as the hub has it, or no grant at all. */
  function HubGrant(settings: Sessions.Settings, ops: seq<SessionProofs.Op>, node: NodeId, i: nat): Sessions.Grant
    requires i <= |ops|
  {
    var t := SessionProofs.TableAfter(settings, ops, i);
    if Sessions.Holds(t, (node, Events)) then Sessions.GrantOf(t, (node, Events))
    else Sessions.Grant("", node, Events, 0, 0.0, 0.0, 0)
  }

  // -- what the node makes of it ----------------------------------------------------------------------

  datatype Hearing = Hearing(command: Agent.Command, at: real)

  /** The commands among what a process goes through, in order. */
  function Hearings(ops: seq<AgentProofs.Op>): seq<Hearing>
    decreases ops
  {
    if ops == [] then []
    else
      var before, last := Hearings(ops[..|ops| - 1]), ops[|ops| - 1];
      if last.Hears? then before + [Hearing(last.command, last.at)] else before
  }

  /** A life in which the node hears one grant and its renewals, each once and in order, under ids of their own. */
  ghost predicate HearsOneGrant(settings: Sessions.Settings, hello: SessionProofs.Op, ids: seq<Id>, known: set<Id>,
                                ops: seq<AgentProofs.Op>)
  {
    var heard := Hearings(ops);
    && hello.OpHello? && |heard| <= |ids|
    && (forall k | 0 <= k < |heard| :: heard[k].command == Issued(settings, hello, k, ids[k]))
    && (forall k, m | 0 <= k < m < |ids| :: ids[k] != ids[m])
    && (forall k | 0 <= k < |ids| :: ids[k] !in known)
    && (forall i, k | 0 <= i < |ops| && ops[i].Finishes? && 0 <= k < |ids| :: ops[i].id != ids[k])
  }

  lemma HearingsFront(ops: seq<AgentProofs.Op>, n: nat)
    requires n <= |ops|
    ensures |Hearings(ops[..n])| <= |Hearings(ops)| && Hearings(ops[..n]) == Hearings(ops)[..|Hearings(ops[..n])|]
    decreases |ops| - n
  {
    if n < |ops| {
      HearingsFront(ops[..|ops| - 1], n);
      assert ops[..|ops| - 1][..n] == ops[..n];
    } else {
      assert ops[..n] == ops;
    }
  }

  lemma FrontHearsOneGrant(settings: Sessions.Settings, hello: SessionProofs.Op, ids: seq<Id>, known: set<Id>,
                           ops: seq<AgentProofs.Op>, n: nat)
    requires n <= |ops| && HearsOneGrant(settings, hello, ids, known, ops)
    ensures HearsOneGrant(settings, hello, ids, known, ops[..n])
  {
    HearingsFront(ops, n);
  }

  lemma OnlyWhatWasUsedIsKnown(r: Agent.Running, limits: Spool.Limits, op: AgentProofs.Op)
    ensures var after := AgentProofs.Does(r, limits, op);
            after.view.seen.outcomes.Keys <= r.view.seen.outcomes.Keys +
              (if AgentProofs.IdOf(op).Some? then {AgentProofs.IdOf(op).value} else {})
    ensures !op.Hears? ==> AgentProofs.Does(r, limits, op).view.grant == r.view.grant
  {
    hide Spool.Put, Spool.Take, Spool.Requeue, Agent.DeliveryFor, Agent.RecordAll, Seen.MovedToEnd, Seen.Remember;
    match op
    case Hears(c, at, baselines) =>
      Seen.RememberingAdds(Seen.Ask(r.view.seen, c.commandId).0, Seen.CAPACITY, c.commandId,
                           Agent.OnCommand(r.view, limits, c, at, baselines).1);
      if !c.action.DoConfigure? {
        AgentProofs.RecordingIsNotSeen(r.view.(grant := Agent.Apply(r.view.grant, c, at).0), limits, baselines);
      }
    case Finishes(id, outcome) => Seen.RememberingAdds(r.view.seen, Seen.CAPACITY, id, outcome);
    case _ =>
  }

  lemma HearingTakes(r: Agent.Running, limits: Spool.Limits, c: Agent.Command, at: real, baselines: seq<Agent.Recorded>)
    requires c.commandId !in r.view.seen.outcomes && !c.action.DoConfigure?
    ensures AgentProofs.Does(r, limits, AgentProofs.Hears(c, at, baselines)).view.grant == Agent.Apply(r.view.grant, c, at).0
  {
    hide Seen.Remember, Agent.RecordAll, Agent.Apply;
    AgentProofs.RecordingIsNotSeen(r.view.(grant := Agent.Apply(r.view.grant, c, at).0), limits, baselines);
  }

  function IdsHeard(ids: seq<Id>, n: nat): set<Id> {
    set k | 0 <= k < n && k < |ids| :: ids[k]
  }

  function IdsFinished(ops: seq<AgentProofs.Op>): set<Id> {
    set i | 0 <= i < |ops| && ops[i].Finishes? :: ops[i].id
  }

  lemma NextIsNew(settings: Sessions.Settings, hello: SessionProofs.Op, ids: seq<Id>, known: set<Id>, ops: seq<AgentProofs.Op>, k: nat)
    requires HearsOneGrant(settings, hello, ids, known, ops) && k < |ids|
    ensures ids[k] !in known + IdsHeard(ids, k) + IdsFinished(ops)
  {
    hide Issued;
  }

  lemma IdsGrow(ids: seq<Id>, ops: seq<AgentProofs.Op>)
    requires ops != [] && |Hearings(ops)| <= |ids|
    ensures var (front, last) := (ops[..|ops| - 1], ops[|ops| - 1]);
            && IdsHeard(ids, |Hearings(front)|) <= IdsHeard(ids, |Hearings(ops)|) && IdsFinished(front) <= IdsFinished(ops)
            && (last.Hears? ==> |Hearings(front)| < |ids| && ids[|Hearings(front)|] in IdsHeard(ids, |Hearings(ops)|))
            && (last.Finishes? ==> last.id in IdsFinished(ops))
  {
    assert forall i | 0 <= i < |ops| - 1 :: ops[..|ops| - 1][i] == ops[i];
  }

  lemma LastHearing(settings: Sessions.Settings, hello: SessionProofs.Op, ids: seq<Id>, known: set<Id>, ops: seq<AgentProofs.Op>)
    requires HearsOneGrant(settings, hello, ids, known, ops) && ops != [] && ops[|ops| - 1].Hears?
    ensures var (k, last) := (|Hearings(ops[..|ops| - 1])|, ops[|ops| - 1]);
            && |Hearings(ops)| == k + 1 && k < |ids| && Hearings(ops)[k] == Hearing(last.command, last.at)
            && last.command == Issued(settings, hello, k, ids[k])
  {
    hide Issued;
    var k := |Hearings(ops[..|ops| - 1])|;
    assert Hearings(ops)[k].command == Issued(settings, hello, k, ids[k]);
  }

  /** Such a node knows no command but those it knew, heard or finished. */
  lemma {:induction false} KnowsOnlyThese(settings: Sessions.Settings, hello: SessionProofs.Op, ids: seq<Id>,
                                          r: Agent.Running, limits: Spool.Limits, ops: seq<AgentProofs.Op>)
    requires HearsOneGrant(settings, hello, ids, r.view.seen.outcomes.Keys, ops)
    ensures AgentProofs.Life(r, limits, ops).view.seen.outcomes.Keys
         <= r.view.seen.outcomes.Keys + IdsHeard(ids, |Hearings(ops)|) + IdsFinished(ops)
    decreases ops
  {
    hide AgentProofs.Does, IdsHeard, IdsFinished, Hearings;
    if ops != [] {
      var n := |ops| - 1;
      FrontHearsOneGrant(settings, hello, ids, r.view.seen.outcomes.Keys, ops, n);
      KnowsOnlyThese(settings, hello, ids, r, limits, ops[..n]);
      OnlyWhatWasUsedIsKnown(AgentProofs.Life(r, limits, ops[..n]), limits, ops[n]);
      IdsGrow(ids, ops);
      if ops[n].Hears? {
        LastHearing(settings, hello, ids, r.view.seen.outcomes.Keys, ops);
      }
    }
  }

  /** What such a node holds is the issue it heard last, for its whole lifetime from then. */
  lemma {:induction false} HoldsTheLastIssue(settings: Sessions.Settings, hello: SessionProofs.Op, ids: seq<Id>,
                                             r: Agent.Running, limits: Spool.Limits, ops: seq<AgentProofs.Op>)
    requires settings.Valid() && HearsOneGrant(settings, hello, ids, r.view.seen.outcomes.Keys, ops)
    ensures var (heard, after) := (Hearings(ops), AgentProofs.Life(r, limits, ops).view);
            && (heard == [] ==> after.grant == r.view.grant)
            && (heard != [] ==>
                  after.grant == Some(Agent.HeldGrant(hello.grantId, Events, hello.epoch,
                                                      heard[|heard| - 1].at + settings.grantSeconds, |heard| - 1)))
    decreases ops
  {
    hide AgentProofs.Does, IdsHeard, IdsFinished, HearsOneGrant;
    if ops != [] {
      var n := |ops| - 1;
      var op, before := ops[n], AgentProofs.Life(r, limits, ops[..n]);
      HearsAHello(settings, hello, ids, r.view.seen.outcomes.Keys, ops);
      FrontHearsOneGrant(settings, hello, ids, r.view.seen.outcomes.Keys, ops, n);
      HoldsTheLastIssue(settings, hello, ids, r, limits, ops[..n]);
      OnlyWhatWasUsedIsKnown(before, limits, op);
      if op.Hears? {
        var k := |Hearings(ops[..n])|;
        LastHearing(settings, hello, ids, r.view.seen.outcomes.Keys, ops);
        KnowsOnlyThese(settings, hello, ids, r, limits, ops[..n]);
        FrontFinishes(ops);
        NextIsNew(settings, hello, ids, r.view.seen.outcomes.Keys, ops, k);
        HearingTakes(before, limits, op.command, op.at, op.baselines);
      }
    }
  }

  lemma HearsAHello(settings: Sessions.Settings, hello: SessionProofs.Op, ids: seq<Id>, known: set<Id>, ops: seq<AgentProofs.Op>)
    requires HearsOneGrant(settings, hello, ids, known, ops)
    ensures hello.OpHello?
  {
  }

  lemma FrontFinishes(ops: seq<AgentProofs.Op>)
    requires ops != []
    ensures IdsFinished(ops[..|ops| - 1]) <= IdsFinished(ops)
  {
    assert forall i | 0 <= i < |ops| - 1 :: ops[..|ops| - 1][i] == ops[i];
  }

  /** A node that hears the grant, and each renewal before what it holds runs out, may publish throughout: at every
      moment of its life from the grant on, whatever else goes on between, until the lifetime of the last issue it
      heard is over. */
  lemma GrantedThroughout(settings: Sessions.Settings, hello: SessionProofs.Op, ids: seq<Id>, r: Agent.Running,
                          limits: Spool.Limits, ops: seq<AgentProofs.Op>, n: nat, now: real)
    requires settings.Valid() && HearsOneGrant(settings, hello, ids, r.view.seen.outcomes.Keys, ops)
    requires n <= |ops| && Hearings(ops[..n]) != []
    requires var heard := Hearings(ops);
             forall k | 0 <= k < |heard| - 1 :: heard[k + 1].at <= heard[k].at + settings.grantSeconds
    requires var (heard, k) := (Hearings(ops), |Hearings(ops[..n])|);
             k <= |heard| && now < (if k < |heard| then heard[k].at else heard[k - 1].at + settings.grantSeconds)
    ensures Agent.Granted(AgentProofs.Life(r, limits, ops[..n]).view, now)
  {
    hide AgentProofs.Life;
    HearingsFront(ops, n);
    FrontHearsOneGrant(settings, hello, ids, r.view.seen.outcomes.Keys, ops, n);
    HoldsTheLastIssue(settings, hello, ids, r, limits, ops[..n]);
    var k := |Hearings(ops[..n])|;
    assert Hearings(ops)[k - 1] == Hearings(ops[..n])[k - 1];
    if k < |Hearings(ops)| {
      assert Hearings(ops)[(k - 1) + 1].at <= Hearings(ops)[k - 1].at + settings.grantSeconds;
    }
  }
}
