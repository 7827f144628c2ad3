/** Who is let in, in every run of the hub and its nodes, told by the steps alone. */
module DoorProofs {
  import opened Wrappers
  import opened Journal
  import opened System
  import Ingress
  import Sessions
  import SessionProofs

  /** What a step is to the session table: a hello as it was heard, with the number it was stamped with. */
  function SessionOp(s: Sys, step: Step): SessionProofs.Op {
    match step
    case HearHello(node, hello, how) =>
      SessionProofs.OpHello(node, hello, how.granted, s.epoch + how.lostNumbers + 1, how.grantId, how.now)
    case RenewGrants(commandIds, now) => SessionProofs.OpRound(now)
    case CloseSession(node, commandId) => SessionProofs.OpClose(node, 0.0)
    case RestartHub => SessionProofs.OpRestart(0.0)
    case _ => SessionProofs.OpElsewhere(0.0)
  }

  function SessionOps(states: seq<Sys>, steps: seq<Step>): (ops: seq<SessionProofs.Op>)
    requires |states| == |steps| + 1
    ensures |ops| == |steps|
  {
    seq(|steps|, i requires 0 <= i < |steps| => SessionOp(states[i], steps[i]))
  }

  predicate OfANode(step: Step) {
    || step.Boot? || step.Connect? || step.TakeReading? || step.TakeBatch? || step.SendOne? || step.HearCommand?
    || step.LetTheNextIn? || step.FinishConfigure?
  }

  lemma NodesLeaveTheTable(c: Config, s: Sys, step: Step)
    requires Enabled(s, step) && OfANode(step)
    ensures Apply(c, s, step).sessions == s.sessions
  {
    hide Enabled;
  }

  lemma OneStepMoves(c: Config, s: Sys, step: Step)
    requires Enabled(s, step)
    ensures Apply(c, s, step).sessions == SessionProofs.Moved(s.sessions, c.sessions, SessionOp(s, step))
  {
    hide Ingress.Accept, RenewalsSent, AtTheDoor, Sessions.AfterRound, Sessions.Greeted, Sessions.Closed, Sessions.OpensASession,
         Booted, Connected, ReadingTaken, BatchTaken, OneSent, CommandHeard, Viewed;
    if OfANode(step) {
      NodesLeaveTheTable(c, s, step);
    }
  }

  lemma {:induction false} TheTableFollows(c: Config, states: seq<Sys>, steps: seq<Step>, i: nat)
    requires IsRun(c, states, steps) && i <= |steps|
    ensures states[i].sessions == SessionProofs.TableAfter(c.sessions, SessionOps(states, steps), i)
    decreases i
  {
    hide Apply, Enabled, SessionProofs.Moved;
    if i > 0 {
      TheTableFollows(c, states, steps, i - 1);
      OneStepMoves(c, states[i - 1], steps[i - 1]);
    }
  }

  /** In every run: an event is let in exactly if its node stands, it comes on the connection the node said hello on,
      under the number that hello was stamped with and the grant that came with it, and less than the grant's lifetime
      after that was last issued; and it reaches the rules exactly if besides it is live and there is room. */
  lemma WhoIsLetIn(c: Config, states: seq<Sys>, steps: seq<Step>, i: nat)
    requires IsRun(c, states, steps) && i < |steps| && steps[i].HearEvent?
    ensures var step := steps[i];
            var (e, d) := (step.envelope.event, step.envelope.delivery);
            var letIn := SessionProofs.Welcome(c.sessions, SessionOps(states, steps), i, step.node, Some(d.connection), Some(d.hubEpoch),
                                               d.grantId, step.monotonic);
            var live := Ingress.IsLive(states[i].journal, c.ingress, Ingress.Arrival(step.sources, step.node, Ingress.Matched(step.envelope),
                                                                                  step.retained, step.now, step.disk));
            && states[i + 1].admitted == states[i].admitted + (if letIn then [(step.node, e.boot)] else [])
            && states[i + 1].queue == states[i].queue
                 + (if letIn && live && !step.full then [Entry(e, d, step.now, Live, true, None)] else [])
  {
    hide SessionProofs.TableAfter, SessionProofs.Welcome, Sessions.MayEnter, Ingress.Accept, Ingress.IsLive;
    var step := steps[i];
    var d := step.envelope.delivery;
    TheTableFollows(c, states, steps, i);
    SessionProofs.WhoMayEnter(c.sessions, SessionOps(states, steps), i, step.node, Some(d.connection), Some(d.hubEpoch), d.grantId, step.monotonic);
    LiveIsHandedOn(states[i].journal, c.ingress,
                   Ingress.Arrival(step.sources, step.node, Ingress.Matched(step.envelope), step.retained, step.now, step.disk));
  }

  lemma LiveIsHandedOn(j: JournalView, limits: Ingress.Limits, a: Ingress.Arrival)
    requires a.message.Matched?
    ensures var r := Ingress.Accept(j, a.sources, limits, a.node, a.message, a.retained, a.now, a.disk).1;
            && (r.Some? && r.value.event.Some? <==> Ingress.IsLive(j, limits, a))
            && (r.Some? && r.value.event.Some? ==>
                  r.value.event.value == Entry(a.message.envelope.event, a.message.envelope.delivery, a.now, Live, true, None))
  {
    Ingress.LiveMeans(j, limits, a);
    hide OutcomeOf, TooWide;
  }
}
