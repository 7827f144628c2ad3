/** What a node's process guarantees over its whole life: commands are acted on once, a grant is never
    turned back, every reading is accounted for, and what waited for the link is told from news.
  */
module AgentProofs {
  import opened Wrappers
  import opened Wire
  import opened Agent
  import Spool
  import Seen

  // -- a life ------------------------------------------------------------------------------------

  /** What a process goes through, from whichever of its threads: readings, the network thread taking
      messages up, sending one and connecting, commands, and the thread of a configuration, which lets the
      next one in and then says how its own went. Anything may come between any two of them. */
  datatype Op =
    | Read(sample: Sample, at: real)
    | TakeUp(granted: real, taken: real)
    | SendNext(attempt: Attempt)
    | Connects(connection: Id, up: bool, at: real)
    | Hears(command: Command, at: real, baselines: seq<Recorded>)
    | LetsTheNextIn
    | Finishes(id: Id, outcome: Seen.Outcome)

  function Does(r: Running, limits: Spool.Limits, op: Op): Running {
    match op
    case Read(sample, at) => r.(view := Record(r.view, limits, sample, at))
    case TakeUp(granted, taken) => TookUp(r, limits, granted, taken)
    case SendNext(attempt) => SentNext(r, limits, attempt).0
    case Connects(connection, up, at) => r.(view := Connected(r.view, connection, up, at))
    case Hears(command, at, baselines) => r.(view := OnCommand(r.view, limits, command, at, baselines).0)
    case LetsTheNextIn => r.(view := r.view.(configuring := false))
    case Finishes(id, outcome) => r.(view := Remembering(r.view, id, outcome))
  }

  function Life(r: Running, limits: Spool.Limits, ops: seq<Op>): Running
    decreases ops
  {
    if ops == [] then r else Does(Life(r, limits, ops[..|ops| - 1]), limits, ops[|ops| - 1])
  }

  function Begun(node: NodeId, boot: Id, connection: Id): Running {
    Running(Booted(node, boot, connection), [])
  }

  // -- acted on once -------------------------------------------------------------------------------

  /** The command an operation is about, if it is about one. */
  function IdOf(op: Op): Option<Id> {
    match op
    case Hears(command, _, _) => Some(command.commandId)
    case Finishes(id, _) => Some(id)
    case _ => None
  }

  function Others(ops: seq<Op>, id: Id): set<Id> {
    set i | 0 <= i < |ops| && IdOf(ops[i]).Some? && IdOf(ops[i]).value != id :: IdOf(ops[i]).value
  }

  /** What a command is answered that was answered `outcome` before. */
  function LastAnswer(outcome: Seen.Outcome, ops: seq<Op>, id: Id): Seen.Outcome
    decreases ops
  {
    if ops == [] then outcome
    else
      var last := ops[|ops| - 1];
      if last.Finishes? && last.id == id then last.outcome else LastAnswer(outcome, ops[..|ops| - 1], id)
  }

  lemma OthersBefore(ops: seq<Op>, id: Id, n: nat)
    requires n <= |ops|
    ensures Others(ops[..n], id) <= Others(ops, id)
  {
    forall x | x in Others(ops[..n], id) ensures x in Others(ops, id) {
      var i :| 0 <= i < n && IdOf(ops[..n][i]) == Some(x);
      assert IdOf(ops[i]) == Some(x);
    }
  }

  /** What one operation does to the memory of commands. */
  function Uses(r: Running, limits: Spool.Limits, op: Op): seq<Seen.Op> {
    match op
    case Hears(command, at, baselines) =>
      var (_, outcome, acted) := OnCommand(r.view, limits, command, at, baselines);
      if acted then [Seen.OpAsk(command.commandId), Seen.OpRemember(command.commandId, outcome)]
      else [Seen.OpAsk(command.commandId)]
    case Finishes(id, outcome) => [Seen.OpRemember(id, outcome)]
    case _ => []
  }

  lemma {:induction false} RecordingIsNotSeen(a: AgentView, limits: Spool.Limits, readings: seq<Recorded>)
    ensures var b := RecordAll(a, limits, readings);
            && b == a.(next := b.next, spool := b.spool, refused := b.refused)
    decreases readings
  {
    hide Spool.Put;
    if readings != [] {
      RecordingIsNotSeen(Record(a, limits, readings[0].sample, readings[0].at), limits, readings[1..]);
    }
  }

  lemma RunOfOne(m: Seen.Memory, op: Seen.Op)
    ensures Seen.Run(m, Seen.CAPACITY, [op]) == Seen.Apply(m, Seen.CAPACITY, op)
  {
    var rest := [op][1..];
    assert rest == [] && Seen.Run(Seen.Apply(m, Seen.CAPACITY, op), Seen.CAPACITY, rest) == Seen.Apply(m, Seen.CAPACITY, op);
  }

  lemma RunOfTwo(m: Seen.Memory, a: Seen.Op, b: Seen.Op)
    ensures Seen.Run(m, Seen.CAPACITY, [a, b]) == Seen.Apply(Seen.Apply(m, Seen.CAPACITY, a), Seen.CAPACITY, b)
  {
    hide Seen.Apply;
    RunOfOne(Seen.Apply(m, Seen.CAPACITY, a), b);
    assert [a, b][1..] == [b];
  }

  lemma CommandIsUsed(r: Running, limits: Spool.Limits, c: Command, now: real, baselines: seq<Recorded>)
    ensures var (b, outcome, acted) := OnCommand(r.view, limits, c, now, baselines);
            b.seen == Seen.Run(r.view.seen, Seen.CAPACITY, Uses(r, limits, Hears(c, now, baselines)))
  {
    hide Seen.Remember, Seen.MovedToEnd, RecordAll, Takes, MayStream;
    var (b, outcome, acted) := OnCommand(r.view, limits, c, now, baselines);
    var ask, keep := Seen.OpAsk(c.commandId), Seen.OpRemember(c.commandId, outcome);
    if acted && !c.action.DoConfigure? {
      RecordingIsNotSeen(r.view.(grant := Apply(r.view.grant, c, now).0), limits, baselines);
    }
    if acted {
      RunOfTwo(r.view.seen, ask, keep);
    } else {
      RunOfOne(r.view.seen, ask);
    }
  }

  lemma EveryUse(r: Running, limits: Spool.Limits, op: Op)
    ensures Does(r, limits, op).view.seen == Seen.Run(r.view.seen, Seen.CAPACITY, Uses(r, limits, op))
  {
    hide Spool.Put, Spool.Take, Spool.Requeue, DeliveryFor, OnCommand, Seen.Remember;
    match op
    case Hears(c, at, baselines) => CommandIsUsed(r, limits, c, at, baselines);
    case Finishes(id, outcome) => RunOfOne(r.view.seen, Seen.OpRemember(id, outcome));
    case _ =>
  }

  lemma {:induction false} RunStaysWhole(m: Seen.Memory, ops: seq<Seen.Op>)
    requires Seen.Whole(m)
    ensures Seen.Whole(Seen.Run(m, Seen.CAPACITY, ops))
    decreases ops
  {
    hide Seen.Apply, Seen.Whole;
    if ops != [] {
      Seen.ApplyKeepsWhole(m, Seen.CAPACITY, ops[0]);
      RunStaysWhole(Seen.Apply(m, Seen.CAPACITY, ops[0]), ops[1..]);
    }
  }

  /** Whatever a process goes through, its memory of commands is one: each id once, each with an answer. */
  lemma {:induction false} MemoryIsWhole(r: Running, limits: Spool.Limits, ops: seq<Op>)
    requires Seen.Whole(r.view.seen)
    ensures Seen.Whole(Life(r, limits, ops).view.seen)
    decreases ops
  {
    hide Does, Seen.Whole, Uses;
    if ops != [] {
      var before, op := Life(r, limits, ops[..|ops| - 1]), ops[|ops| - 1];
      MemoryIsWhole(r, limits, ops[..|ops| - 1]);
      EveryUse(before, limits, op);
      RunStaysWhole(before.view.seen, Uses(before, limits, op));
    }
  }

  /** A known command is not acted on, so all an operation can do to it is say how it went. */
  lemma StaysKnown(r: Running, limits: Spool.Limits, op: Op, id: Id, outcome: Seen.Outcome, others: set<Id>)
    requires Seen.Known(r.view.seen, id, outcome, others) && |others| < Seen.CAPACITY
    requires IdOf(op).Some? ==> IdOf(op).value == id || IdOf(op).value in others
    ensures Seen.Known(Does(r, limits, op).view.seen, id, if op.Finishes? && op.id == id then op.outcome else outcome, others)
  {
    hide Does, Seen.Known, Seen.Apply, Seen.Run, OnCommand;
    EveryUse(r, limits, op);
    match op
    case Hears(c, at, baselines) => HeardStaysKnown(r, limits, c, at, baselines, id, outcome, others);
    case Finishes(other, said) =>
      RunOfOne(r.view.seen, Seen.OpRemember(other, said));
      Seen.StaysKnown(r.view.seen, Seen.CAPACITY, Seen.OpRemember(other, said), id, outcome, others);
    case _ => NothingUsed(r.view.seen);
  }

  lemma NothingUsed(m: Seen.Memory)
    ensures Seen.Run(m, Seen.CAPACITY, []) == m
  {
  }

  lemma HeardStaysKnown(r: Running, limits: Spool.Limits, c: Command, at: real, baselines: seq<Recorded>,
                        id: Id, outcome: Seen.Outcome, others: set<Id>)
    requires Seen.Known(r.view.seen, id, outcome, others) && |others| < Seen.CAPACITY
    requires c.commandId == id || c.commandId in others
    ensures Seen.Known(Seen.Run(r.view.seen, Seen.CAPACITY, Uses(r, limits, Hears(c, at, baselines))), id, outcome, others)
  {
    hide Seen.Known, Seen.Apply, Seen.Run, OnCommand;
    var (b, answer, acted) := OnCommand(r.view, limits, c, at, baselines);
    var ask, keep := Seen.OpAsk(c.commandId), Seen.OpRemember(c.commandId, answer);
    Seen.StaysKnown(r.view.seen, Seen.CAPACITY, ask, id, outcome, others);
    if acted {
      RunOfTwo(r.view.seen, ask, keep);
      if c.commandId == id {
        KnownIsAnswered(r.view, limits, c, at, baselines, outcome, others);
      }
      Seen.StaysKnown(Seen.Apply(r.view.seen, Seen.CAPACITY, ask), Seen.CAPACITY, keep, id, outcome, others);
    } else {
      RunOfOne(r.view.seen, ask);
    }
  }

  /** A known command is answered as it was, and nothing else is done about it. */
  lemma KnownIsAnswered(a: AgentView, limits: Spool.Limits, c: Command, now: real, baselines: seq<Recorded>,
                        outcome: Seen.Outcome, others: set<Id>)
    requires Seen.Known(a.seen, c.commandId, outcome, others)
    ensures var (after, answer, acted) := OnCommand(a, limits, c, now, baselines);
            !acted && answer == outcome && after == a.(seen := after.seen)
  {
    hide ActOn, Seen.Remember, Seen.MovedToEnd;
  }

  lemma {:induction false} StaysKnownOverALife(r: Running, limits: Spool.Limits, ops: seq<Op>, id: Id,
                                               outcome: Seen.Outcome, others: set<Id>)
    requires Seen.Known(r.view.seen, id, outcome, others) && |others| < Seen.CAPACITY
    requires Others(ops, id) <= others
    ensures Seen.Known(Life(r, limits, ops).view.seen, id, LastAnswer(outcome, ops, id), others)
    decreases ops
  {
    hide Does, Seen.Known;
    if ops != [] {
      var n := |ops| - 1;
      OthersBefore(ops, id, n);
      StaysKnownOverALife(r, limits, ops[..n], id, outcome, others);
      if IdOf(ops[n]).Some? && IdOf(ops[n]).value != id {
        assert IdOf(ops[n]).value in Others(ops, id);
      }
      StaysKnown(Life(r, limits, ops[..n]), limits, ops[n], id, LastAnswer(outcome, ops[..n], id), others);
    }
  }

  /** A configuration that comes while another is being applied. */
  predicate TurnedDown(a: AgentView, c: Command) {
    c.action.DoConfigure? && a.configuring && c.commandId !in a.seen.outcomes
  }

  /** Handling a command makes it known, unless it is a configuration turned down. */
  lemma HandlingMakesKnown(a: AgentView, limits: Spool.Limits, c: Command, now: real, baselines: seq<Recorded>, others: set<Id>)
    requires Seen.Whole(a.seen) && !TurnedDown(a, c)
    ensures var (b, outcome, _) := OnCommand(a, limits, c, now, baselines);
            Seen.Known(b.seen, c.commandId, outcome, others)
  {
    hide Seen.Known, Seen.Whole, Seen.MovedToEnd, Seen.Evict, ActOn, RecordAll;
    var (b, outcome, acted) := OnCommand(a, limits, c, now, baselines);
    var ask, keep := Seen.OpAsk(c.commandId), Seen.OpRemember(c.commandId, outcome);
    CommandIsUsed(Running(a, []), limits, c, now, baselines);
    if acted {
      RunOfTwo(a.seen, ask, keep);
      Seen.ApplyKeepsWhole(a.seen, Seen.CAPACITY, ask);
      Seen.UsedIsKnown(Seen.Apply(a.seen, Seen.CAPACITY, ask), Seen.CAPACITY, keep, outcome, others);
    } else {
      RunOfOne(a.seen, ask);
      Seen.UsedIsKnown(a.seen, Seen.CAPACITY, ask, outcome, others);
    }
  }

  /** A command is acted on at most once. After it has been handled, and while fewer than 256 others are, a
      copy of it changes nothing the process does and is answered as it was answered last: a configuration
      as received until it has been applied, and then by how that went. Only a configuration turned down
      because another was being applied is not remembered. */
  lemma ActedOnOnce(r: Running, limits: Spool.Limits, c: Command, first: real, baselines: seq<Recorded>,
                    between: seq<Op>, again: real, baselines': seq<Recorded>)
    requires Seen.Whole(r.view.seen) && !TurnedDown(r.view, c)
    requires |Others(between, c.commandId)| < Seen.CAPACITY
    ensures var (b, outcome, _) := OnCommand(r.view, limits, c, first, baselines);
            var later := Life(r.(view := b), limits, between).view;
            var (after, answer, acted) := OnCommand(later, limits, c, again, baselines');
            !acted && answer == LastAnswer(outcome, between, c.commandId) && after == later.(seen := after.seen)
  {
    hide OnCommand, Seen.Known, Does, Seen.Whole;
    var (b, outcome, acted) := OnCommand(r.view, limits, c, first, baselines);
    var others := Others(between, c.commandId);
    HandlingMakesKnown(r.view, limits, c, first, baselines, others);
    StaysKnownOverALife(r.(view := b), limits, between, c.commandId, outcome, others);
    KnownIsAnswered(Life(r.(view := b), limits, between).view, limits, c, again, baselines',
                    LastAnswer(outcome, between, c.commandId), others);
  }

  /** Between two configurations that are begun, the first one's thread has let the next one in; and one that
      is turned down leaves no trace, so that it can simply be sent again. */
  lemma {:induction false} OneConfigurationAtATime(r: Running, limits: Spool.Limits, ops: seq<Op>, c: Command, at: real,
                                                   baselines: seq<Recorded>)
    requires r.view.configuring
    requires forall i | 0 <= i < |ops| :: !ops[i].LetsTheNextIn?
    requires c.action.DoConfigure?
    ensures var later := Life(r, limits, ops).view;
            var (after, answer, begun) := OnCommand(later, limits, c, at, baselines);
            && later.configuring && !begun
            && (TurnedDown(later, c) ==> after == later && answer == Seen.Failed)
            && (TurnedDown(later, c) ==> OnCommand(later.(configuring := false), limits, c, at, baselines).2)
    decreases ops
  {
    hide Seen.Remember, Seen.MovedToEnd, Spool.Put, Spool.Take, Spool.Requeue, DeliveryFor, RecordAll;
    if ops != [] {
      var before, op := Life(r, limits, ops[..|ops| - 1]), ops[|ops| - 1];
      OneConfigurationAtATime(r, limits, ops[..|ops| - 1], c, at, baselines);
      if op.Hears? && !op.command.action.DoConfigure? {
        RecordingIsNotSeen(before.view.(grant := Apply(before.view.grant, op.command, op.at).0), limits, op.baselines);
      }
    }
  }

  // -- a grant is never turned back ------------------------------------------------------------------

  predicate HoldsGrant(a: AgentView, grantId: Id) {
    a.grant.Some? && a.grant.value.grantId == grantId
  }

  /** Whether this command could give the grant out. */
  predicate Gives(op: Op, grantId: Id) {
    op.Hears? && op.command.action.DoGrant? && op.command.grantId == Some(grantId)
  }

  /** One operation: whoever holds the grant after it held it before, as far as it was renewed then. */
  lemma HeldBefore(r: Running, limits: Spool.Limits, op: Op, grantId: Id, giver: Id, outcome: Seen.Outcome, others: set<Id>)
    requires Seen.Known(r.view.seen, giver, outcome, others)
    requires Gives(op, grantId) ==> op.command.commandId == giver
    ensures var after := Does(r, limits, op).view;
            HoldsGrant(after, grantId) ==> HoldsGrant(r.view, grantId) && r.view.grant.value.sequence <= after.grant.value.sequence
  {
    hide Seen.Known, Seen.Remember, Seen.MovedToEnd, Spool.Put, Spool.Take, Spool.Requeue, DeliveryFor, RecordAll;
    if op.Hears? {
      if op.command.commandId == giver {
        KnownIsAnswered(r.view, limits, op.command, op.at, op.baselines, outcome, others);
      } else if !op.command.action.DoConfigure? {
        RecordingIsNotSeen(r.view.(grant := Apply(r.view.grant, op.command, op.at).0), limits, op.baselines);
      }
    }
  }

  /** Once the command that gives a grant has been handled, and while fewer than 256 other commands are, the
      grant is only ever lost or renewed for longer, whatever mix of commands comes in whatever order: held
      late, it was held all along and numbered no higher before. Each grant is given by one command. */
  lemma {:induction false} AGrantIsNeverTurnedBack(r: Running, limits: Spool.Limits, c: Command, first: real,
                                                   baselines: seq<Recorded>, ops: seq<Op>, grantId: Id, i: nat, j: nat)
    requires Seen.Whole(r.view.seen) && c.action.DoGrant? && c.grantId == Some(grantId)
    requires i <= j <= |ops| && |Others(ops, c.commandId)| < Seen.CAPACITY
    requires forall k | 0 <= k < |ops| && Gives(ops[k], grantId) :: ops[k].command.commandId == c.commandId
    ensures var start := r.(view := OnCommand(r.view, limits, c, first, baselines).0);
            var early, late := Life(start, limits, ops[..i]).view, Life(start, limits, ops[..j]).view;
            HoldsGrant(late, grantId) ==>
              HoldsGrant(early, grantId) && early.grant.value.sequence <= late.grant.value.sequence
    decreases j
  {
    hide OnCommand, Does, Seen.Known, Seen.Whole, HoldsGrant;
    if i < j {
      var (b, outcome, _) := OnCommand(r.view, limits, c, first, baselines);
      var start := r.(view := b);
      var before := ops[..j - 1];
      AGrantIsNeverTurnedBack(r, limits, c, first, baselines, ops, grantId, i, j - 1);
      var others := Others(ops, c.commandId);
      HandlingMakesKnown(r.view, limits, c, first, baselines, others);
      OthersBefore(ops, c.commandId, j - 1);
      StaysKnownOverALife(start, limits, before, c.commandId, outcome, others);
      HeldBefore(Life(start, limits, before), limits, ops[j - 1], grantId, c.commandId,
                 LastAnswer(outcome, before, c.commandId), others);
      assert ops[..j][..j - 1] == before && ops[..j][j - 1] == ops[j - 1];
    }
  }

  /** What a new command that is not a configuration does to the grant, and what it is answered. A stop and a
      revocation always succeed; a grant must have an id and a time to run, and a renewal name the grant held and be
      numbered above it; a stream is asked for only under a grant of events that is in force, from the hub that gave it.
      A grant that takes another's place is answered with the baselines. */
  lemma WhatACommandDoes(a: AgentView, limits: Spool.Limits, c: Command, now: real, baselines: seq<Recorded>)
    requires c.commandId !in a.seen.outcomes && !c.action.DoConfigure?
    ensures var (after, answer, acted) := OnCommand(a, limits, c, now, baselines);
            var held := a.grant;
            && acted
            && (c.action.DoStop? ==> answer == Seen.Applied && after.grant == held)
            && (c.action.DoRevoke? ==> answer == Seen.Applied && after.grant == None)
            && (c.action.DoStream? ==>
                  && after.grant == held
                  && (c.action.ends ==> answer == Seen.Applied)
                  && (!c.action.ends ==>
                        answer == if held.Some? && now < held.value.expiresAt && held.value.capability == Events
                                     && held.value.hubEpoch == c.hubEpoch then c.action.found else Seen.Failed))
            && (c.action.DoGrant? || c.action.DoRenew? ==>
                  var taken := c.grantId.Some? && c.duration > 0.0
                               && (c.action.DoRenew? ==> held.Some? && Some(held.value.grantId) == c.grantId && held.value.sequence < c.sequence);
                  && answer == (if taken then Seen.Applied else Seen.Failed)
                  && after.grant == (if taken then Some(HeldGrant(c.grantId.value, c.capability, c.hubEpoch, now + c.duration, c.sequence))
                                     else held))
            && var another := after.grant.Some? && (c.action.DoGrant? || c.action.DoRenew?) && answer == Seen.Applied
                              && (held.None? || held.value.grantId != after.grant.value.grantId);
               (after.next, after.spool, after.refused) ==
                 var b := RecordAll(a, limits, if another then baselines else []); (b.next, b.spool, b.refused)
  {
    hide Seen.Remember, Seen.MovedToEnd, Record;
    var held := Apply(a.grant, c, now).0;
    RecordingIgnoresGrants(a, held, limits, baselines);
    RecordingIsNotSeen(a.(grant := held), limits, baselines);
  }

  lemma {:induction false} RecordingIgnoresGrants(a: AgentView, grant: Option<HeldGrant>, limits: Spool.Limits, readings: seq<Recorded>)
    ensures RecordAll(a.(grant := grant), limits, readings) == RecordAll(a, limits, readings).(grant := grant)
    decreases readings
  {
    hide Spool.Put;
    if readings != [] {
      RecordingIgnoresGrants(Record(a, limits, readings[0].sample, readings[0].at), grant, limits, readings[1..]);
    }
  }

  datatype Timed = Timed(command: Command, now: real)

  /** Renewals of one grant, each asking for a while longer. */
  predicate Renewals(grantId: Id, commands: seq<Timed>) {
    forall i | 0 <= i < |commands| ::
      && commands[i].command.action.DoRenew?
      && commands[i].command.grantId == Some(grantId)
      && commands[i].command.duration > 0.0
  }

  function ApplyAll(held: Option<HeldGrant>, commands: seq<Timed>): Option<HeldGrant>
    requires forall i | 0 <= i < |commands| :: !commands[i].command.action.DoConfigure?
    decreases commands
  {
    if commands == [] then held else ApplyAll(Apply(held, commands[0].command, commands[0].now).0, commands[1..])
  }

  function Newest(sequence: nat, commands: seq<Timed>): nat
    decreases commands
  {
    if commands == [] then sequence
    else Newest(if commands[0].command.sequence > sequence then commands[0].command.sequence else sequence, commands[1..])
  }

  /** However renewals are reordered or repeated, what is held ends at the newest of them, and each
      one taken was newer than what it replaced. */
  lemma {:induction false} NewestRenewalWins(g: HeldGrant, commands: seq<Timed>)
    requires Renewals(g.grantId, commands)
    ensures var after := ApplyAll(Some(g), commands);
            && after.Some? && after.value.grantId == g.grantId
            && after.value.sequence == Newest(g.sequence, commands) >= g.sequence
            && (after.value.sequence == g.sequence ==> after.value == g)
    decreases commands
  {
    if commands != [] {
      var next := Apply(Some(g), commands[0].command, commands[0].now).0;
      assert forall i | 0 <= i < |commands| - 1 :: commands[1..][i] == commands[i + 1];
      NewestRenewalWins(next.value, commands[1..]);
    }
  }

  lemma {:induction false} NewestIsNewest(sequence: nat, commands: seq<Timed>)
    ensures Newest(sequence, commands) >= sequence
    ensures forall i | 0 <= i < |commands| :: Newest(sequence, commands) >= commands[i].command.sequence
    ensures Newest(sequence, commands) == sequence
         || exists i :: 0 <= i < |commands| && Newest(sequence, commands) == commands[i].command.sequence
    decreases commands
  {
    if commands != [] {
      var s := if commands[0].command.sequence > sequence then commands[0].command.sequence else sequence;
      assert forall i | 0 <= i < |commands| - 1 :: commands[1..][i] == commands[i + 1];
      NewestIsNewest(s, commands[1..]);
    }
  }

  // -- nothing recorded is lost unseen ------------------------------------------------------------------

  /** Everything a process has made of its readings: sent, refused, still held, or dropped and counted. */
  function Tally(a: AgentView): nat {
    a.published + a.refused + |a.spool.items| + a.spool.drops.Total()
  }

  ghost predicate Fitting(a: AgentView) {
    a.spool.bytes == Spool.Sizes(a.spool.items)
  }

  lemma RecordTallies(a: AgentView, limits: Spool.Limits, s: Sample, now: real)
    requires Fitting(a)
    ensures Fitting(Record(a, limits, s, now)) && Tally(Record(a, limits, s, now)) == Tally(a) + 1
  {
    hide Spool.Put, Spool.Sizes;
    if s.fit.Sendable? {
      var lost := Spool.PutKeepsTheNewest(a.spool, limits, Spool.Held(EventOf(a, s), s.size, now, s.initial), now);
    }
  }

  lemma {:induction false} RecordAllTallies(a: AgentView, limits: Spool.Limits, readings: seq<Recorded>)
    requires Fitting(a)
    ensures Fitting(RecordAll(a, limits, readings)) && Tally(RecordAll(a, limits, readings)) == Tally(a) + |readings|
    decreases readings
  {
    hide Record, Tally, Fitting;
    if readings != [] {
      RecordTallies(a, limits, readings[0].sample, readings[0].at);
      RecordAllTallies(Record(a, limits, readings[0].sample, readings[0].at), limits, readings[1..]);
    }
  }

  lemma SendTallies(a: AgentView, limits: Spool.Limits, held: Spool.Held<Event>, t: Attempt)
    requires Fitting(a)
    ensures var (b, sent) := Send(a, limits, held, t);
            && Fitting(b) && Tally(b) == Tally(a) + 1
            && b.published == a.published + (if sent.Some? then 1 else 0)
            && (sent.Some? ==> sent.value.event == held.item && DeliveryFor(a, held, t) == Some(sent.value.delivery))
  {
    hide Spool.Requeue, Spool.Sizes, DeliveryFor;
    Spool.RequeueKeepsTheOldest(a.spool, limits, held);
  }

  lemma TakeTallies(a: AgentView, limits: Spool.Limits, granted: real, taken: real)
    requires Fitting(a)
    ensures var (b, batch) := TakeBatch(a, limits, granted, taken);
            && Fitting(b) && Tally(b) + |batch| == Tally(a) && b.published == a.published
            && (!Granted(a, granted) ==> batch == [] && b == a)
            && forall held | held in batch :: held in a.spool.items
  {
    hide Spool.Take, Spool.Sizes;
    if Granted(a, granted) {
      var lost := Spool.TakeHandsOutTheOldest(a.spool, limits, 8, taken);
      var (b, batch) := TakeBatch(a, limits, granted, taken);
      assert |a.spool.items[lost..]| == |batch| + |b.spool.items|;
      forall held | held in batch ensures held in a.spool.items {
        assert held in batch + b.spool.items;
      }
    }
  }

  /** The readings one operation takes: one, or the baselines of a fresh grant. */
  function TakenBy(r: Running, op: Op): seq<Recorded> {
    match op
    case Read(sample, at) => [Recorded(sample, at)]
    case Hears(c, at, baselines) =>
      if c.commandId !in r.view.seen.outcomes && !c.action.DoConfigure? && Fresh(r.view.grant, c) then baselines else []
    case _ => []
  }

  /** Everything a process has read, in order. */
  function AllRead(r: Running, limits: Spool.Limits, ops: seq<Op>): seq<Recorded>
    decreases ops
  {
    if ops == [] then []
    else
      var before := ops[..|ops| - 1];
      AllRead(r, limits, before) + TakenBy(Life(r, limits, before), ops[|ops| - 1])
  }

  lemma CommandTallies(a: AgentView, limits: Spool.Limits, c: Command, now: real, baselines: seq<Recorded>)
    requires Fitting(a)
    ensures var b := OnCommand(a, limits, c, now, baselines).0;
            Fitting(b) && Tally(b) == Tally(a) + |TakenBy(Running(a, []), Hears(c, now, baselines))|
  {
    hide Seen.Remember, Seen.MovedToEnd, Spool.Sizes, RecordAll;
    if !c.action.DoConfigure? {
      RecordAllTallies(a.(grant := Apply(a.grant, c, now).0), limits, baselines);
    }
  }

  lemma OpTallies(r: Running, limits: Spool.Limits, op: Op)
    requires Fitting(r.view)
    ensures var after := Does(r, limits, op);
            Fitting(after.view) && Tally(after.view) + |after.hand| == Tally(r.view) + |r.hand| + |TakenBy(r, op)|
  {
    match op
    case Read(sample, at) => RecordTallies(r.view, limits, sample, at);
    case TakeUp(granted, taken) => hide Spool.Take, Spool.Sizes, Fitting; TakeTallies(r.view, limits, granted, taken);
    case SendNext(attempt) =>
      hide Send, Fitting;
      if r.hand != [] {
        SendTallies(r.view, limits, r.hand[0], attempt);
      }
    case Hears(c, at, baselines) => hide OnCommand, Fitting; CommandTallies(r.view, limits, c, at, baselines);
    case _ =>
  }

  /** Over a whole life of a process, whatever comes between one send and the next, whatever the link does
      and whatever grants come and go: every reading taken has been sent, refused, dropped and counted, is
      still held, or is in the network thread's hand. */
  lemma {:induction false} EveryReadingIsAccountedFor(node: NodeId, boot: Id, connection: Id, limits: Spool.Limits, ops: seq<Op>)
    ensures var r, start := Life(Begun(node, boot, connection), limits, ops), Begun(node, boot, connection);
            Fitting(r.view) && Tally(r.view) + |r.hand| == |AllRead(start, limits, ops)|
    decreases ops
  {
    hide Does, Fitting, Tally, TakenBy;
    if ops == [] {
      NothingYet(node, boot, connection);
    } else {
      EveryReadingIsAccountedFor(node, boot, connection, limits, ops[..|ops| - 1]);
      OpTallies(Life(Begun(node, boot, connection), limits, ops[..|ops| - 1]), limits, ops[|ops| - 1]);
    }
  }

  lemma NothingYet(node: NodeId, boot: Id, connection: Id)
    ensures Fitting(Booted(node, boot, connection)) && Tally(Booted(node, boot, connection)) == 0
  {
  }

  // -- a round of the network thread ----------------------------------------------------------------------

  function Sends(attempts: seq<Attempt>): seq<Op> {
    seq(|attempts|, i requires 0 <= i < |attempts| => SendNext(attempts[i]))
  }

  lemma {:induction false} LifeGoesOn(r: Running, limits: Spool.Limits, a: seq<Op>, b: seq<Op>)
    ensures Life(r, limits, a + b) == Life(Life(r, limits, a), limits, b)
    decreases b
  {
    hide Does;
    if b == [] {
      assert a + b == a;
    } else {
      assert (a + b)[..|a + b| - 1] == a + b[..|b| - 1];
      LifeGoesOn(r, limits, a, b[..|b| - 1]);
    }
  }

  lemma {:induction false} BatchIsItsSends(a: AgentView, limits: Spool.Limits, batch: seq<Spool.Held<Event>>, attempts: seq<Attempt>)
    requires |attempts| == |batch|
    ensures Life(Running(a, batch), limits, Sends(attempts)) == Running(SendBatch(a, limits, batch, attempts).0, [])
    decreases batch
  {
    hide Send;
    if batch != [] {
      var one := [SendNext(attempts[0])];
      assert Sends(attempts) == one + Sends(attempts[1..]);
      LifeGoesOn(Running(a, batch), limits, one, Sends(attempts[1..]));
      assert Life(Running(a, batch), limits, one) == Running(Send(a, limits, batch[0], attempts[0]).0, batch[1..]) by {
        assert one[..0] == [] && Life(Running(a, batch), limits, one[..0]) == Running(a, batch);
      }
      BatchIsItsSends(Send(a, limits, batch[0], attempts[0]).0, limits, batch[1..], attempts[1..]);
    }
  }

  /** A round is one taking up and its sends, with nothing else between them; it settles what it took, sends
      nothing without a grant, and only what was held. */
  lemma RoundIsItsSteps(a: AgentView, limits: Spool.Limits, granted: real, taken: real, attempts: seq<Attempt>)
    requires |attempts| == 8 && Fitting(a)
    ensures var (b, sent) := Round(a, limits, granted, taken, attempts);
            var batch := TakeBatch(a, limits, granted, taken).1;
            && Life(Running(a, []), limits, [TakeUp(granted, taken)] + Sends(attempts[..|batch|])) == Running(b, [])
            && Tally(b) == Tally(a) && b.published == a.published + |sent|
            && (!Granted(a, granted) ==> sent == [] && b == a)
            && forall e | e in sent :: exists held | held in a.spool.items :: held.item == e.event
  {
    hide TakeBatch, SendBatch, Fitting, Tally;
    var (took, batch) := TakeBatch(a, limits, granted, taken);
    var one := [TakeUp(granted, taken)];
    LifeGoesOn(Running(a, []), limits, one, Sends(attempts[..|batch|]));
    assert Life(Running(a, []), limits, one) == Running(took, batch) by {
      assert one[..0] == [] && Life(Running(a, []), limits, one[..0]) == Running(a, []);
    }
    BatchIsItsSends(took, limits, batch, attempts[..|batch|]);
    TakeTallies(a, limits, granted, taken);
    BatchTallies(took, limits, batch, attempts[..|batch|]);
    NothingToSend(a, limits);
  }

  lemma {:induction false} BatchTallies(a: AgentView, limits: Spool.Limits, batch: seq<Spool.Held<Event>>, attempts: seq<Attempt>)
    requires Fitting(a) && |attempts| == |batch|
    ensures var (b, sent) := SendBatch(a, limits, batch, attempts);
            && Fitting(b) && Tally(b) == Tally(a) + |batch| && b.published == a.published + |sent|
            && forall e | e in sent :: exists held | held in batch :: held.item == e.event
    decreases batch
  {
    hide Send, Tally, Fitting;
    if batch != [] {
      SendTallies(a, limits, batch[0], attempts[0]);
      var (b, one) := Send(a, limits, batch[0], attempts[0]);
      BatchTallies(b, limits, batch[1..], attempts[1..]);
      var (c, more) := SendBatch(b, limits, batch[1..], attempts[1..]);
      forall e | e in (if one.Some? then [one.value] else []) + more ensures exists held | held in batch :: held.item == e.event {
        if e in more {
          var held :| held in batch[1..] && held.item == e.event;
          assert held in batch;
        } else {
          assert batch[0] in batch;
        }
      }
    }
  }

  lemma NothingToSend(a: AgentView, limits: Spool.Limits)
    ensures SendBatch(a, limits, [], []) == (a, [])
  {
  }

  // -- what is history ----------------------------------------------------------------------------------

  /** The part of its wait that a message, told in whole milliseconds, leaves out. */
  function Untold(held: Spool.Held<Event>, asked: real): real {
    (asked - held.queuedAt) - (QueuedMs(held, asked) as real) / 1000.0
  }

  /** Exactly when a message goes out as a replay: it was waiting for the link for longer than the clock ran
      between its two readings and the part of a millisecond that is not told. So one queued since the link
      came up never does, and one queued before it by a millisecond and what passed between the readings
      always does. */
  lemma HistoryIsWhatWaitedForTheLink(a: AgentView, held: Spool.Held<Event>, t: Attempt)
    requires held.queuedAt <= t.asked <= t.marked
    ensures Replayed(a, held, t) <==> a.linkedAt - held.queuedAt > (t.marked - t.asked) + Untold(held, t.asked)
    ensures 0.0 <= Untold(held, t.asked) < 0.001
    ensures held.queuedAt >= a.linkedAt ==> !Replayed(a, held, t)
    ensures a.linkedAt - held.queuedAt >= (t.marked - t.asked) + 0.001 ==> Replayed(a, held, t)
  {
    var waited := (t.asked - held.queuedAt) * 1000.0;
    assert waited.Floor as real <= waited < waited.Floor as real + 1.0;
  }

  /** In between, what waited for the link may pass for news: here by five milliseconds, because the second
      reading of the clock came more than five after the first. */
  lemma ASlowSecondReadingMissesIt(a: AgentView, item: Event, limits: Spool.Limits)
    requires a.linkedAt == 1.005 && a.grant.Some? && InForce(a.grant.value, 1.011)
    ensures var held := Spool.Held(item, 1, 1.0, false);
            var sent := Send(a, limits, held, Attempt(1.0055, 1.011, 1.011, Took)).1;
            sent.Some? && !sent.value.delivery.replayed && sent.value.delivery.queuedMs == 5
  {
    assert ((1.0055 - 1.0) * 1000.0).Floor == 5;
  }
}
