/** What holds of the session table over time: no grant lapses while rounds are timely, and what the table says of
    every node is told by what was heard of it.
  */
module SessionProofs {
  import opened Wrappers
  import opened Wire
  import opened Sessions

  // -- a grant is renewed before it lapses ---------------------------------------------------

  /** What happens to the table over time. Housekeeping is the round; the rest is traffic. */
  datatype Op =
    | OpHello(node: NodeId, hello: Hello, granted: bool, epoch: nat, grantId: Id, at: real)
    | OpClose(node: NodeId, at: real)
    | OpHeartbeat(node: NodeId, at: real)
    | OpRound(at: real)
    | OpRestart(at: real)
    | OpElsewhere(at: real)   // whatever the table has no part in

  datatype Clocked = Clocked(table: Table, now: real, lastRound: real)

  function Moved(t: Table, settings: Settings, op: Op): Table {
    match op
    case OpHello(node, hello, granted, epoch, grantId, at) => Greeted(t, settings, node, hello, granted, epoch, grantId, at)
    case OpClose(node, at) => Closed(t, node, None)
    case OpHeartbeat(node, at) => Heard(t, node, at)
    case OpRound(at) => AfterRound(t, settings, at)
    case OpRestart(at) => map[]
    case OpElsewhere(at) => t
  }

  function Apply(c: Clocked, settings: Settings, op: Op): Clocked {
    Clocked(Moved(c.table, settings, op), op.at, if op.OpRound? then op.at else c.lastRound)
  }

  /** Time does not go back, and no more than `interval` passes without a round. */
  predicate Timely(c: Clocked, interval: real, at: real) {
    c.now <= at <= c.lastRound + interval
  }

  function Run(c: Clocked, settings: Settings, ops: seq<Op>): Clocked
    decreases ops
  {
    if ops == [] then c else Run(Apply(c, settings, ops[0]), settings, ops[1..])
  }

  ghost predicate AllTimely(c: Clocked, settings: Settings, interval: real, ops: seq<Op>)
    decreases ops
  {
    ops == [] || (Timely(c, interval, ops[0].at) && AllTimely(Apply(c, settings, ops[0]), settings, interval, ops[1..]))
  }

  /** No grant of an open session lapses before the next round has to come. */
  ghost predicate Covered(c: Clocked, settings: Settings) {
    && c.lastRound <= c.now
    && forall h: Held | Holds(c.table, h) :: GrantOf(c.table, h).expiresAt > c.lastRound + settings.renewEverySeconds
  }

  lemma StaysCovered(c: Clocked, settings: Settings, op: Op)
    requires settings.Valid() && Covered(c, settings) && Timely(c, settings.renewEverySeconds, op.at)
    ensures Covered(Apply(c, settings, op), settings)
  {
    var after := Apply(c, settings, op);
    forall h: Held | Holds(after.table, h)
      ensures GrantOf(after.table, h).expiresAt > after.lastRound + settings.renewEverySeconds
    {
      if !(op.OpHello? && h.0 == op.node && OpensASession(c.table, op.node, op.hello)) {
        assert Holds(c.table, h);
      }
    }
  }

  /** While rounds come at most the renewal interval apart, every grant an open session holds is
      live at every moment up to the latest the next round may come. */
  lemma {:induction false} GrantsNeverLapse(c: Clocked, settings: Settings, ops: seq<Op>, h: Held, moment: real)
    requires settings.Valid() && Covered(c, settings) && AllTimely(c, settings, settings.renewEverySeconds, ops)
    requires var end := Run(c, settings, ops); Holds(end.table, h) && Timely(end, settings.renewEverySeconds, moment)
    ensures LiveAt(GrantOf(Run(c, settings, ops).table, h), moment)
    decreases ops
  {
    hide Holds, Apply, GrantOf, Covered;
    if ops == [] {
      CoveredIsLive(c, settings, h, moment);
    } else {
      StaysCovered(c, settings, ops[0]);
      GrantsNeverLapse(Apply(c, settings, ops[0]), settings, ops[1..], h, moment);
    }
  }

  lemma CoveredIsLive(c: Clocked, settings: Settings, h: Held, moment: real)
    requires Covered(c, settings) && Holds(c.table, h) && Timely(c, settings.renewEverySeconds, moment)
    ensures LiveAt(GrantOf(c.table, h), moment)
  {
  }

  function Opening(settings: Settings): Clocked {
    Apply(Clocked(map[], 0.0, 0.0), settings, OpHello("n", Hello(Some("c"), None, true), true, 1, "g", 0.0))
  }

  /** So many rounds, the first of them at `at`. */
  function Rounds(at: real, interval: real, n: nat): seq<Op>
    decreases n
  {
    if n == 0 then [] else [OpRound(at)] + Rounds(at + interval, interval, n - 1)
  }

  lemma EarlyRoundChangesNothing(settings: Settings, at: real)
    requires at < settings.grantSeconds - settings.renewEverySeconds
    ensures AfterRound(Opening(settings).table, settings, at) == Opening(settings).table
  {
    var t := Opening(settings).table;
    assert t["n"].grants == SessionAfterRound(t["n"], settings, at).grants;
  }

  lemma {:induction false} EarlyRoundsChangeNothing(c: Clocked, settings: Settings, at: real, interval: real, n: nat)
    requires c.table == Opening(settings).table && 0.0 < interval
    requires Timely(c, interval, at) && at + n as real * interval < settings.grantSeconds - settings.renewEverySeconds
    ensures var ops := Rounds(at, interval, n + 1);
            && AllTimely(c, settings, interval, ops)
            && var last := at + n as real * interval;
               Run(c, settings, ops) == Clocked(c.table, last, last)
    decreases n
  {
    hide AfterRound, Opening;
    var ops := Rounds(at, interval, n + 1);
    var next := Apply(c, settings, OpRound(at));
    EarlyRoundChangesNothing(settings, at);
    assert ops[1..] == Rounds(at + interval, interval, n);
    if n > 0 {
      EarlyRoundsChangeNothing(next, settings, at + interval, interval, n - 1);
    }
  }

  /** The interval cannot be loosened by anything: with rounds as little as that further apart, there is a run
      in which the grant of an open session lapses before the next round has to come. */
  lemma LateRoundLetsAGrantLapse(settings: Settings, interval: real) returns (ops: seq<Op>, moment: real)
    requires settings.Valid() && interval > settings.renewEverySeconds
    ensures AllTimely(Opening(settings), settings, interval, ops)
    ensures var end := Run(Opening(settings), settings, ops);
            && Timely(end, interval, moment)
            && Holds(end.table, ("n", Events)) && !LiveAt(GrantOf(end.table, ("n", Events)), moment)
  {
    moment := settings.grantSeconds;
    if interval >= settings.grantSeconds {
      ops := [];
    } else {
      var last := settings.grantSeconds - (settings.renewEverySeconds + interval) / 2.0;
      var n := (last / interval).Floor;
      assert n >= 0 && 0.0 <= last - n as real * interval <= interval by {
        FloorOf(last, interval);
      }
      ops := Rounds(last - n as real * interval, interval, n + 1);
      EarlyRoundsChangeNothing(Opening(settings), settings, last - n as real * interval, interval, n);
    }
  }

  lemma FloorOf(a: real, b: real)
    requires a >= 0.0 && b > 0.0
    ensures var n := (a / b).Floor; n >= 0 && 0.0 <= a - n as real * b <= b
  {
    var n := (a / b).Floor;
    Over(a, b);
    Between(a, b, a / b, n as real);
  }

  lemma Between(a: real, b: real, q: real, n: real)
    requires b > 0.0 && n <= q <= n + 1.0 && q * b == a
    ensures 0.0 <= a - n * b && a - n * b <= b
  {
    var d := q - n;
    assert a - n * b == d * b;
    assert d * b >= 0.0;
    assert d * b + (1.0 - d) * b == b;
    assert (1.0 - d) * b >= 0.0;
  }

  lemma Over(a: real, b: real)
    requires b != 0.0
    ensures a / b * b == a
  {
  }

  // -- what the table says, told by what was heard ------------------------------------------------------

  function TableAfter(settings: Settings, ops: seq<Op>, i: nat): Table
    requires i <= |ops|
    decreases i
  {
    if i == 0 then map[] else Moved(TableAfter(settings, ops, i - 1), settings, ops[i - 1])
  }

  /** What a hello calls its connection; "unknown" when it does not say. */
  function Calls(hello: Hello): Id {
    if hello.connection.None? || hello.connection.value == "" then "unknown" else hello.connection.value
  }

  /** The hello a node's session began at, if before operation `i` it has one: it came, and has not said goodbye on
      that connection, been closed, come again as another connection or another boot, or seen the hub restart. A
      goodbye that names an older connection ends nothing. */
  function Standing(ops: seq<Op>, node: NodeId, i: nat): (came: Option<nat>)
    requires i <= |ops|
    ensures came.Some? ==> came.value < i && ops[came.value].OpHello? && ops[came.value].node == node
    decreases i
  {
    if i == 0 then None
    else
      var before, op := Standing(ops, node, i - 1), ops[i - 1];
      if op.OpRestart? then None
      else if op.OpClose? && op.node == node then None
      else if op.OpHello? && op.node == node then
        if !op.hello.online then
          if before.Some? && (op.hello.connection.None? || op.hello.connection.value == Calls(ops[before.value].hello)) then None
          else before
        else if before.Some? && op.hello.connection == Some(Calls(ops[before.value].hello))
                && op.hello.boot == ops[before.value].hello.boot then before
        else Some(i - 1)
      else before
  }

  /** When the grant of the session that began at `o` was last issued, and how often it was renewed by then: at each
      round that found no more than the renewal interval left of it. */
  datatype Issue = Issue(at: real, renewals: nat)

  function LastIssue(settings: Settings, ops: seq<Op>, o: nat, i: nat): Issue
    requires o < i <= |ops|
    decreases i
  {
    if i == o + 1 then Issue(ops[o].at, 0)
    else
      var before, op := LastIssue(settings, ops, o, i - 1), ops[i - 1];
      if op.OpRound? && op.at >= before.at + settings.grantSeconds - settings.renewEverySeconds then Issue(op.at, before.renewals + 1)
      else before
  }

  /** When a node was last heard of in the session that began at `o`. */
  function LastHeard(ops: seq<Op>, o: nat, i: nat): real
    requires o < i <= |ops| && ops[o].OpHello?
    decreases i
  {
    if i == o + 1 then ops[o].at
    else if ops[i - 1].OpHeartbeat? && ops[i - 1].node == ops[o].node then ops[i - 1].at
    else LastHeard(ops, o, i - 1)
  }

  /** What the hub has of a node: nothing open, or the session it came with, under the number it was stamped with
      then, and the grant given then as it was last renewed. */
  ghost predicate TableTells(settings: Settings, t: Table, ops: seq<Op>, node: NodeId, i: nat)
    requires i <= |ops|
  {
    var came := Standing(ops, node, i);
    if came.None? then Current(t, node).None?
    else
      var o, issue := ops[came.value], LastIssue(settings, ops, came.value, i);
      && node in t && !t[node].closed
      && t[node].node == node && t[node].connection == Calls(o.hello) && t[node].boot == o.hello.boot && t[node].hubEpoch == o.epoch
      && t[node].openedAt == o.at && t[node].lastSeen == LastHeard(ops, came.value, i)
      && t[node].grants == if !o.granted then map[]
                           else map[Events := Grant(o.grantId, node, Events, o.epoch, issue.at, issue.at + settings.grantSeconds, issue.renewals)]
  }

  lemma HelloTells(settings: Settings, t: Table, ops: seq<Op>, node: NodeId, i: nat)
    requires i < |ops| && TableTells(settings, t, ops, node, i) && ops[i].OpHello?
    ensures TableTells(settings, Moved(t, settings, ops[i]), ops, node, i + 1)
  {
  }

  lemma RoundTells(settings: Settings, t: Table, ops: seq<Op>, node: NodeId, i: nat)
    requires i < |ops| && TableTells(settings, t, ops, node, i) && ops[i].OpRound?
    ensures TableTells(settings, Moved(t, settings, ops[i]), ops, node, i + 1)
  {
    if Standing(ops, node, i).Some? {
      var s := SessionAfterRound(t[node], settings, ops[i].at);
      assert s.grants.Keys == t[node].grants.Keys;
      if ops[Standing(ops, node, i).value].granted {
        assert s.grants == map[Events := s.grants[Events]];
      } else {
        assert s.grants == map[];
      }
    }
  }

  lemma OtherOpTells(settings: Settings, t: Table, ops: seq<Op>, node: NodeId, i: nat)
    requires i < |ops| && TableTells(settings, t, ops, node, i) && !ops[i].OpHello? && !ops[i].OpRound?
    ensures TableTells(settings, Moved(t, settings, ops[i]), ops, node, i + 1)
  {
  }

  /** In every history of hellos, goodbyes, closings, heartbeats, rounds and restarts, for every node. */
  lemma {:induction false} TheTableTells(settings: Settings, ops: seq<Op>, node: NodeId, i: nat)
    requires i <= |ops|
    ensures TableTells(settings, TableAfter(settings, ops, i), ops, node, i)
    decreases i
  {
    hide TableTells, Moved;
    if i == 0 {
      NobodyYet(settings, ops, node);
    } else {
      var t := TableAfter(settings, ops, i - 1);
      TheTableTells(settings, ops, node, i - 1);
      if ops[i - 1].OpHello? {
        HelloTells(settings, t, ops, node, i - 1);
      } else if ops[i - 1].OpRound? {
        RoundTells(settings, t, ops, node, i - 1);
      } else {
        OtherOpTells(settings, t, ops, node, i - 1);
      }
    }
  }

  lemma NobodyYet(settings: Settings, ops: seq<Op>, node: NodeId)
    ensures TableTells(settings, map[], ops, node, 0)
  {
  }

  // -- the door ------------------------------------------------------------------------------------------

  /** Who may come in: a node that stands, on the connection it came with, under the number its session was stamped
      with if it names one, with the grant it was given then, less than its lifetime after that was last issued. */
  predicate Welcome(settings: Settings, ops: seq<Op>, i: nat, node: NodeId, connection: Option<Id>, hubEpoch: Option<nat>,
                    grantId: Option<Id>, now: real)
    requires i <= |ops|
  {
    var came := Standing(ops, node, i);
    && came.Some?
    && connection == Some(Calls(ops[came.value].hello))
    && (hubEpoch.Some? ==> hubEpoch.value == ops[came.value].epoch)
    && ops[came.value].granted && grantId == Some(ops[came.value].grantId)
    && now < LastIssue(settings, ops, came.value, i).at + settings.grantSeconds
  }

  /** In every history, at every moment: an event may come in exactly if all of that holds. */
  lemma WhoMayEnter(settings: Settings, ops: seq<Op>, i: nat, node: NodeId, connection: Option<Id>, hubEpoch: Option<nat>,
                    grantId: Option<Id>, now: real)
    requires i <= |ops|
    ensures MayEnter(TableAfter(settings, ops, i), node, connection, hubEpoch, grantId, now)
       <==> Welcome(settings, ops, i, node, connection, hubEpoch, grantId, now)
  {
    hide TableAfter, LastIssue, Standing;
    TheTableTells(settings, ops, node, i);
  }

  // -- one grant, renewed ----------------------------------------------------------------------------------

  lemma {:induction false} TheSameComing(ops: seq<Op>, node: NodeId, o: nat, i: nat, j: nat)
    requires o < i <= j <= |ops| && Standing(ops, node, j) == Some(o)
    ensures Standing(ops, node, i) == Some(o)
    decreases j
  {
    if i < j {
      StandsBefore(ops, node, o, j);
      TheSameComing(ops, node, o, i, j - 1);
    }
  }

  lemma StandsBefore(ops: seq<Op>, node: NodeId, o: nat, j: nat)
    requires o + 1 < j <= |ops| && Standing(ops, node, j) == Some(o)
    ensures Standing(ops, node, j - 1) == Some(o)
  {
  }

  lemma {:induction false} RenewalsOnlyRise(settings: Settings, ops: seq<Op>, o: nat, i: nat, j: nat)
    requires o < i <= j <= |ops|
    ensures LastIssue(settings, ops, o, i).renewals <= LastIssue(settings, ops, o, j).renewals
    decreases j
  {
    if i < j {
      RenewalsOnlyRise(settings, ops, o, i, j - 1);
    }
  }

  /** A round that finds the grant of a standing node due. */
  predicate Renews(settings: Settings, ops: seq<Op>, node: NodeId, i: nat)
    requires i < |ops|
  {
    && ops[i].OpRound?
    && Standing(ops, node, i).Some? && ops[Standing(ops, node, i).value].granted
    && ops[i].at >= LastIssue(settings, ops, Standing(ops, node, i).value, i).at + settings.grantSeconds - settings.renewEverySeconds
  }

  /** In every history, as long as a node's session stands, its grant keeps its id, its capability and its number;
      and every round that renews it makes it last its whole lifetime from then and counts it, so that it is
      numbered above all it was before. */
  lemma ARenewalIsNewer(settings: Settings, ops: seq<Op>, node: NodeId, i: nat, earlier: nat)
    requires earlier <= i < |ops| && Renews(settings, ops, node, i) && Standing(ops, node, i).value < earlier
    ensures var before, after := TableAfter(settings, ops, earlier), TableAfter(settings, ops, i + 1);
            && Holds(before, (node, Events)) && Holds(after, (node, Events))
            && var g, h := GrantOf(before, (node, Events)), GrantOf(after, (node, Events));
               && h.grantId == g.grantId && h.capability == g.capability == Events && h.hubEpoch == g.hubEpoch
               && h.issuedAt == ops[i].at && h.expiresAt == ops[i].at + settings.grantSeconds
               && h.sequence > g.sequence
  {
    hide TableAfter, LastIssue, Standing;
    var o := Standing(ops, node, i).value;
    TheSameComing(ops, node, o, earlier, i);
    RenewedIsTold(settings, ops, node, i);
    RenewalsOnlyRise(settings, ops, o, earlier, i);
    TheTableTells(settings, ops, node, earlier);
    TheTableTells(settings, ops, node, i + 1);
  }

  lemma RenewedIsTold(settings: Settings, ops: seq<Op>, node: NodeId, i: nat)
    requires i < |ops| && Renews(settings, ops, node, i)
    ensures var o := Standing(ops, node, i).value;
            && Standing(ops, node, i + 1) == Some(o)
            && LastIssue(settings, ops, o, i + 1) == Issue(ops[i].at, LastIssue(settings, ops, o, i).renewals + 1)
  {
  }

  /** And it is renewed by exactly those rounds: what a round finds due of open sessions is what is told due. */
  lemma DueIsTold(settings: Settings, ops: seq<Op>, h: Held, i: nat)
    requires i < |ops| && ops[i].OpRound?
    ensures h in Due(TableAfter(settings, ops, i), settings, ops[i].at) <==> h.1 == Events && Renews(settings, ops, h.0, i)
  {
    hide TableAfter, LastIssue, Standing;
    TheTableTells(settings, ops, h.0, i);
  }
}
