/** How many events a node may send, and all nodes together: a bucket for each and one for
    everybody, refilled by the clock. The buckets are stored lazily, with the time they were last
    touched. `Ideal` is the simple form they refine: every bucket refilled all the time.
  */
module RateLimiter {
  import opened Wire

  datatype Limits = Limits(perNode: real, total: real)

  datatype Bucket = Bucket(level: real, filledAt: real)

  datatype Buckets = Buckets(nodes: map<NodeId, Bucket>, shared: Bucket)

  datatype Answer = Pass | OverNode | OverHub

  function Least(a: real, b: real): real {
    if a <= b then a else b
  }

  /** What a bucket of this capacity gains in some seconds. */
  function Gain(capacity: real, seconds: real): real {
    seconds * capacity / 60.0
  }

  /** What is in a bucket at some moment after it was last touched. */
  function LevelAt(b: Bucket, capacity: real, now: real): real {
    Least(capacity, b.level + Gain(capacity, now - b.filledAt))
  }

  function NodeBucket(limits: Limits, s: Buckets, node: NodeId, now: real): Bucket {
    if node in s.nodes then s.nodes[node] else Bucket(limits.perNode, now)
  }

  function Fresh(limits: Limits, now: real): Buckets {
    Buckets(map[], Bucket(limits.total, now))
  }

  function Allow(limits: Limits, s: Buckets, node: NodeId, now: real): (Buckets, Answer) {
    var level := LevelAt(NodeBucket(limits, s, node, now), limits.perNode, now);
    var sharedLevel := LevelAt(s.shared, limits.total, now);
    if level < 1.0 then (s.(nodes := s.nodes[node := Bucket(level, now)]), OverNode)
    else if sharedLevel < 1.0 then (s.(shared := Bucket(sharedLevel, now)), OverHub)
    else (Buckets(s.nodes[node := Bucket(level - 1.0, now)], Bucket(sharedLevel - 1.0, now)), Pass)
  }

  class Limiter {
    const perNode: real
    const total: real
    var buckets: map<NodeId, Bucket>
    var shared: Bucket

    function Now(): Buckets
      reads this
    {
      Buckets(buckets, shared)
    }

    function Budgets(): Limits {
      Limits(perNode, total)
    }

    constructor (limits: Limits, now: real)
      ensures Budgets() == limits && Now() == Fresh(limits, now)
    {
      perNode, total := limits.perNode, limits.total;
      buckets, shared := map[], Bucket(limits.total, now);
    }

    method Draw(b: Bucket, capacity: real, now: real) returns (ok: bool, level: real)
      ensures ok == (LevelAt(b, capacity, now) >= 1.0)
      ensures level == LevelAt(b, capacity, now) - if ok then 1.0 else 0.0
    {
      var filled := b.level + (now - b.filledAt) * capacity / 60.0;
      level := if capacity <= filled then capacity else filled;
      if level < 1.0 {
        return false, level;
      }
      return true, level - 1.0;
    }

    method AllowEvent(node: NodeId, now: real) returns (answer: Answer)
      modifies this
      ensures (Now(), answer) == Allow(Budgets(), old(Now()), node, now)
    {
      var own := if node in buckets then buckets[node] else Bucket(perNode, now);
      var ok, level := Draw(own, perNode, now);
      if !ok {
        buckets := buckets[node := Bucket(level, now)];
        return OverNode;
      }
      var sharedOk, sharedLevel := Draw(shared, total, now);
      if !sharedOk {
        shared := Bucket(sharedLevel, now);
        return OverHub;
      }
      buckets := buckets[node := Bucket(level, now)];
      shared := Bucket(sharedLevel, now);
      return Pass;
    }
  }

  // -- histories -----------------------------------------------------------------------------------

  datatype Call = Call(node: NodeId, at: real)

  /** Calls on a clock that never goes back. */
  predicate InOrder(calls: seq<Call>, since: real) {
    && (forall i | 0 <= i < |calls| :: since <= calls[i].at)
    && (forall i, j | 0 <= i < j < |calls| :: calls[i].at <= calls[j].at)
  }

  function Answers(limits: Limits, s: Buckets, calls: seq<Call>): (answers: seq<Answer>)
    ensures |answers| == |calls|
    decreases calls
  {
    if calls == [] then []
    else
      var (t, answer) := Allow(limits, s, calls[0].node, calls[0].at);
      [answer] + Answers(limits, t, calls[1..])
  }

  function After(limits: Limits, s: Buckets, calls: seq<Call>): Buckets
    decreases calls
  {
    if calls == [] then s else After(limits, Allow(limits, s, calls[0].node, calls[0].at).0, calls[1..])
  }

  /** No bucket was touched later than this, and none holds more than it can. */
  predicate TouchedBy(limits: Limits, s: Buckets, now: real) {
    && s.shared.filledAt <= now && 0.0 <= s.shared.level <= limits.total
    && forall n | n in s.nodes :: s.nodes[n].filledAt <= now && 0.0 <= s.nodes[n].level <= limits.perNode
  }

  predicate Sensible(limits: Limits) {
    0.0 <= limits.perNode && 0.0 <= limits.total
  }

  // -- arithmetic ------------------------------------------------------------------------------------

  lemma GainAdds(capacity: real, a: real, b: real)
    ensures Gain(capacity, a + b) == Gain(capacity, a) + Gain(capacity, b)
    ensures Gain(capacity, 0.0) == 0.0
  {
    var rate := capacity / 60.0;
    assert Gain(capacity, a) == a * rate && Gain(capacity, b) == b * rate && Gain(capacity, a + b) == (a + b) * rate;
  }

  lemma GainGrows(capacity: real, a: real)
    requires capacity >= 0.0 && a >= 0.0
    ensures Gain(capacity, a) >= 0.0
  {
    var rate := capacity / 60.0;
    assert Gain(capacity, a) == a * rate;
  }

  lemma LevelBounds(b: Bucket, capacity: real, t: real, u: real)
    requires 0.0 <= b.level <= capacity && b.filledAt <= t <= u
    ensures 0.0 <= LevelAt(b, capacity, t) <= capacity
    ensures LevelAt(b, capacity, u) <= LevelAt(b, capacity, t) + Gain(capacity, u - t)
    ensures LevelAt(Bucket(capacity, t), capacity, t) == capacity
  {
    hide Gain;
    GainAdds(capacity, t - b.filledAt, u - t);
    GainAdds(capacity, 0.0, 0.0);
    GainGrows(capacity, t - b.filledAt);
    GainGrows(capacity, u - t);
    assert t - b.filledAt + (u - t) == u - b.filledAt && t - t == 0.0;
  }

  function NodeLevel(limits: Limits, s: Buckets, node: NodeId, now: real): real {
    LevelAt(NodeBucket(limits, s, node, now), limits.perNode, now)
  }

  function SharedLevel(limits: Limits, s: Buckets, now: real): real {
    LevelAt(s.shared, limits.total, now)
  }

  lemma NodeLevelBounds(limits: Limits, s: Buckets, node: NodeId, t: real, u: real)
    requires Sensible(limits) && TouchedBy(limits, s, t) && t <= u
    ensures 0.0 <= NodeLevel(limits, s, node, t) <= limits.perNode
    ensures NodeLevel(limits, s, node, u) <= NodeLevel(limits, s, node, t) + Gain(limits.perNode, u - t)
    ensures node !in s.nodes ==> NodeLevel(limits, s, node, t) == limits.perNode
  {
    hide LevelAt, Gain;
    LevelBounds(NodeBucket(limits, s, node, t), limits.perNode, t, u);
    LevelBounds(Bucket(limits.perNode, u), limits.perNode, u, u);
    GainGrows(limits.perNode, u - t);
  }

  /** What one call leaves in every bucket, at the moment of the call. */
  lemma LevelsAfter(limits: Limits, s: Buckets, node: NodeId, now: real, n: NodeId)
    requires Sensible(limits) && TouchedBy(limits, s, now)
    ensures var (t, answer) := Allow(limits, s, node, now);
            && TouchedBy(limits, t, now)
            && NodeLevel(limits, t, n, now) == NodeLevel(limits, s, n, now) - (if n == node && answer.Pass? then 1.0 else 0.0)
            && SharedLevel(limits, t, now) == SharedLevel(limits, s, now) - (if answer.Pass? then 1.0 else 0.0)
  {
    hide LevelAt, Gain;
    NodeLevelBounds(limits, s, node, now, now);
    LevelBounds(s.shared, limits.total, now, now);
    JustTouched(limits.perNode, NodeLevel(limits, s, node, now), now);
    JustTouched(limits.total, SharedLevel(limits, s, now), now);
  }

  lemma JustTouched(capacity: real, level: real, now: real)
    requires level <= capacity
    ensures LevelAt(Bucket(level, now), capacity, now) == level
    ensures LevelAt(Bucket(level - 1.0, now), capacity, now) == level - 1.0
  {
    hide Gain;
    GainAdds(capacity, 0.0, 0.0);
    assert now - now == 0.0;
  }

  // -- the simple form ------------------------------------------------------------------------------------

  /** Every bucket at one moment, refilled all the time. */
  datatype Ideal = Ideal(levels: NodeId -> real, shared: real, at: real)

  function Flow(limits: Limits, i: Ideal, now: real): Ideal {
    Ideal(n => Least(limits.perNode, i.levels(n) + Gain(limits.perNode, now - i.at)),
          Least(limits.total, i.shared + Gain(limits.total, now - i.at)),
          now)
  }

  function IdealAllow(limits: Limits, i: Ideal, node: NodeId, now: real): (Ideal, Answer) {
    var f := Flow(limits, i, now);
    if f.levels(node) < 1.0 then (f, OverNode)
    else if f.shared < 1.0 then (f, OverHub)
    else (f.(levels := n => if n == node then f.levels(n) - 1.0 else f.levels(n), shared := f.shared - 1.0), Pass)
  }

  function IdealAnswers(limits: Limits, i: Ideal, calls: seq<Call>): seq<Answer>
    decreases calls
  {
    if calls == [] then []
    else
      var (t, answer) := IdealAllow(limits, i, calls[0].node, calls[0].at);
      [answer] + IdealAnswers(limits, t, calls[1..])
  }

  /** The stored buckets hold at this moment what the ideal ones hold. */
  ghost predicate Holds(limits: Limits, s: Buckets, i: Ideal) {
    && TouchedBy(limits, s, i.at)
    && i.shared == SharedLevel(limits, s, i.at)
    && forall n :: i.levels(n) == NodeLevel(limits, s, n, i.at)
  }

  lemma FlowHolds(limits: Limits, s: Buckets, i: Ideal, now: real)
    requires Sensible(limits) && Holds(limits, s, i) && i.at <= now
    ensures Holds(limits, s, Flow(limits, i, now))
  {
    hide LevelAt, Gain;
    var f := Flow(limits, i, now);
    LevelFlows(s.shared, limits.total, i.at, now);
    forall n ensures f.levels(n) == NodeLevel(limits, s, n, now) {
      if n in s.nodes {
        LevelFlows(s.nodes[n], limits.perNode, i.at, now);
      } else {
        NodeLevelBounds(limits, s, n, i.at, now);
        NodeLevelBounds(limits, s, n, now, now);
        GainGrows(limits.perNode, now - i.at);
      }
    }
  }

  lemma LevelFlows(b: Bucket, capacity: real, t: real, u: real)
    requires 0.0 <= b.level <= capacity && b.filledAt <= t <= u
    ensures LevelAt(b, capacity, u) == Least(capacity, LevelAt(b, capacity, t) + Gain(capacity, u - t))
  {
    hide Gain;
    GainAdds(capacity, t - b.filledAt, u - t);
    GainGrows(capacity, u - t);
    assert t - b.filledAt + (u - t) == u - b.filledAt;
  }

  lemma AllowIsIdeal(limits: Limits, s: Buckets, i: Ideal, node: NodeId, now: real)
    requires Sensible(limits) && Holds(limits, s, i) && i.at <= now
    ensures var ((t, answer), (j, same)) := (Allow(limits, s, node, now), IdealAllow(limits, i, node, now));
            answer == same && Holds(limits, t, j) && j.at == now
  {
    hide LevelAt, Gain;
    FlowHolds(limits, s, i, now);
    var (j, same) := IdealAllow(limits, i, node, now);
    forall n ensures j.levels(n) == NodeLevel(limits, Allow(limits, s, node, now).0, n, now) {
      LevelsAfter(limits, s, node, now, n);
    }
    LevelsAfter(limits, s, node, now, node);
  }

  /** The stored buckets answer every history of calls exactly as buckets refilled all the time. */
  lemma {:induction false} LazyIsIdeal(limits: Limits, s: Buckets, i: Ideal, calls: seq<Call>)
    requires Sensible(limits) && Holds(limits, s, i) && InOrder(calls, i.at)
    ensures Answers(limits, s, calls) == IdealAnswers(limits, i, calls)
    decreases calls
  {
    hide Allow, IdealAllow, Holds;
    if calls != [] {
      AllowIsIdeal(limits, s, i, calls[0].node, calls[0].at);
      LazyIsIdeal(limits, Allow(limits, s, calls[0].node, calls[0].at).0, IdealAllow(limits, i, calls[0].node, calls[0].at).0, calls[1..]);
    }
  }

  lemma FreshIsFull(limits: Limits, now: real)
    requires Sensible(limits)
    ensures Holds(limits, Fresh(limits, now), Ideal(n => limits.perNode, limits.total, now))
  {
    JustTouched(limits.perNode, limits.perNode, now);
    JustTouched(limits.total, limits.total, now);
  }

  // -- refused calls leave no trace -------------------------------------------------------------------------

  /** A refused call changes no later answer: nor would it if it had never been made. */
  lemma RefusedLeavesNoTrace(limits: Limits, s: Buckets, call: Call, later: seq<Call>)
    requires Sensible(limits) && TouchedBy(limits, s, call.at) && InOrder(later, call.at)
    requires !Allow(limits, s, call.node, call.at).1.Pass?
    ensures Answers(limits, Allow(limits, s, call.node, call.at).0, later) == Answers(limits, s, later)
  {
    hide LevelAt, Gain, Allow;
    var t := Allow(limits, s, call.node, call.at).0;
    var i := Ideal(n => NodeLevel(limits, s, n, call.at), SharedLevel(limits, s, call.at), call.at);
    forall n ensures NodeLevel(limits, t, n, call.at) == NodeLevel(limits, s, n, call.at) {
      LevelsAfter(limits, s, call.node, call.at, n);
    }
    LevelsAfter(limits, s, call.node, call.at, call.node);
    LazyIsIdeal(limits, s, i, later);
    LazyIsIdeal(limits, t, i, later);
  }

  /** The calls of a history that were let through. */
  function LetThrough(calls: seq<Call>, answers: seq<Answer>): seq<Call>
    requires |calls| == |answers|
    decreases calls
  {
    if calls == [] then []
    else (if answers[0].Pass? then [calls[0]] else []) + LetThrough(calls[1..], answers[1..])
  }

  lemma InOrderTail(calls: seq<Call>, since: real)
    requires InOrder(calls, since) && calls != []
    ensures since <= calls[0].at && InOrder(calls[1..], calls[0].at)
  {
  }

  lemma InOrderFront(call: Call, calls: seq<Call>, since: real)
    requires since <= call.at && InOrder(calls, call.at)
    ensures InOrder(calls, since) && InOrder([call] + calls, since)
  {
  }

  predicate AllPass(limits: Limits, s: Buckets, calls: seq<Call>) {
    forall i | 0 <= i < |calls| :: Answers(limits, s, calls)[i].Pass?
  }

  lemma AllPassFront(limits: Limits, s: Buckets, call: Call, calls: seq<Call>)
    requires Allow(limits, s, call.node, call.at).1.Pass?
    requires AllPass(limits, Allow(limits, s, call.node, call.at).0, calls)
    ensures AllPass(limits, s, [call] + calls)
  {
    hide Allow;
    var (t, answer) := Allow(limits, s, call.node, call.at);
    assert ([call] + calls)[1..] == calls;
    var answers := Answers(limits, s, [call] + calls);
    assert answers == [answer] + Answers(limits, t, calls);
    forall i | 0 <= i < |[call] + calls| ensures answers[i].Pass? {
      if i > 0 {
        assert answers[i] == Answers(limits, t, calls)[i - 1];
      }
    }
  }

  /** A history without its refused calls is let through whole. */
  lemma {:induction false} WithoutTheRefused(limits: Limits, s: Buckets, calls: seq<Call>, since: real)
    requires Sensible(limits) && TouchedBy(limits, s, since) && InOrder(calls, since)
    ensures var kept := LetThrough(calls, Answers(limits, s, calls));
            InOrder(kept, since) && AllPass(limits, s, kept)
    decreases calls
  {
    hide Allow, LevelAt, Gain, InOrder, AllPass, NodeLevel, SharedLevel;
    if calls == [] {
      hide LetThrough;
      NothingIsRefused(limits, s, since);
    } else {
      var call, later := calls[0], calls[1..];
      var (t, answer) := Allow(limits, s, call.node, call.at);
      InOrderTail(calls, since);
      TouchedLater(limits, s, since, call.at);
      LevelsAfter(limits, s, call.node, call.at, call.node);
      WithoutTheRefused(limits, t, later, call.at);
      var kept := LetThrough(later, Answers(limits, t, later));
      assert Answers(limits, s, calls)[1..] == Answers(limits, t, later);
      InOrderFront(call, kept, since);
      if answer.Pass? {
        AllPassFront(limits, s, call, kept);
      } else {
        assert [] + kept == kept;
        RefusedLeavesNoTrace(limits, s, call, kept);
        SameAnswersAllPass(limits, s, t, kept);
      }
    }
  }

  lemma NothingIsRefused(limits: Limits, s: Buckets, since: real)
    ensures LetThrough([], Answers(limits, s, [])) == [] && InOrder([], since) && AllPass(limits, s, [])
  {
  }

  lemma TouchedLater(limits: Limits, s: Buckets, t: real, u: real)
    requires TouchedBy(limits, s, t) && t <= u
    ensures TouchedBy(limits, s, u)
  {
  }

  lemma SameAnswersAllPass(limits: Limits, s: Buckets, t: Buckets, calls: seq<Call>)
    requires Answers(limits, s, calls) == Answers(limits, t, calls) && AllPass(limits, t, calls)
    ensures AllPass(limits, s, calls)
  {
  }

  // -- how much gets through -------------------------------------------------------------------------------

  function PassedFor(node: NodeId, calls: seq<Call>, answers: seq<Answer>): nat
    requires |calls| == |answers|
    decreases calls
  {
    if calls == [] then 0
    else (if calls[0].node == node && answers[0].Pass? then 1 else 0) + PassedFor(node, calls[1..], answers[1..])
  }

  function Passed(calls: seq<Call>, answers: seq<Answer>): nat
    requires |calls| == |answers|
    decreases calls
  {
    if calls == [] then 0 else (if answers[0].Pass? then 1 else 0) + Passed(calls[1..], answers[1..])
  }

  /** What passed was in the bucket, or was gained since. */
  lemma {:induction false} PassedWasThere(limits: Limits, s: Buckets, calls: seq<Call>, node: NodeId,
                                          since: real, until: real)
    requires Sensible(limits) && TouchedBy(limits, s, since) && InOrder(calls, since) && since <= until
    requires forall i | 0 <= i < |calls| :: calls[i].at <= until
    ensures PassedFor(node, calls, Answers(limits, s, calls)) as real
         <= NodeLevel(limits, s, node, since) + Gain(limits.perNode, until - since)
    ensures Passed(calls, Answers(limits, s, calls)) as real
         <= SharedLevel(limits, s, since) + Gain(limits.total, until - since)
    decreases calls
  {
    hide Allow, LevelAt, Gain, NodeLevel, SharedLevel;
    if calls == [] {
      BucketsGive(limits, s, node, since, until, until);
    } else {
      var call, later := calls[0], calls[1..];
      var (t, answer) := Allow(limits, s, call.node, call.at);
      BucketsGive(limits, s, node, since, call.at, until);
      LevelsAfter(limits, s, call.node, call.at, node);
      PassedWasThere(limits, t, later, node, call.at, until);
      assert Answers(limits, s, calls)[1..] == Answers(limits, t, later);
    }
  }

  lemma BucketsGive(limits: Limits, s: Buckets, node: NodeId, since: real, now: real, until: real)
    requires Sensible(limits) && TouchedBy(limits, s, since) && since <= now <= until
    ensures NodeLevel(limits, s, node, now) + Gain(limits.perNode, until - now)
         <= NodeLevel(limits, s, node, since) + Gain(limits.perNode, until - since)
    ensures SharedLevel(limits, s, now) + Gain(limits.total, until - now)
         <= SharedLevel(limits, s, since) + Gain(limits.total, until - since)
    ensures 0.0 <= NodeLevel(limits, s, node, since) <= limits.perNode && 0.0 <= SharedLevel(limits, s, since) <= limits.total
    ensures Gain(limits.perNode, until - since) >= 0.0 && Gain(limits.total, until - since) >= 0.0
  {
    hide LevelAt, Gain;
    NodeLevelBounds(limits, s, node, since, now);
    LevelBounds(s.shared, limits.total, since, now);
    GainAdds(limits.perNode, now - since, until - now);
    GainAdds(limits.total, now - since, until - now);
    GainGrows(limits.perNode, until - since);
    GainGrows(limits.total, until - since);
    assert now - since + (until - now) == until - since;
  }

  lemma {:induction false} AnswersFrom(limits: Limits, s: Buckets, calls: seq<Call>, i: nat, since: real)
    requires Sensible(limits) && TouchedBy(limits, s, since) && InOrder(calls, since) && i < |calls|
    ensures Answers(limits, s, calls)[i..] == Answers(limits, After(limits, s, calls[..i]), calls[i..])
    ensures TouchedBy(limits, After(limits, s, calls[..i]), calls[i].at)
    decreases i
  {
    hide Allow, LevelAt, Gain;
    if i == 0 {
      assert calls[..0] == [] && calls[0..] == calls;
    } else {
      var t := Allow(limits, s, calls[0].node, calls[0].at).0;
      LevelsAfter(limits, s, calls[0].node, calls[0].at, calls[0].node);
      AnswersFrom(limits, t, calls[1..], i - 1, calls[0].at);
      assert calls[1..][..i - 1] == calls[..i][1..] && calls[1..][i - 1..] == calls[i..];
    }
  }

  lemma {:induction false} AnswersUpTo(limits: Limits, s: Buckets, calls: seq<Call>, j: nat)
    requires j <= |calls|
    ensures Answers(limits, s, calls)[..j] == Answers(limits, s, calls[..j])
    decreases j
  {
    hide Allow;
    if j > 0 {
      AnswersUpTo(limits, Allow(limits, s, calls[0].node, calls[0].at).0, calls[1..], j - 1);
      assert calls[1..][..j - 1] == calls[..j][1..];
    }
  }

  lemma WindowBound(limits: Limits, born: real, calls: seq<Call>, i: nat, j: nat, node: NodeId)
    requires Sensible(limits) && InOrder(calls, born) && i < j <= |calls|
    ensures var (answers, seconds) := (Answers(limits, Fresh(limits, born), calls), calls[j - 1].at - calls[i].at);
            && PassedFor(node, calls[i..j], answers[i..j]) as real <= limits.perNode + Gain(limits.perNode, seconds)
            && Passed(calls[i..j], answers[i..j]) as real <= limits.total + Gain(limits.total, seconds)
  {
    hide Allow, LevelAt, Gain, NodeLevel, SharedLevel, Answers, Passed, PassedFor, After;
    var first := Fresh(limits, born);
    AnswersFrom(limits, first, calls, i, born);
    var s := After(limits, first, calls[..i]);
    AnswersUpTo(limits, s, calls[i..], j - i);
    assert calls[i..][..j - i] == calls[i..j];
    assert Answers(limits, first, calls)[i..][..j - i] == Answers(limits, first, calls)[i..j];
    PassedWasThere(limits, s, calls[i..j], node, calls[i].at, calls[j - 1].at);
    BucketsGive(limits, s, node, calls[i].at, calls[i].at, calls[j - 1].at);
  }

  /** In any history, between any two of its calls, at most a bucketful and a minute's worth for every
      minute gets through: for each node, and for all of them together. */
  lemma RateBound(limits: Limits, born: real, calls: seq<Call>, i: nat, j: nat, node: NodeId)
    requires Sensible(limits) && InOrder(calls, born) && i < j <= |calls|
    ensures var (answers, minutes) := (Answers(limits, Fresh(limits, born), calls), (calls[j - 1].at - calls[i].at) / 60.0);
            && PassedFor(node, calls[i..j], answers[i..j]) as real <= limits.perNode * (1.0 + minutes)
            && Passed(calls[i..j], answers[i..j]) as real <= limits.total * (1.0 + minutes)
  {
    hide Gain, Answers, Passed, PassedFor, InOrder;
    WindowBound(limits, born, calls, i, j, node);
    GainInMinutes(limits.perNode, calls[j - 1].at - calls[i].at);
    GainInMinutes(limits.total, calls[j - 1].at - calls[i].at);
  }

  lemma GainInMinutes(capacity: real, seconds: real)
    ensures capacity + Gain(capacity, seconds) == capacity * (1.0 + seconds / 60.0)
  {
    var minutes := seconds / 60.0;
    assert Gain(capacity, seconds) == minutes * capacity;
  }
}
