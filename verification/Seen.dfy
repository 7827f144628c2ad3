/** The commands a node has already handled, so that a retransmission is answered and not acted
    on twice: an ordered dictionary that forgets the least recently used beyond its capacity.
  */
module Seen {
  import opened Wrappers

  type Id = string

  datatype Outcome = Received | Applied | Failed

  /** An ordered dictionary: its keys, least recently used first, and what each was answered. */
  datatype Memory = Memory(order: seq<Id>, outcomes: map<Id, Outcome>)

  const CAPACITY: nat := 256

  function Nothing(): Memory {
    Memory([], map[])
  }

  function Removed(order: seq<Id>, id: Id): seq<Id>
    decreases order
  {
    if order == [] then [] else if order[0] == id then order[1..] else [order[0]] + Removed(order[1..], id)
  }

  function MovedToEnd(order: seq<Id>, id: Id): seq<Id> {
    Removed(order, id) + [id]
  }

  function WithoutOldest(m: Memory): Memory
    requires m.order != []
  {
    Memory(m.order[1..], m.outcomes - {m.order[0]})
  }

  function Evict(m: Memory, capacity: nat): Memory
    decreases m.order
  {
    if |m.order| <= capacity then m
    else Evict(WithoutOldest(m), capacity)
  }

  function Remember(m: Memory, capacity: nat, id: Id, outcome: Outcome): Memory {
    Evict(Memory(MovedToEnd(m.order, id), m.outcomes[id := outcome]), capacity)
  }

  /** Asking about a known id makes it the most recently used. */
  function Ask(m: Memory, id: Id): (Memory, Option<Outcome>) {
    if id !in m.outcomes then (m, None)
    else (m.(order := MovedToEnd(m.order, id)), Some(m.outcomes[id]))
  }

  class Commands {
    const capacity: nat
    var order: seq<Id>
    var outcomes: map<Id, Outcome>

    function View(): Memory
      reads this
    {
      Memory(order, outcomes)
    }

    constructor (capacity: nat)
      ensures View() == Nothing() && this.capacity == capacity
    {
      this.capacity := capacity;
      order, outcomes := [], map[];
    }

    method RememberOutcome(id: Id, outcome: Outcome)
      modifies this
      ensures View() == Remember(old(View()), capacity, id, outcome)
    {
      outcomes := outcomes[id := outcome];
      order := MovedToEnd(order, id);
      ghost var all := View();
      while |order| > capacity
        invariant Evict(View(), capacity) == Evict(all, capacity)
        decreases |order|
      {
        outcomes := outcomes - {order[0]};
        order := order[1..];
      }
    }

    method AskOutcome(id: Id) returns (known: Option<Outcome>)
      modifies this
      ensures (View(), known) == Ask(old(View()), id)
    {
      if id !in outcomes {
        return None;
      }
      order := MovedToEnd(order, id);
      return Some(outcomes[id]);
    }
  }

  // -- how long an id is remembered -----------------------------------------------------------

  ghost predicate Distinct(order: seq<Id>) {
    forall i, j | 0 <= i < j < |order| :: order[i] != order[j]
  }

  /** A dictionary's keys are its order, each once. */
  ghost predicate Whole(m: Memory) {
    && Distinct(m.order)
    && forall id :: id in m.outcomes <==> id in m.order
  }

  lemma DistinctSlice(order: seq<Id>, lo: nat, hi: nat)
    requires Distinct(order) && lo <= hi <= |order|
    ensures Distinct(order[lo..hi])
  {
    forall i, j | 0 <= i < j < hi - lo ensures order[lo..hi][i] != order[lo..hi][j] {
      assert order[lo..hi][i] == order[lo + i] && order[lo..hi][j] == order[lo + j];
    }
  }

  lemma DistinctTail(order: seq<Id>)
    requires Distinct(order) && order != []
    ensures Distinct(order[1..]) && order[0] !in order[1..]
    ensures order == [order[0]] + order[1..]
  {
    DistinctSlice(order, 1, |order|);
    assert order[1..|order|] == order[1..];
  }

  lemma DistinctConcat(a: seq<Id>, b: seq<Id>)
    requires Distinct(a) && Distinct(b)
    requires forall x | x in a :: x !in b
    ensures Distinct(a + b)
  {
    forall i, j | 0 <= i < j < |a + b| ensures (a + b)[i] != (a + b)[j] {
      if i < |a| && j >= |a| {
        assert (a + b)[i] in a && (a + b)[j] in b;
      }
    }
  }

  lemma {:induction false} RemovedIsGone(order: seq<Id>, id: Id)
    requires Distinct(order)
    ensures Distinct(Removed(order, id))
    ensures forall x :: x in Removed(order, id) <==> x in order && x != id
    decreases order
  {
    if order != [] {
      DistinctTail(order);
      RemovedIsGone(order[1..], id);
      if order[0] != id {
        DistinctConcat([order[0]], Removed(order[1..], id));
      }
    }
  }

  lemma MovedToEndIsWhole(order: seq<Id>, id: Id)
    requires Distinct(order)
    ensures Distinct(MovedToEnd(order, id))
    ensures forall x :: x in MovedToEnd(order, id) <==> x in order || x == id
  {
    RemovedIsGone(order, id);
    DistinctConcat(Removed(order, id), [id]);
  }

  lemma OldestIsGone(m: Memory)
    requires Whole(m) && m.order != []
    ensures Whole(WithoutOldest(m))
  {
    DistinctTail(m.order);
    hide Distinct;
  }

  lemma TailOfTail(order: seq<Id>, n: nat)
    requires 0 < n < |order|
    ensures order[1..][|order| - 1 - n..] == order[|order| - n..]
  {
  }

  lemma {:induction false} EvictsTheOldest(m: Memory, capacity: nat)
    requires Whole(m)
    ensures var e := Evict(m, capacity);
            && Whole(e)
            && e.order == m.order[if |m.order| <= capacity then 0 else |m.order| - capacity..]
            && forall id | id in e.outcomes :: id in m.outcomes && e.outcomes[id] == m.outcomes[id]
    decreases m.order
  {
    hide Whole;
    if |m.order| > capacity {
      OldestIsGone(m);
      EvictsTheOldest(WithoutOldest(m), capacity);
      if 0 < capacity {
        TailOfTail(m.order, capacity);
      }
    }
  }

  lemma {:induction false} EvictingAddsNothing(m: Memory, capacity: nat)
    ensures Evict(m, capacity).outcomes.Keys <= m.outcomes.Keys
    decreases m.order
  {
    if |m.order| > capacity {
      EvictingAddsNothing(WithoutOldest(m), capacity);
    }
  }

  lemma {:induction false} EvictingBounds(m: Memory, capacity: nat)
    ensures |Evict(m, capacity).order| <= capacity
    ensures |m.order| <= capacity ==> Evict(m, capacity) == m
    decreases m.order
  {
    if |m.order| > capacity {
      EvictingBounds(WithoutOldest(m), capacity);
    }
  }

  lemma {:induction false} RemovedIsNoLonger(order: seq<Id>, id: Id)
    ensures |Removed(order, id)| == (if id in order then |order| - 1 else |order|)
    decreases order
  {
    if order != [] && order[0] != id {
      RemovedIsNoLonger(order[1..], id);
    }
  }

  /** Over any run, no more is remembered than there is room for. */
  lemma {:induction false} MemoryIsBounded(m: Memory, capacity: nat, ops: seq<Op>)
    requires Whole(m) && |m.order| <= capacity
    ensures Whole(Run(m, capacity, ops)) && |Run(m, capacity, ops).order| <= capacity
    ensures |Run(m, capacity, ops).outcomes| <= capacity
    decreases ops
  {
    hide Evict, Removed, Whole;
    if ops != [] {
      var op := ops[0];
      ApplyKeepsWhole(m, capacity, op);
      RemovedIsNoLonger(m.order, op.id);
      EvictingBounds(Memory(MovedToEnd(m.order, op.id), m.outcomes[op.id := if op.OpRemember? then op.outcome else Received]), capacity);
      KnownIsInOrder(m, op.id);
      MemoryIsBounded(Apply(m, capacity, op), capacity, ops[1..]);
    } else {
      KeysFit(m.order, m.outcomes);
    }
  }

  lemma KnownIsInOrder(m: Memory, id: Id)
    requires Whole(m)
    ensures id in m.outcomes <==> id in m.order
  {
  }

  lemma KeysFit(order: seq<Id>, outcomes: map<Id, Outcome>)
    requires Whole(Memory(order, outcomes))
    ensures |outcomes| <= |order|
  {
    assert outcomes.Keys == set id | id in order;
    SetOfSeq(order);
    assert |outcomes| == |outcomes.Keys|;
  }

  lemma {:induction false} SetOfSeq(order: seq<Id>)
    ensures |set id | id in order| <= |order|
    decreases order
  {
    if order != [] {
      SetOfSeq(order[1..]);
      assert (set id | id in order) == {order[0]} + (set id | id in order[1..]);
    }
  }

  lemma RememberingAdds(m: Memory, capacity: nat, id: Id, outcome: Outcome)
    ensures Remember(m, capacity, id, outcome).outcomes.Keys <= m.outcomes.Keys + {id}
  {
    EvictingAddsNothing(Memory(MovedToEnd(m.order, id), m.outcomes[id := outcome]), capacity);
  }

  datatype Op = OpRemember(id: Id, outcome: Outcome) | OpAsk(id: Id)

  function Apply(m: Memory, capacity: nat, op: Op): Memory {
    match op
    case OpRemember(id, outcome) => Remember(m, capacity, id, outcome)
    case OpAsk(id) => Ask(m, id).0
  }

  function Run(m: Memory, capacity: nat, ops: seq<Op>): Memory
    decreases ops
  {
    if ops == [] then m else Run(Apply(m, capacity, ops[0]), capacity, ops[1..])
  }

  function IdsOf(ops: seq<Op>): set<Id> {
    set i | 0 <= i < |ops| :: ops[i].id
  }

  lemma ApplyKeepsWhole(m: Memory, capacity: nat, op: Op)
    requires Whole(m)
    ensures Whole(Apply(m, capacity, op))
  {
    MovedToEndIsWhole(m.order, op.id);
    if op.OpRemember? {
      EvictsTheOldest(Memory(MovedToEnd(m.order, op.id), m.outcomes[op.id := op.outcome]), capacity);
    }
  }

  lemma {:induction false} RemovedConcat(a: seq<Id>, b: seq<Id>, id: Id)
    ensures Removed(a + b, id) == if id in a then Removed(a, id) + b else a + Removed(b, id)
    decreases a
  {
    if a == [] {
      assert a + b == b;
    } else {
      assert (a + b)[1..] == a[1..] + b;
      RemovedConcat(a[1..], b, id);
      if a[0] == id {
      } else if id in a {
        assert [a[0]] + (Removed(a[1..], id) + b) == ([a[0]] + Removed(a[1..], id)) + b;
      } else {
        assert [a[0]] + (a[1..] + Removed(b, id)) == a + Removed(b, id);
      }
    }
  }

  /** `id` was last answered `outcome`, and everything used since is among `others`. */
  ghost predicate Recent(m: Memory, id: Id, outcome: Outcome, before: seq<Id>, since: seq<Id>, others: set<Id>) {
    && Whole(m)
    && m.order == before + [id] + since
    && (forall x | x in since :: x in others)
    && id in m.outcomes && m.outcomes[id] == outcome
  }

  lemma {:induction false} DistinctFits(since: seq<Id>, others: set<Id>)
    requires Distinct(since)
    requires forall x | x in since :: x in others
    ensures |since| <= |others|
    decreases since
  {
    if since != [] {
      assert since == [since[0]] + since[1..];
      DistinctFits(since[1..], others - {since[0]});
    }
  }

  lemma RemovedFromOne(id: Id, other: Id)
    requires other != id
    ensures Removed([id], other) == [id]
  {
  }

  lemma DistinctOne(id: Id)
    ensures Distinct([id])
  {
  }

  lemma DistinctParts(a: seq<Id>, b: seq<Id>)
    requires Distinct(a + b)
    ensures Distinct(a) && Distinct(b)
    ensures forall x | x in a :: x !in b
  {
    DistinctSlice(a + b, 0, |a|);
    DistinctSlice(a + b, |a|, |a + b|);
    assert (a + b)[0..|a|] == a && (a + b)[|a|..|a + b|] == b;
    forall i, j | 0 <= i < |a| && 0 <= j < |b| ensures a[i] != b[j] {
      assert (a + b)[i] == a[i] && (a + b)[|a| + j] == b[j];
    }
  }

  /** Where an id stands once another has been moved to the end. */
  lemma MoveAnother(before: seq<Id>, id: Id, since: seq<Id>, other: Id) returns (before': seq<Id>, since': seq<Id>)
    requires other != id && Distinct(before + [id] + since)
    ensures MovedToEnd(before + [id] + since, other) == before' + [id] + since'
    ensures Distinct(since')
    ensures forall x | x in since' :: x in since || x == other
  {
    hide Removed, Distinct;
    RemovedConcat(before + [id], since, other);
    RemovedConcat(before, [id], other);
    RemovedFromOne(id, other);
    DistinctParts(before + [id], since);
    DistinctOne(other);
    if other in before {
      before' := Removed(before, other);
      since' := since + [other];
      DistinctConcat(since, [other]);
      assert (before' + [id]) + since + [other] == before' + [id] + since';
    } else {
      before' := before;
      since' := Removed(since, other) + [other];
      RemovedIsGone(since, other);
      DistinctConcat(Removed(since, other), [other]);
      assert (before + [id]) + Removed(since, other) + [other] == before + [id] + since';
    }
  }

  /** Using another id leaves this one where it was or moves it nearer the front, never out. */
  lemma StaysRecent(m: Memory, capacity: nat, op: Op, id: Id, outcome: Outcome,
                    before: seq<Id>, since: seq<Id>, others: set<Id>)
      returns (before': seq<Id>, since': seq<Id>)
    requires Recent(m, id, outcome, before, since, others)
    requires op.id != id && op.id in others && |others| < capacity
    ensures Recent(Apply(m, capacity, op), id, outcome, before', since', others)
  {
    hide Removed, Evict, Distinct;
    ApplyKeepsWhole(m, capacity, op);
    if op.OpAsk? && op.id !in m.outcomes {
      return before, since;
    }
    before', since' := MoveAnother(before, id, since, op.id);
    if op.OpRemember? {
      var moved := Memory(MovedToEnd(m.order, op.id), m.outcomes[op.id := op.outcome]);
      MovedToEndIsWhole(m.order, op.id);
      DistinctFits(since', others);
      EvictsTheOldest(moved, capacity);
      var gone := if |moved.order| <= capacity then 0 else |moved.order| - capacity;
      assert moved.order[gone..] == before'[gone..] + [id] + since';
      before' := before'[gone..];
      var e := Evict(moved, capacity);
      assert e.order[|before'|] == id;
    }
  }

  /** `id` is remembered with this answer, and whatever was used after it is among `others`. */
  ghost predicate Known(m: Memory, id: Id, outcome: Outcome, others: set<Id>) {
    exists before, since :: Recent(m, id, outcome, before, since, others)
  }

  /** What an id is answered after an operation, if it was answered `outcome` before. */
  function Answer(op: Op, id: Id, outcome: Outcome): Outcome {
    if op.OpRemember? && op.id == id then op.outcome else outcome
  }

  /** An id that is remembered or asked about is the most recently used. */
  lemma UsedIsKnown(m: Memory, capacity: nat, op: Op, outcome: Outcome, others: set<Id>)
    requires Whole(m) && capacity > 0
    requires op.OpAsk? ==> op.id in m.outcomes && m.outcomes[op.id] == outcome
    ensures Known(Apply(m, capacity, op), op.id, Answer(op, op.id, outcome), others)
  {
    hide Removed, Evict, Distinct;
    ApplyKeepsWhole(m, capacity, op);
    var used := Apply(m, capacity, op);
    if op.OpRemember? {
      var all := Memory(MovedToEnd(m.order, op.id), m.outcomes[op.id := op.outcome]);
      MovedToEndIsWhole(m.order, op.id);
      EvictsTheOldest(all, capacity);
    }
    var last := |used.order| - 1;
    assert used.order[last] == op.id;
    assert used.order == used.order[..last] + [op.id] + [];
    assert Recent(used, op.id, Answer(op, op.id, outcome), used.order[..last], [], others);
  }

  lemma StaysKnown(m: Memory, capacity: nat, op: Op, id: Id, outcome: Outcome, others: set<Id>)
    requires Known(m, id, outcome, others)
    requires |others| < capacity && (op.id == id || op.id in others)
    ensures Known(Apply(m, capacity, op), id, Answer(op, id, outcome), others)
  {
    hide Apply, Distinct;
    var before, since :| Recent(m, id, outcome, before, since, others);
    if op.id == id {
      UsedIsKnown(m, capacity, op, outcome, others);
    } else {
      var before', since' := StaysRecent(m, capacity, op, id, outcome, before, since, others);
    }
  }

  function AnswerAfter(outcome: Outcome, ops: seq<Op>, id: Id): Outcome
    decreases ops
  {
    if ops == [] then outcome else AnswerAfter(Answer(ops[0], id, outcome), ops[1..], id)
  }

  lemma IdsOfTheRest(ops: seq<Op>)
    requires ops != []
    ensures ops[0].id in IdsOf(ops) && IdsOf(ops[1..]) <= IdsOf(ops)
  {
    forall x | x in IdsOf(ops[1..]) ensures x in IdsOf(ops) {
      var i :| 0 <= i < |ops[1..]| && ops[1..][i].id == x;
      assert ops[i + 1].id == x;
    }
  }

  lemma {:induction false} StaysKnownOverARun(m: Memory, capacity: nat, ops: seq<Op>, id: Id, outcome: Outcome, others: set<Id>)
    requires Known(m, id, outcome, others)
    requires IdsOf(ops) <= others + {id} && |others| < capacity
    ensures Known(Run(m, capacity, ops), id, AnswerAfter(outcome, ops, id), others)
    decreases ops
  {
    hide Known, Apply;
    if ops != [] {
      IdsOfTheRest(ops);
      StaysKnown(m, capacity, ops[0], id, outcome, others);
      StaysKnownOverARun(Apply(m, capacity, ops[0]), capacity, ops[1..], id, Answer(ops[0], id, outcome), others);
    }
  }

  /** An id that has been remembered, or asked about and known, is known while fewer other ids than the
      capacity are used, however often it is used itself; and its answer is the last one remembered. */
  lemma RememberedWhileFewOthers(m: Memory, capacity: nat, first: Op, outcome: Outcome, ops: seq<Op>)
    requires Whole(m)
    requires first.OpAsk? ==> first.id in m.outcomes && m.outcomes[first.id] == outcome
    requires |IdsOf(ops) - {first.id}| < capacity
    ensures var later := Run(Apply(m, capacity, first), capacity, ops);
            first.id in later.outcomes
            && later.outcomes[first.id] == AnswerAfter(Answer(first, first.id, outcome), ops, first.id)
  {
    hide Apply, Run;
    var others := IdsOf(ops) - {first.id};
    UsedIsKnown(m, capacity, first, outcome, others);
    StaysKnownOverARun(Apply(m, capacity, first), capacity, ops, first.id, Answer(first, first.id, outcome), others);
  }
}
