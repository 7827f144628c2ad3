/** What the agent holds on to while the hub is not listening: a queue bounded three ways, oldest
    dropped first, that says what it dropped and why.
  */
module Spool {
  import opened Basics

  datatype Held<+T> = Held(item: T, size: nat, queuedAt: real, initial: bool)

  datatype Drops = Drops(count: nat, bytes: nat, age: nat) {
    function Total(): nat {
      count + bytes + age
    }
  }

  datatype Limits = Limits(maxCount: nat, maxBytes: nat, maxAge: real)

  datatype SpoolView<T> = SpoolView(items: seq<Held<T>>, bytes: int, drops: Drops)

  function Empty<T>(): SpoolView<T> {
    SpoolView([], 0, Drops(0, 0, 0))
  }

  function Sizes<T>(items: seq<Held<T>>): nat
    decreases items
  {
    if items == [] then 0 else items[0].size + Sizes(items[1..])
  }

  // -- what each operation does --------------------------------------------------------

  function DropFront<T>(v: SpoolView<T>, drops: Drops): SpoolView<T>
    requires v.items != []
  {
    SpoolView(v.items[1..], v.bytes - v.items[0].size, drops)
  }

  function Expire<T>(v: SpoolView<T>, deadline: real): SpoolView<T>
    decreases v.items
  {
    if v.items == [] || v.items[0].queuedAt >= deadline then v
    else Expire(DropFront(v, v.drops.(age := v.drops.age + 1)), deadline)
  }

  function TrimCount<T>(v: SpoolView<T>, maxCount: nat): SpoolView<T>
    decreases v.items
  {
    if |v.items| <= maxCount then v
    else TrimCount(DropFront(v, v.drops.(count := v.drops.count + 1)), maxCount)
  }

  function TrimBytes<T>(v: SpoolView<T>, maxBytes: nat): SpoolView<T>
    decreases v.items
  {
    if v.bytes <= maxBytes || v.items == [] then v
    else TrimBytes(DropFront(v, v.drops.(bytes := v.drops.bytes + 1)), maxBytes)
  }

  function Put<T>(v: SpoolView<T>, limits: Limits, held: Held<T>, now: real): SpoolView<T> {
    var added := v.(items := v.items + [held], bytes := v.bytes + held.size);
    TrimBytes(TrimCount(Expire(added, now - limits.maxAge), limits.maxCount), limits.maxBytes)
  }

  function TakeFresh<T>(v: SpoolView<T>, limit: nat): (SpoolView<T>, seq<Held<T>>) {
    var n := Min(|v.items|, limit);
    (v.(items := v.items[n..], bytes := v.bytes - Sizes(v.items[..n])), v.items[..n])
  }

  /** Hand out the oldest that are still worth sending. */
  function Take<T>(v: SpoolView<T>, limits: Limits, limit: nat, now: real): (SpoolView<T>, seq<Held<T>>) {
    TakeFresh(Expire(v, now - limits.maxAge), limit)
  }

  function TrimNewest<T>(v: SpoolView<T>, maxCount: nat): SpoolView<T>
    decreases v.items
  {
    if |v.items| <= maxCount then v
    else
      var last := |v.items| - 1;
      TrimNewest(SpoolView(v.items[..last], v.bytes - v.items[last].size, v.drops.(count := v.drops.count + 1)), maxCount)
  }

  lemma NothingToTrim<T>(v: SpoolView<T>, maxCount: nat)
    requires |v.items| <= maxCount
    ensures TrimNewest(v, maxCount) == v
  {
  }

  lemma TrimOneMore<T>(v: SpoolView<T>, maxCount: nat)
    requires |v.items| > maxCount
    ensures var last := |v.items| - 1;
            TrimNewest(v, maxCount)
            == TrimNewest(SpoolView(v.items[..last], v.bytes - v.items[last].size, v.drops.(count := v.drops.count + 1)), maxCount)
  {
  }

  /** Put back something that could not be sent, in front of everything else. */
  function Requeue<T>(v: SpoolView<T>, limits: Limits, held: Held<T>): SpoolView<T> {
    TrimNewest(v.(items := [held] + v.items, bytes := v.bytes + held.size), limits.maxCount)
  }

  class Queue<T> {
    const limits: Limits
    var items: seq<Held<T>>
    var bytes: int
    var drops: Drops

    function View(): SpoolView<T>
      reads this
    {
      SpoolView(items, bytes, drops)
    }

    constructor (limits: Limits)
      ensures View() == Empty() && this.limits == limits
    {
      this.limits := limits;
      items, bytes, drops := [], 0, Drops(0, 0, 0);
    }

    method PutItem(item: T, size: nat, initial: bool, now: real)
      modifies this
      ensures View() == Put(old(View()), limits, Held(item, size, now, initial), now)
    {
      items := items + [Held(item, size, now, initial)];
      bytes := bytes + size;
      DropExpired(now);
      ghost var kept := View();
      while |items| > limits.maxCount
        invariant TrimCount(View(), limits.maxCount) == TrimCount(kept, limits.maxCount)
        decreases |items|
      {
        DiscardFront(drops.(count := drops.count + 1));
      }
      ghost var counted := View();
      while bytes > limits.maxBytes && items != []
        invariant TrimBytes(View(), limits.maxBytes) == TrimBytes(counted, limits.maxBytes)
        decreases |items|
      {
        DiscardFront(drops.(bytes := drops.bytes + 1));
      }
    }

    method TakeItems(limit: nat, now: real) returns (taken: seq<Held<T>>)
      modifies this
      ensures (View(), taken) == Take(old(View()), limits, limit, now)
    {
      DropExpired(now);
      ghost var kept := View();
      taken := [];
      while items != [] && |taken| < limit
        invariant |taken| <= Min(|kept.items|, limit)
        invariant taken == kept.items[..|taken|] && items == kept.items[|taken|..]
        invariant bytes == kept.bytes - Sizes(taken) && drops == kept.drops
        decreases |items|
      {
        SizesConcat(taken, [items[0]]);
        bytes := bytes - items[0].size;
        taken := taken + [items[0]];
        items := items[1..];
      }
    }

    method RequeueItem(held: Held<T>)
      modifies this
      ensures View() == Requeue(old(View()), limits, held)
    {
      hide TrimNewest;
      items := [held] + items;
      bytes := bytes + held.size;
      ghost var back := View();
      while |items| > limits.maxCount
        invariant TrimNewest(View(), limits.maxCount) == TrimNewest(back, limits.maxCount)
        decreases |items|
      {
        TrimOneMore(View(), limits.maxCount);
        bytes := bytes - items[|items| - 1].size;
        items := items[..|items| - 1];
        drops := drops.(count := drops.count + 1);
      }
      NothingToTrim(View(), limits.maxCount);
    }

    method DropExpired(now: real)
      modifies this
      ensures View() == Expire(old(View()), now - limits.maxAge)
    {
      var deadline := now - limits.maxAge;
      while items != [] && items[0].queuedAt < deadline
        invariant Expire(View(), deadline) == Expire(old(View()), deadline)
        decreases |items|
      {
        DiscardFront(drops.(age := drops.age + 1));
      }
    }

    method DiscardFront(counted: Drops)
      requires items != []
      modifies this
      ensures View() == DropFront(old(View()), counted)
    {
      bytes := bytes - items[0].size;
      items := items[1..];
      drops := counted;
    }
  }

  // -- what is kept ------------------------------------------------------------------------

  lemma {:induction false} SizesConcat<T>(a: seq<Held<T>>, b: seq<Held<T>>)
    ensures Sizes(a + b) == Sizes(a) + Sizes(b)
    decreases a
  {
    if a == [] {
      assert a + b == b;
    } else {
      assert (a + b)[1..] == a[1..] + b;
      SizesConcat(a[1..], b);
    }
  }

  /** `w` is `v` without its oldest `n` items, each of them counted as a drop. */
  ghost predicate LostOldest<T>(v: SpoolView<T>, w: SpoolView<T>, n: nat) {
    && n <= |v.items|
    && w.items == v.items[n..]
    && w.bytes == v.bytes - Sizes(v.items[..n])
    && w.drops.Total() == v.drops.Total() + n
  }

  lemma LoseOneMore<T>(v: SpoolView<T>, drops: Drops, w: SpoolView<T>, n: nat)
    requires v.items != [] && drops.Total() == v.drops.Total() + 1
    requires LostOldest(DropFront(v, drops), w, n)
    ensures LostOldest(v, w, n + 1)
  {
    assert v.items[..n + 1] == [v.items[0]] + v.items[1..][..n];
    assert v.items[1..][n..] == v.items[n + 1..];
  }

  lemma {:induction false} ExpireLosesOldest<T>(v: SpoolView<T>, deadline: real) returns (n: nat)
    ensures LostOldest(v, Expire(v, deadline), n)
    ensures Expire(v, deadline).drops == v.drops.(age := v.drops.age + n)
    ensures forall i | 0 <= i < n :: v.items[i].queuedAt < deadline
    ensures n < |v.items| ==> v.items[n].queuedAt >= deadline
    decreases v.items
  {
    if v.items == [] || v.items[0].queuedAt >= deadline {
      n := 0;
      assert v.items[0..] == v.items;
    } else {
      var drops := v.drops.(age := v.drops.age + 1);
      var m := ExpireLosesOldest(DropFront(v, drops), deadline);
      LoseOneMore(v, drops, Expire(v, deadline), m);
      n := m + 1;
    }
  }

  lemma {:induction false} TrimCountLosesOldest<T>(v: SpoolView<T>, maxCount: nat) returns (n: nat)
    ensures LostOldest(v, TrimCount(v, maxCount), n)
    ensures TrimCount(v, maxCount).drops == v.drops.(count := v.drops.count + n)
    ensures |TrimCount(v, maxCount).items| <= maxCount
    ensures n == if |v.items| <= maxCount then 0 else |v.items| - maxCount
    decreases v.items
  {
    if |v.items| <= maxCount {
      n := 0;
      assert v.items[0..] == v.items;
    } else {
      var drops := v.drops.(count := v.drops.count + 1);
      var m := TrimCountLosesOldest(DropFront(v, drops), maxCount);
      LoseOneMore(v, drops, TrimCount(v, maxCount), m);
      n := m + 1;
    }
  }

  lemma {:induction false} TrimBytesLosesOldest<T>(v: SpoolView<T>, maxBytes: nat) returns (n: nat)
    requires v.bytes == Sizes(v.items)
    ensures LostOldest(v, TrimBytes(v, maxBytes), n)
    ensures TrimBytes(v, maxBytes).bytes <= maxBytes
    ensures TrimBytes(v, maxBytes).drops == v.drops.(bytes := v.drops.bytes + n)
    ensures forall k | 0 <= k < n :: Sizes(v.items[k..]) > maxBytes
    decreases v.items
  {
    if v.bytes <= maxBytes || v.items == [] {
      n := 0;
      assert v.items[0..] == v.items;
    } else {
      var drops := v.drops.(bytes := v.drops.bytes + 1);
      var m := TrimBytesLosesOldest(DropFront(v, drops), maxBytes);
      LoseOneMore(v, drops, TrimBytes(v, maxBytes), m);
      n := m + 1;
      assert v.items[0..] == v.items;
      forall k | 0 < k < n ensures Sizes(v.items[k..]) > maxBytes {
        assert v.items[1..][k - 1..] == v.items[k..];
      }
    }
  }

  lemma LosingKeepsSizes<T>(v: SpoolView<T>, w: SpoolView<T>, n: nat)
    requires LostOldest(v, w, n) && v.bytes == Sizes(v.items)
    ensures w.bytes == Sizes(w.items)
  {
    SizesConcat(v.items[..n], v.items[n..]);
    assert v.items == v.items[..n] + v.items[n..];
  }

  lemma LosingTwice<T>(v: SpoolView<T>, w: SpoolView<T>, x: SpoolView<T>, n: nat, m: nat)
    requires LostOldest(v, w, n) && LostOldest(w, x, m)
    ensures LostOldest(v, x, n + m)
  {
    assert v.items[..n + m] == v.items[..n] + v.items[n..][..m];
    SizesConcat(v.items[..n], v.items[n..][..m]);
    assert v.items[n..][m..] == v.items[n + m..];
  }

  ghost predicate Sound<T>(v: SpoolView<T>, limits: Limits) {
    v.bytes == Sizes(v.items) && |v.items| <= limits.maxCount
  }

  /** After a put: both limits hold, and what is held is the newest part of what was held with
      the new item behind it, everything in front of it counted as dropped. */
  lemma PutKeepsTheNewest<T>(v: SpoolView<T>, limits: Limits, held: Held<T>, now: real) returns (lost: nat)
    requires v.bytes == Sizes(v.items)
    ensures var w := Put(v, limits, held, now);
            && Sound(w, limits)
            && w.bytes <= limits.maxBytes
            && lost <= |v.items| + 1
            && w.items == (v.items + [held])[lost..]
            && w.drops.Total() == v.drops.Total() + lost
  {
    var stale, over, heavy := PutDropsWhatItMust(v, limits, held, now);
    lost := stale + over + heavy;
    hide Put, Sizes;
  }

  /** A put drops nothing it need not: the oldest while they are too old, then as many as there are too many, then as
      many as it takes for the rest to fit the bytes, and says of each which it was. */
  lemma PutDropsWhatItMust<T>(v: SpoolView<T>, limits: Limits, held: Held<T>, now: real) returns (stale: nat, over: nat, heavy: nat)
    requires v.bytes == Sizes(v.items)
    ensures stale + over + heavy <= |v.items| + 1
    ensures var w, all := Put(v, limits, held, now), v.items + [held];
            && Sound(w, limits) && w.bytes <= limits.maxBytes
            && w.items == all[stale + over + heavy..]
            && w.drops == Drops(v.drops.count + over, v.drops.bytes + heavy, v.drops.age + stale)
            && (forall i | 0 <= i < stale :: all[i].queuedAt < now - limits.maxAge)
            && (stale < |all| ==> all[stale].queuedAt >= now - limits.maxAge)
            && over == Max(0, |all| - stale - limits.maxCount)
            && (forall n | stale + over <= n < stale + over + heavy :: Sizes(all[n..]) > limits.maxBytes)
  {
    hide Expire, TrimCount, TrimBytes, LostOldest, Sizes;
    var added := v.(items := v.items + [held], bytes := v.bytes + held.size);
    SizesConcat(v.items, [held]);
    SizeOfOne(held);
    var expired := Expire(added, now - limits.maxAge);
    var counted := TrimCount(expired, limits.maxCount);
    var trimmed := TrimBytes(counted, limits.maxBytes);
    stale := ExpireLosesOldest(added, now - limits.maxAge);
    LosingKeepsSizes(added, expired, stale);
    over := TrimCountLosesOldest(expired, limits.maxCount);
    LosingKeepsSizes(expired, counted, over);
    heavy := TrimBytesLosesOldest(counted, limits.maxBytes);
    LosingInARow(added, expired, counted, trimmed, stale, over, heavy);
    StillTooHeavy(added.items, counted.items, stale + over, heavy, limits.maxBytes);
  }

  lemma LosingInARow<T>(v: SpoolView<T>, w: SpoolView<T>, x: SpoolView<T>, y: SpoolView<T>, a: nat, b: nat, c: nat)
    requires LostOldest(v, w, a) && LostOldest(w, x, b) && LostOldest(x, y, c) && v.bytes == Sizes(v.items)
    ensures a + b + c <= |v.items| && |w.items| == |v.items| - a && c <= |x.items|
    ensures x.items == v.items[a + b..] && y.items == v.items[a + b + c..] && y.bytes == Sizes(y.items)
  {
    hide LostOldest, Sizes;
    LosingTwice(v, w, x, a, b);
    LosingTwice(v, x, y, a + b, c);
    LosingKeepsSizes(v, y, a + b + c);
    LostOnly(v, w, a);
    LostOnly(v, x, a + b);
    LostOnly(x, y, c);
    LostOnly(v, y, a + b + c);
  }

  lemma StillTooHeavy<T>(all: seq<Held<T>>, rest: seq<Held<T>>, from: nat, heavy: nat, maxBytes: nat)
    requires from <= |all| && rest == all[from..] && heavy <= |rest|
    requires forall k | 0 <= k < heavy :: Sizes(rest[k..]) > maxBytes
    ensures forall n | from <= n < from + heavy :: Sizes(all[n..]) > maxBytes
  {
    forall n | from <= n < from + heavy ensures Sizes(all[n..]) > maxBytes {
      assert rest[n - from..] == all[n..];
    }
  }

  lemma SizeOfOne<T>(held: Held<T>)
    ensures Sizes([held]) == held.size
  {
  }

  lemma LostOnly<T>(v: SpoolView<T>, w: SpoolView<T>, n: nat)
    requires LostOldest(v, w, n)
    ensures n <= |v.items| && w.items == v.items[n..] && w.drops.Total() == v.drops.Total() + n
  {
  }

  /** A take hands out, in order, the oldest items that have not expired. */
  lemma TakeHandsOutTheOldest<T>(v: SpoolView<T>, limits: Limits, limit: nat, now: real) returns (lost: nat)
    requires v.bytes == Sizes(v.items)
    ensures var (w, taken) := Take(v, limits, limit, now);
            && w.bytes == Sizes(w.items)
            && lost <= |v.items| && v.items[lost..] == taken + w.items
            && |taken| == Min(|v.items| - lost, limit)
            && w.drops == v.drops.(age := v.drops.age + lost)
            && (forall i | 0 <= i < lost :: v.items[i].queuedAt < now - limits.maxAge)
            && (lost < |v.items| ==> v.items[lost].queuedAt >= now - limits.maxAge)
  {
    hide Expire, Sizes, LostOldest, TakeFresh;
    lost := ExpireLosesOldest(v, now - limits.maxAge);
    var kept := Expire(v, now - limits.maxAge);
    LosingKeepsSizes(v, kept, lost);
    LostOnly(v, kept, lost);
    FreshAreInOrder(kept, limit);
  }

  lemma FreshAreInOrder<T>(v: SpoolView<T>, limit: nat)
    requires v.bytes == Sizes(v.items)
    ensures var (w, taken) := TakeFresh(v, limit);
            && w.bytes == Sizes(w.items) && v.items == taken + w.items
            && |taken| == Min(|v.items|, limit) && w.drops == v.drops
  {
    hide Sizes;
    var n := Min(|v.items|, limit);
    SizesConcat(v.items[..n], v.items[n..]);
    assert v.items == v.items[..n] + v.items[n..];
  }

  lemma {:induction false} TrimNewestLosesNewest<T>(v: SpoolView<T>, maxCount: nat)
    requires v.bytes == Sizes(v.items)
    ensures var w := TrimNewest(v, maxCount);
            && Sound(w, Limits(maxCount, 0, 0.0))
            && w.items == v.items[..Min(|v.items|, maxCount)]
            && w.drops == v.drops.(count := v.drops.count + |v.items| - |w.items|)
    decreases v.items
  {
    if |v.items| <= maxCount {
      assert v.items[..|v.items|] == v.items;
    } else {
      var last := |v.items| - 1;
      SizesConcat(v.items[..last], [v.items[last]]);
      assert v.items == v.items[..last] + [v.items[last]];
      TrimNewestLosesNewest(SpoolView(v.items[..last], v.bytes - v.items[last].size, v.drops.(count := v.drops.count + 1)), maxCount);
      assert v.items[..last][..maxCount] == v.items[..maxCount];
    }
  }

  /** A requeue keeps the oldest of what is now held, the item put back first. */
  lemma RequeueKeepsTheOldest<T>(v: SpoolView<T>, limits: Limits, held: Held<T>)
    requires v.bytes == Sizes(v.items)
    ensures var w := Requeue(v, limits, held);
            && Sound(w, limits)
            && w.items == ([held] + v.items)[..Min(|v.items| + 1, limits.maxCount)]
            && w.drops == v.drops.(count := v.drops.count + |v.items| + 1 - |w.items|)
  {
    var back := v.(items := [held] + v.items, bytes := v.bytes + held.size);
    assert back.items[1..] == v.items;
    TrimNewestLosesNewest(back, limits.maxCount);
  }

  // -- whole runs ------------------------------------------------------------------------------

  datatype Op<T> =
    | OpPut(held: Held<T>, now: real)
    | OpTake(limit: nat, now: real)
    | OpRequeue(back: Held<T>)

  datatype Ledger<T> = Ledger(view: SpoolView<T>, puts: nat, taken: nat, requeued: nat)

  function Apply<T>(l: Ledger<T>, limits: Limits, op: Op<T>): Ledger<T> {
    match op
    case OpPut(held, now) => l.(view := Put(l.view, limits, held, now), puts := l.puts + 1)
    case OpTake(limit, now) =>
      var (w, taken) := Take(l.view, limits, limit, now);
      l.(view := w, taken := l.taken + |taken|)
    case OpRequeue(held) => l.(view := Requeue(l.view, limits, held), requeued := l.requeued + 1)
  }

  function Run<T>(limits: Limits, ops: seq<Op<T>>): Ledger<T>
    decreases ops
  {
    if ops == [] then Ledger(Empty(), 0, 0, 0)
    else Apply(Run(limits, ops[..|ops| - 1]), limits, ops[|ops| - 1])
  }

  /** Over any run: everything put is held, out, or counted as dropped; the byte count is the sum
      of what is held; the count limit holds after every put and requeue and the byte limit after
      every put. */
  lemma {:induction false} NothingIsLostUncounted<T>(limits: Limits, ops: seq<Op<T>>)
    ensures var l := Run(limits, ops);
            && l.puts + l.requeued == |l.view.items| + l.taken + l.view.drops.Total()
            && Sound(l.view, limits)
            && (ops != [] && ops[|ops| - 1].OpPut? ==> l.view.bytes <= limits.maxBytes)
    decreases ops
  {
    if ops != [] {
      var before := Run(limits, ops[..|ops| - 1]);
      NothingIsLostUncounted(limits, ops[..|ops| - 1]);
      match ops[|ops| - 1]
      case OpPut(held, now) =>
        var lost := PutKeepsTheNewest(before.view, limits, held, now);
      case OpTake(limit, now) =>
        var lost := TakeHandsOutTheOldest(before.view, limits, limit, now);
        var (w, taken) := Take(before.view, limits, limit, now);
        assert |before.view.items[lost..]| == |taken| + |w.items|;
      case OpRequeue(held) =>
        RequeueKeepsTheOldest(before.view, limits, held);
    }
  }

  // -- what it does not promise ------------------------------------------------------------------

  function Reversed<T>(s: seq<T>): seq<T>
    decreases s
  {
    if s == [] then [] else Reversed(s[1..]) + [s[0]]
  }

  function RequeueAll<T>(v: SpoolView<T>, limits: Limits, batch: seq<Held<T>>): SpoolView<T>
    decreases batch
  {
    if batch == [] then v else RequeueAll(Requeue(v, limits, batch[0]), limits, batch[1..])
  }

  /** The first `n`, or all when there are no more. */
  function First<T>(s: seq<T>, n: nat): seq<T> {
    s[..Min(|s|, n)]
  }

  lemma FirstOfFirst<T>(front: seq<T>, s: seq<T>, n: nat)
    ensures First(front + First(s, n), n) == First(front + s, n)
  {
  }

  /** A batch that fails message by message goes back reversed, in front of what came in meanwhile, and
      where that is too much for the spool it is the newest that go. */
  lemma {:induction false} FailedBatchGoesBackReversed<T>(v: SpoolView<T>, limits: Limits, batch: seq<Held<T>>)
    requires Sound(v, limits)
    ensures RequeueAll(v, limits, batch).items == First(Reversed(batch) + v.items, limits.maxCount)
    decreases batch
  {
    if batch == [] {
      assert Reversed(batch) + v.items == v.items;
    } else {
      RequeueKeepsTheOldest(v, limits, batch[0]);
      var w := Requeue(v, limits, batch[0]);
      assert w.items == First([batch[0]] + v.items, limits.maxCount);
      FailedBatchGoesBackReversed(w, limits, batch[1..]);
      FirstOfFirst(Reversed(batch[1..]), [batch[0]] + v.items, limits.maxCount);
      assert Reversed(batch[1..]) + ([batch[0]] + v.items) == (Reversed(batch[1..]) + [batch[0]]) + v.items;
    }
  }

  /** A requeue trims by count alone: the byte limit holds after it exactly when what is kept fits it. What
      is kept is everything and the item put back, less the newest one if the spool was full. */
  lemma ByteLimitAfterRequeue<T>(v: SpoolView<T>, limits: Limits, held: Held<T>)
    requires Sound(v, limits)
    ensures Requeue(v, limits, held).bytes <= limits.maxBytes <==>
              || (|v.items| < limits.maxCount && held.size + v.bytes <= limits.maxBytes)
              || (|v.items| == limits.maxCount
                  && held.size + v.bytes - ([held] + v.items)[|v.items|].size <= limits.maxBytes)
  {
    RequeueKeepsTheOldest(v, limits, held);
    var all := [held] + v.items;
    assert all[1..] == v.items && all[..|v.items| + 1] == all;
    SizesConcat(all[..|v.items|], [all[|v.items|]]);
    assert all == all[..|v.items|] + [all[|v.items|]];
    SizeOfOne(all[|v.items|]);
  }
}
