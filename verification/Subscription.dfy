/** One reader's share of a microphone's sound: a bounded queue that loses its oldest chunks. */
module Subscription {
  import opened Wrappers
  import opened Basics

  type Chunk = seq<bv8>

  /** What a reader has; `leased` says whether its lease still asks for the sound to flow. */
  datatype Share = Share(chunks: seq<Chunk>, size: int, dropped: nat, closed: bool, leased: bool)

  function Fresh(): Share {
    Share([], 0, 0, false, true)
  }

  function Bytes(chunks: seq<Chunk>): nat
    decreases chunks
  {
    if chunks == [] then 0 else |chunks[0]| + Bytes(chunks[1..])
  }

  /** Drop from the front while over the limit, but never the last chunk. */
  function Trim(s: Share, limit: nat): Share
    decreases s.chunks
  {
    if s.size <= limit || |s.chunks| <= 1 then s
    else Trim(s.(chunks := s.chunks[1..], size := s.size - |s.chunks[0]|, dropped := s.dropped + |s.chunks[0]|), limit)
  }

  function Put(s: Share, limit: nat, pcm: Chunk): Share {
    if s.closed then s else Trim(s.(chunks := s.chunks + [pcm], size := s.size + |pcm|), limit)
  }

  /** Everything since the last read; nothing to hear is an empty chunk, or None once closed. */
  function Read(s: Share): (Share, Option<Chunk>) {
    if s.chunks == [] then (s, if s.closed then None else Some([]))
    else (s.(chunks := [], size := 0), Some(Joined(s.chunks)))
  }

  class Reader {
    const limit: nat
    var chunks: seq<Chunk>
    var size: int
    var droppedBytes: nat
    var closed: bool
    var leased: bool

    function View(): Share
      reads this
    {
      Share(chunks, size, droppedBytes, closed, leased)
    }

    constructor (limit: nat)
      ensures View() == Fresh() && this.limit == limit
    {
      this.limit := limit;
      chunks, size, droppedBytes, closed, leased := [], 0, 0, false, true;
    }

    method PutChunk(pcm: Chunk)
      modifies this
      ensures View() == Put(old(View()), limit, pcm)
    {
      if closed {
        return;
      }
      chunks := chunks + [pcm];
      size := size + |pcm|;
      ghost var added := View();
      while size > limit && |chunks| > 1
        invariant Trim(View(), limit) == Trim(added, limit)
        decreases |chunks|
      {
        var dropped := chunks[0];
        chunks := chunks[1..];
        size := size - |dropped|;
        droppedBytes := droppedBytes + |dropped|;
      }
    }

    method ReadAll() returns (data: Option<Chunk>)
      modifies this
      ensures (View(), data) == Read(old(View()))
    {
      if chunks == [] {
        return if closed then None else Some([]);
      }
      data := Some(Joined(chunks));
      chunks := [];
      size := 0;
    }

    method Close()
      modifies this
      ensures View() == old(View()).(closed := true, leased := false)
    {
      closed := true;
      leased := false;
    }
  }

  // -- whole runs --------------------------------------------------------------------------

  datatype Op = OpPut(pcm: Chunk) | OpRead | OpClose

  /** A share with what has passed through it: the chunks put since the last read, and how many
      bytes were ever put into it and ever read from it. */
  datatype Ledger = Ledger(share: Share, since: seq<Chunk>, put: nat, read: nat)

  function Apply(l: Ledger, limit: nat, op: Op): Ledger {
    match op
    case OpPut(pcm) =>
      var share := Put(l.share, limit, pcm);
      if l.share.closed then l.(share := share) else Ledger(share, l.since + [pcm], l.put + |pcm|, l.read)
    case OpRead =>
      var (share, data) := Read(l.share);
      Ledger(share, if l.share.chunks == [] then l.since else [], l.put,
             l.read + if data.Some? then |data.value| else 0)
    case OpClose => l.(share := l.share.(closed := true, leased := false))
  }

  function Run(limit: nat, ops: seq<Op>): Ledger
    decreases ops
  {
    if ops == [] then Ledger(Fresh(), [], 0, 0)
    else Apply(Run(limit, ops[..|ops| - 1]), limit, ops[|ops| - 1])
  }

  lemma {:induction false} BytesConcat(a: seq<Chunk>, b: seq<Chunk>)
    ensures Bytes(a + b) == Bytes(a) + Bytes(b)
    decreases a
  {
    if a == [] {
      assert a + b == b;
    } else {
      assert (a + b)[1..] == a[1..] + b;
      BytesConcat(a[1..], b);
    }
  }

  lemma {:induction false} JoinedLength(chunks: seq<Chunk>)
    ensures |Joined(chunks)| == Bytes(chunks)
    decreases chunks
  {
    if chunks != [] {
      JoinedLength(chunks[1..]);
    }
  }

  ghost predicate IsSuffix(a: seq<Chunk>, b: seq<Chunk>) {
    |a| <= |b| && a == b[|b| - |a|..]
  }

  lemma SuffixOfItself(a: seq<Chunk>)
    ensures IsSuffix(a, a)
  {
  }

  lemma BytesOfTail(chunks: seq<Chunk>)
    requires chunks != []
    ensures Bytes(chunks) == |chunks[0]| + Bytes(chunks[1..])
  {
  }

  lemma SuffixOfTail(a: seq<Chunk>, b: seq<Chunk>)
    requires b != [] && IsSuffix(a, b[1..])
    ensures IsSuffix(a, b)
  {
    assert b[1..][|b| - 1 - |a|..] == b[|b| - |a|..];
  }

  lemma {:induction false} TrimKeepsASuffix(s: Share, limit: nat)
    requires s.size == Bytes(s.chunks)
    ensures var t := Trim(s, limit);
            && IsSuffix(t.chunks, s.chunks)
            && t.size == Bytes(t.chunks)
            && t.dropped + t.size == s.dropped + s.size
            && (s.chunks != [] ==> t.chunks != [])
            && (t.size <= limit || |t.chunks| <= 1)
            && t.closed == s.closed && t.leased == s.leased
    decreases s.chunks
  {
    hide IsSuffix, Bytes;
    if s.size <= limit || |s.chunks| <= 1 {
      SuffixOfItself(s.chunks);
    } else {
      BytesOfTail(s.chunks);
      var next := s.(chunks := s.chunks[1..], size := s.size - |s.chunks[0]|, dropped := s.dropped + |s.chunks[0]|);
      TrimKeepsASuffix(next, limit);
      SuffixOfTail(Trim(next, limit).chunks, s.chunks);
    }
  }

  lemma SuffixGrows(a: seq<Chunk>, b: seq<Chunk>, pcm: Chunk, c: seq<Chunk>)
    requires IsSuffix(a, b) && IsSuffix(c, a + [pcm])
    ensures IsSuffix(c, b + [pcm])
  {
  }

  ghost predicate Balanced(l: Ledger, limit: nat) {
    && l.put == l.read + l.share.dropped + l.share.size
    && l.share.size == Bytes(l.share.chunks)
    && IsSuffix(l.share.chunks, l.since)
    && (l.share.size <= limit || |l.share.chunks| <= 1)
    && (l.since != [] ==> l.share.chunks != [])
    && l.share.leased == !l.share.closed
  }

  /** What a put adds, before anything is trimmed. */
  lemma SizesAdd(share: Share, pcm: Chunk)
    requires share.size == Bytes(share.chunks)
    ensures share.size + |pcm| == Bytes(share.chunks + [pcm])
  {
    BytesConcat(share.chunks, [pcm]);
    BytesOfOne(pcm);
  }

  lemma AddedTrims(share: Share, since: seq<Chunk>, pcm: Chunk, added: Share, limit: nat)
    requires IsSuffix(share.chunks, since) && share.size + |pcm| == Bytes(share.chunks + [pcm])
    requires added == share.(chunks := share.chunks + [pcm], size := share.size + |pcm|)
    ensures var t := Trim(added, limit);
            && t.size == Bytes(t.chunks) && IsSuffix(t.chunks, since + [pcm]) && t.chunks != []
            && t.dropped + t.size == share.dropped + share.size + |pcm|
            && t.closed == share.closed && t.leased == share.leased
            && (t.size <= limit || |t.chunks| <= 1)
  {
    hide Trim, Bytes, IsSuffix;
    TrimKeepsASuffix(added, limit);
    SuffixGrows(share.chunks, since, pcm, Trim(added, limit).chunks);
  }

  lemma PutBalances(l: Ledger, limit: nat, pcm: Chunk)
    requires Balanced(l, limit) && !l.share.closed
    ensures Balanced(Apply(l, limit, OpPut(pcm)), limit)
  {
    hide Trim, Bytes, IsSuffix;
    var added := l.share.(chunks := l.share.chunks + [pcm], size := l.share.size + |pcm|);
    SizesAdd(l.share, pcm);
    AddedTrims(l.share, l.since, pcm, added, limit);
    var after := Apply(l, limit, OpPut(pcm));
    assert after == Ledger(Trim(added, limit), l.since + [pcm], l.put + |pcm|, l.read);
  }

  /** A put drops nothing it need not: the oldest only, and only while what is queued from there on is over the
      limit. */
  lemma {:induction false} TrimDropsWhatItMust(s: Share, limit: nat)
    requires s.size == Bytes(s.chunks)
    ensures var gone := |s.chunks| - |Trim(s, limit).chunks|;
            && gone >= 0 && Trim(s, limit).chunks == s.chunks[gone..]
            && Trim(s, limit).dropped == s.dropped + Bytes(s.chunks[..gone])
            && (forall k | 0 <= k < gone :: Bytes(s.chunks[k..]) > limit)
    decreases s.chunks
  {
    hide Bytes;
    if s.size <= limit || |s.chunks| <= 1 {
      assert s.chunks[0..] == s.chunks;
      NoBytes();
    } else {
      var next := s.(chunks := s.chunks[1..], size := s.size - |s.chunks[0]|, dropped := s.dropped + |s.chunks[0]|);
      BytesOfTail(s.chunks);
      TrimDropsWhatItMust(next, limit);
      var gone := |s.chunks| - |Trim(s, limit).chunks|;
      assert s.chunks[1..][gone - 1..] == s.chunks[gone..] && s.chunks[0..] == s.chunks;
      forall k | 0 < k < gone ensures Bytes(s.chunks[k..]) > limit {
        assert s.chunks[1..][k - 1..] == s.chunks[k..];
      }
      BytesOfTail(s.chunks[..gone]);
      assert s.chunks[..gone][1..] == s.chunks[1..][..gone - 1];
    }
  }

  lemma NoBytes()
    ensures Bytes([]) == 0
  {
  }

  /** Over any run of puts, reads and a close: bytes put are read, dropped or queued; what is
      queued is the newest part of what was put since the last read that found anything; and the
      queue is within its limit unless one chunk alone is over it. */
  lemma {:induction false} EveryByteIsReadDroppedOrQueued(limit: nat, ops: seq<Op>)
    ensures Balanced(Run(limit, ops), limit)
    decreases ops
  {
    hide Bytes, Trim, Joined;
    if ops == [] {
      assert Bytes([]) == 0 by { JoinedLength([]); NothingJoined(); }
    } else {
      var before := Run(limit, ops[..|ops| - 1]);
      EveryByteIsReadDroppedOrQueued(limit, ops[..|ops| - 1]);
      match ops[|ops| - 1]
      case OpPut(pcm) =>
        if !before.share.closed {
          PutBalances(before, limit, pcm);
        }
      case OpRead =>
        JoinedLength(before.share.chunks);
        JoinedLength([]);
        NothingJoined();
      case OpClose =>
    }
  }

  lemma BytesOfOne(pcm: Chunk)
    ensures Bytes([pcm]) == |pcm|
  {
  }

  lemma NothingJoined()
    ensures Joined<bv8>([]) == []
  {
  }

  lemma {:induction false} JoinedConcat(a: seq<Chunk>, b: seq<Chunk>)
    ensures Joined(a + b) == Joined(a) + Joined(b)
    decreases a
  {
    if a == [] {
      assert a + b == b && [] + Joined(b) == Joined(b);
    } else {
      assert (a + b)[1..] == a[1..] + b;
      JoinedConcat(a[1..], b);
      assert a[0] + (Joined(a[1..]) + Joined(b)) == (a[0] + Joined(a[1..])) + Joined(b);
    }
  }

  lemma {:induction false} ClosedForGood(limit: nat, ops: seq<Op>)
    ensures Run(limit, ops).share.closed <==> OpClose in ops
    decreases ops
  {
    hide Trim, Joined;
    if ops != [] {
      var before, last := Run(limit, ops[..|ops| - 1]), ops[|ops| - 1];
      ClosedForGood(limit, ops[..|ops| - 1]);
      assert ops == ops[..|ops| - 1] + [last];
      if last.OpPut? {
        TrimClosesNothing(before.share.(chunks := before.share.chunks + [last.pcm], size := before.share.size + |last.pcm|), limit);
      }
    }
  }

  lemma {:induction false} TrimClosesNothing(s: Share, limit: nat)
    ensures Trim(s, limit).closed == s.closed
    decreases s.chunks
  {
    if s.size > limit && |s.chunks| > 1 {
      TrimClosesNothing(s.(chunks := s.chunks[1..], size := s.size - |s.chunks[0]|, dropped := s.dropped + |s.chunks[0]|), limit);
    }
  }

  /** After any run, a reader that finds nothing queued is handed an empty chunk, or told that there will be no more
      exactly if it has been closed. */
  lemma NothingToRead(limit: nat, ops: seq<Op>)
    requires Run(limit, ops).share.chunks == []
    ensures Read(Run(limit, ops).share) == (Run(limit, ops).share, if OpClose in ops then None else Some([]))
  {
    ClosedForGood(limit, ops);
  }

  /** What a reader is handed, after any run, is the newest unbroken stretch of what was put since it last
      read, in the order it was put; and what is missing in front of it was dropped. */
  lemma ReadsTheNewestStretch(limit: nat, ops: seq<Op>)
    requires Run(limit, ops).share.chunks != []
    ensures var l := Run(limit, ops);
            var all := Joined(l.since);
            var (after, data) := Read(l.share);
            && data.Some? && |data.value| <= |all| && data.value == all[|all| - |data.value|..]
            && (data.value == [] ==> l.share.size == 0)
            && after.chunks == [] && after.size == 0 && after.dropped == l.share.dropped
  {
    hide Joined, Bytes;
    EveryByteIsReadDroppedOrQueued(limit, ops);
    var l := Run(limit, ops);
    var front := l.since[..|l.since| - |l.share.chunks|];
    assert l.since == front + l.share.chunks;
    JoinedConcat(front, l.share.chunks);
    JoinedLength(l.share.chunks);
  }
}
