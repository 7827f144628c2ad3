/** What the reassembler guarantees: the cutting of the stream does not matter, the blocks that
    count are exactly the ones numbered higher than everything before them, and what plays out
    keeps time with the capture.
  */
module BlockProofs {
  import opened Basics
  import opened Wrappers
  import opened Blocks
  import Link
  import LinkProofs

  // -- the cutting does not matter --------------------------------------------------------------

  lemma NumbersGrow(p: Bytes, more: Bytes, i: nat)
    ensures i + 4 <= |p| ==> U32At(p + more, i) == U32At(p, i)
    ensures i + 8 <= |p| ==> U64At(p + more, i) == U64At(p, i)
  {
    hide Link.U32;
  }

  lemma BlockGrows(p: Bytes, more: Bytes, end: nat)
    requires HEADER_SIZE <= end <= |p|
    ensures BlockAt(p + more, end) == BlockAt(p, end)
  {
    hide U32At, U64At;
    NumbersGrow(p, more, 8);
    NumbersGrow(p, more, 12);
    NumbersGrow(p, more, 20);
    assert (p + more)[HEADER_SIZE..end] == p[HEADER_SIZE..end];
  }

  lemma LookGrows(p: Bytes, more: Bytes)
    ensures !LookAt(p).Wait? ==> LookAt(p + more) == LookAt(p)
  {
    hide BlockAt, Link.U16;
    if |p| >= HEADER_SIZE {
      assert (p + more)[..4] == p[..4];
      assert CountAt(p + more) == CountAt(p) && HeaderBitsKnown(p + more) == HeaderBitsKnown(p);
      hide CountAt, HeaderBitsKnown;
      var end := HEADER_SIZE + CountAt(p) * SAMPLE_BYTES;
      if |p| >= end {
        BlockGrows(p, more, end);
      }
    }
  }

  /** Judging a block has nothing to do with what is still pending. */
  lemma AcceptLeavesPending(v: View, b: Block, pending: Bytes)
    ensures Accept(v.(pending := pending), b)
         == match Accept(v, b)
            case Failure(error) => Failure(error)
            case Success((w, chunks)) => Success((w.(pending := pending), chunks))
    ensures Accept(v, b).Success? ==> Accept(v, b).value.0.pending == v.pending
  {
  }

  function Then(first: Fed, more: Bytes): Fed {
    match first
    case Broken(w, error) => Broken(Longer(w, more), error)
    case Fed(w, out) => Before(out, Pump(Longer(w, more)))
  }

  lemma BeforeTwice(a: seq<Bytes>, b: seq<Bytes>, rest: Fed)
    ensures Before(a, Before(b, rest)) == Before(a + b, rest)
    ensures Before([], rest) == rest
  {
    if rest.Fed? {
      assert a + (b + rest.out) == (a + b) + rest.out;
      assert [] + rest.out == rest.out;
    }
  }

  lemma {:induction false} PumpGrows(v: View, more: Bytes)
    ensures Pump(Longer(v, more)) == Then(Pump(v), more)
    decreases |v.pending|
  {
    hide LookAt, Accept;
    LookGrows(v.pending, more);
    match LookAt(v.pending)
    case Wait => BeforeTwice([], [], Pump(Longer(v, more)));
    case Refused(error) =>
    case Whole(block, end) =>
      assert (v.pending + more)[end..] == v.pending[end..] + more;
      AcceptLeavesPending(Past(v, end), block, v.pending[end..] + more);
      if Accept(Past(v, end), block).Success? {
        var (w, chunks) := Accept(Past(v, end), block).value;
        PumpGrows(w, more);
        if Pump(w).Fed? {
          BeforeTwice(chunks, Pump(w).out, Pump(Longer(Pump(w).view, more)));
        }
      }
  }

  /** A reassembler that has read everything it can, as it is after any feed that raised nothing. */
  predicate Settled(v: View) {
    LookAt(v.pending).Wait?
  }

  lemma {:induction false} PumpSettles(v: View)
    ensures Pump(v).Fed? ==> Settled(Pump(v).view)
    ensures Settled(v) ==> Pump(v) == Fed(v, [])
    decreases |v.pending|
  {
    hide LookAt, Accept;
    if LookAt(v.pending).Whole? {
      var look := LookAt(v.pending);
      AcceptLeavesPending(Past(v, look.end), look.block, []);
      if Accept(Past(v, look.end), look.block).Success? {
        PumpSettles(Accept(Past(v, look.end), look.block).value.0);
      }
    }
  }

  ghost predicate SameEnd(cut: Fed, whole: Fed) {
    match (cut, whole)
    case (Fed(v, out), Fed(w, all)) => v == w && out == all
    case (Broken(v, error), Broken(w, other)) => error == other && exists tail :: w == Longer(v, tail)
    case _ => false
  }

  /** Any cutting of a stream gives what a single feed of it gives: the same sound, the same counts,
      the same bytes still pending, or the same refusal. */
  lemma {:induction false} CuttingDoesNotMatter(v: View, cuts: seq<Bytes>)
    requires Settled(v)
    ensures SameEnd(FeedAll(v, cuts), Feed(v, Joined(cuts)))
    decreases cuts
  {
    hide Pump, LookAt;
    PumpSettles(v);
    if cuts == [] {
      assert v.pending + [] == v.pending;
    } else {
      var first, later := cuts[0], Joined(cuts[1..]);
      PumpGrows(Longer(v, first), later);
      assert Longer(Longer(v, first), later) == Longer(v, Joined(cuts)) by {
        assert (v.pending + first) + later == v.pending + (first + later);
      }
      PumpSettles(Longer(v, first));
      if Feed(v, first).Fed? {
        CuttingDoesNotMatter(Feed(v, first).view, cuts[1..]);
        if FeedAll(Feed(v, first).view, cuts[1..]).Broken? {
          assert Feed(v, Joined(cuts)).view == Feed(Feed(v, first).view, later).view;
        }
      } else {
        assert Feed(v, Joined(cuts)).view == Longer(FeedAll(v, cuts).view, later);
      }
    }
  }

  // -- first the blocks, then the verdicts ----------------------------------------------------------

  datatype Stream = Stream(blocks: seq<Block>, rest: Bytes, error: Option<BlockError>)

  /** The blocks a stream is made of, up to the first thing that is not one. */
  function Parse(p: Bytes): Stream
    decreases |p|
  {
    match LookAt(p)
    case Wait => Stream([], p, None)
    case Refused(error) => Stream([], p, Some(error))
    case Whole(block, end) =>
      var later := Parse(p[end..]);
      later.(blocks := [block] + later.blocks)
  }

  function AcceptAll(v: View, blocks: seq<Block>): Result<(View, seq<Bytes>), BlockError>
    decreases blocks
  {
    if blocks == [] then Success((v, []))
    else
      match Accept(v, blocks[0])
      case Failure(error) => Failure(error)
      case Success((w, chunks)) =>
        match AcceptAll(w, blocks[1..])
        case Failure(error) => Failure(error)
        case Success((x, more)) => Success((x, chunks + more))
  }

  lemma {:induction false} AcceptAllLeavesPending(v: View, blocks: seq<Block>, pending: Bytes)
    ensures AcceptAll(v.(pending := pending), blocks)
         == match AcceptAll(v, blocks)
            case Failure(error) => Failure(error)
            case Success((w, chunks)) => Success((w.(pending := pending), chunks))
    ensures AcceptAll(v, blocks).Success? ==> AcceptAll(v, blocks).value.0.pending == v.pending
    decreases blocks
  {
    hide Accept;
    if blocks != [] {
      AcceptLeavesPending(v, blocks[0], pending);
      if Accept(v, blocks[0]).Success? {
        AcceptAllLeavesPending(Accept(v, blocks[0]).value.0, blocks[1..], pending);
      }
    }
  }

  ghost predicate PumpedAs(fed: Fed, stream: Stream, verdict: Result<(View, seq<Bytes>), BlockError>) {
    match verdict
    case Failure(error) => fed.Broken? && fed.error == error
    case Success((w, out)) =>
      if stream.error.Some? then fed == Broken(w.(pending := stream.rest), stream.error.value)
      else fed == Fed(w.(pending := stream.rest), out)
  }

  lemma {:induction false} PumpIsParseThenAccept(v: View)
    ensures var stream := Parse(v.pending); PumpedAs(Pump(v), stream, AcceptAll(v, stream.blocks))
    decreases |v.pending|
  {
    hide LookAt, Accept;
    match LookAt(v.pending)
    case Wait =>
    case Refused(error) =>
    case Whole(block, end) =>
      var past := Past(v, end);
      var stream := Parse(past.pending);
      AcceptLeavesPending(v, block, past.pending);
      assert ([block] + stream.blocks)[1..] == stream.blocks;
      if Accept(past, block).Success? {
        var w := Accept(past, block).value.0;
        AcceptLeavesPending(past, block, []);
        PumpIsParseThenAccept(w);
        AcceptAllLeavesPending(Accept(v, block).value.0, stream.blocks, past.pending);
      }
  }

  // -- which blocks count ----------------------------------------------------------------------------

  predicate NewerThanAll(b: Block, blocks: seq<Block>) {
    forall i | 0 <= i < |blocks| :: blocks[i].sequence < b.sequence
  }

  /** The blocks numbered higher than every block before them. */
  function Kept(blocks: seq<Block>): (kept: seq<Block>)
    ensures |kept| <= |blocks|
    ensures blocks != [] ==> kept != []
    decreases blocks
  {
    if blocks == [] then []
    else
      var last, before := blocks[|blocks| - 1], blocks[..|blocks| - 1];
      if NewerThanAll(last, before) then Kept(before) + [last] else Kept(before)
  }

  function End(b: Block): nat {
    b.firstSample + Samples(b)
  }

  predicate Apart(kept: seq<Block>) {
    forall i | 0 < i < |kept| :: End(kept[i - 1]) <= kept[i].firstSample
  }

  /** The samples missing just before the last of some blocks. */
  function Hole(kept: seq<Block>): nat
    requires kept != [] && Apart(kept)
  {
    if |kept| == 1 then 0 else kept[|kept| - 1].firstSample - End(kept[|kept| - 2])
  }

  function Counted(kept: seq<Block>): Counts
    requires Apart(kept)
    decreases kept
  {
    if kept == [] then Fresh().counts
    else Blocks.Counted(Counted(kept[..|kept| - 1]), kept[|kept| - 1], Hole(kept))
  }

  function Heard(kept: seq<Block>): nat
    decreases kept
  {
    if kept == [] then 0 else Heard(kept[..|kept| - 1]) + Samples(kept[|kept| - 1])
  }

  function Flat(chunks: seq<Bytes>): Bytes
    decreases chunks
  {
    if chunks == [] then [] else Flat(chunks[..|chunks| - 1]) + chunks[|chunks| - 1]
  }

  lemma {:induction false} FlatConcat(a: seq<Bytes>, b: seq<Bytes>)
    ensures Flat(a + b) == Flat(a) + Flat(b)
    decreases b
  {
    if b == [] {
      assert a + b == a;
    } else {
      assert (a + b)[..|a + b| - 1] == a + b[..|b| - 1];
      FlatConcat(a, b[..|b| - 1]);
    }
  }

  // -- what plays out keeps time with the capture --------------------------------------------------------

  /** Where a block's sound belongs in what plays out, counted in bytes from the first block on. */
  function Place(kept: seq<Block>, k: nat): int
    requires k < |kept|
  {
    SAMPLE_BYTES * (kept[k].firstSample - kept[0].firstSample)
  }

  predicate Sounds(kept: seq<Block>, k: nat, i: int)
    requires k < |kept|
  {
    Place(kept, k) <= i < Place(kept, k) + |kept[k].pcm|
  }

  predicate SoundsSomewhere(kept: seq<Block>, i: int) {
    exists k | 0 <= k < |kept| :: Sounds(kept, k, i)
  }

  /** Every block sounds exactly where the node captured it, and everywhere else there is silence. */
  ghost predicate KeepsTime(kept: seq<Block>, sound: Bytes) {
    if kept == [] then sound == []
    else
      && |sound| == SAMPLE_BYTES * (End(kept[|kept| - 1]) - kept[0].firstSample)
      && (forall k, i | 0 <= k < |kept| && Sounds(kept, k, i) ::
            0 <= i < |sound| && sound[i] == kept[k].pcm[i - Place(kept, k)])
      && (forall i | 0 <= i < |sound| && !SoundsSomewhere(kept, i) :: sound[i] == 0)
  }

  predicate Filled(kept: seq<Block>) {
    forall i | 0 < i < |kept| :: kept[i].firstSample - End(kept[i - 1]) <= MAX_FILL
  }

  predicate Whole16(blocks: seq<Block>) {
    forall i | 0 <= i < |blocks| :: |blocks[i].pcm| == SAMPLE_BYTES * Samples(blocks[i])
  }

  /** The state of a reassembler and everything it has handed out, told from the blocks alone. */
  ghost predicate Told(blocks: seq<Block>, v: View, out: seq<Bytes>) {
    var kept := Kept(blocks);
    && Apart(kept)
    && v.counts == Counted(kept).(duplicates := |blocks| - |kept|)
    && (kept == [] ==> v.sequence.None? && v.nextSample.None?)
    && (kept != [] ==> v.sequence == Some(kept[|kept| - 1].sequence) && v.nextSample == Some(End(kept[|kept| - 1])))
    && |Flat(out)| == SAMPLE_BYTES * (Heard(kept) + v.counts.filledSamples)
    && (Filled(kept) ==> KeepsTime(kept, Flat(out)))
  }

  lemma {:induction false} KeptIsTheNewest(blocks: seq<Block>)
    ensures var kept := Kept(blocks);
            kept != [] ==> forall i | 0 <= i < |blocks| :: blocks[i].sequence <= kept[|kept| - 1].sequence
    ensures blocks == [] || Kept(blocks)[|Kept(blocks)| - 1] in blocks
    ensures forall b | b in Kept(blocks) :: b in blocks
    decreases blocks
  {
    if blocks != [] {
      KeptIsTheNewest(blocks[..|blocks| - 1]);
    }
  }

  /** What counts is numbered in strictly rising order. */
  lemma {:induction false} KeptRises(blocks: seq<Block>)
    ensures forall i, j | 0 <= i < j < |Kept(blocks)| :: Kept(blocks)[i].sequence < Kept(blocks)[j].sequence
    decreases blocks
  {
    if blocks != [] {
      var before := blocks[..|blocks| - 1];
      KeptRises(before);
      KeptIsTheNewest(before);
    }
  }

  lemma {:induction false} ApartFront(kept: seq<Block>, b: Block)
    ensures Apart(kept + [b]) <==> Apart(kept) && (kept == [] || End(kept[|kept| - 1]) <= b.firstSample)
    ensures Filled(kept + [b]) <==> Filled(kept) && (kept == [] || b.firstSample - End(kept[|kept| - 1]) <= MAX_FILL)
  {
    var more := kept + [b];
    assert forall i | 0 <= i < |kept| :: more[i] == kept[i];
    if kept != [] {
      assert more[|kept| - 1] == kept[|kept| - 1] && more[|kept|] == b;
    }
  }

  lemma FirstKeepsTime(b: Block)
    requires |b.pcm| == SAMPLE_BYTES * Samples(b)
    ensures KeepsTime([b], b.pcm)
  {
    assert Place([b], 0) == 0;
    forall i | 0 <= i < |b.pcm| ensures SoundsSomewhere([b], i) {
      assert Sounds([b], 0, i);
    }
  }

  lemma NothingYet(sound: Bytes)
    requires KeepsTime([], sound)
    ensures sound == []
  {
  }

  lemma NextKeepsTime(kept: seq<Block>, sound: Bytes, b: Block)
    requires kept != [] && KeepsTime(kept, sound) && |b.pcm| == SAMPLE_BYTES * Samples(b)
    requires End(kept[|kept| - 1]) <= b.firstSample
    ensures KeepsTime(kept + [b], sound + Silence(b.firstSample - End(kept[|kept| - 1])) + b.pcm)
  {
    var more, n := kept + [b], |kept|;
    var all := sound + Silence(b.firstSample - End(kept[n - 1])) + b.pcm;
    assert forall k | 0 <= k < n :: more[k] == kept[k];
    assert Place(more, n) + |b.pcm| == |all| && all[Place(more, n)..] == b.pcm;
    forall k, i | 0 <= k < |more| && Sounds(more, k, i)
      ensures 0 <= i < |all| && all[i] == more[k].pcm[i - Place(more, k)]
    {
      if k < n {
        assert Sounds(kept, k, i);
      } else {
        assert all[i] == all[Place(more, n)..][i - Place(more, n)];
      }
    }
    forall i | 0 <= i < |all| && !SoundsSomewhere(more, i) ensures all[i] == 0 {
      assert !Sounds(more, n, i);
      if i < |sound| {
        forall k | 0 <= k < n ensures !Sounds(kept, k, i) {
          assert !Sounds(more, k, i);
        }
        assert !SoundsSomewhere(kept, i);
      }
    }
  }

  lemma FlatOne(a: Bytes)
    ensures Flat([a]) == a
  {
    assert [a][..0] == [];
    assert [] + a == a;
  }

  lemma FlatAccepted(out: seq<Bytes>, missing: nat, pcm: Bytes)
    ensures Flat(out + [pcm]) == Flat(out) + pcm
    ensures Flat(out + [Silence(missing), pcm]) == Flat(out) + Silence(missing) + pcm
    ensures Flat(out + []) == Flat(out)
  {
    assert out + [] == out;
    FlatConcat(out, [pcm]);
    FlatOne(pcm);
    assert out + [Silence(missing), pcm] == (out + [Silence(missing)]) + [pcm];
    FlatConcat(out, [Silence(missing)]);
    FlatOne(Silence(missing));
    FlatConcat(out + [Silence(missing)], [pcm]);
  }

  lemma CountedFront(kept: seq<Block>, b: Block)
    requires Apart(kept + [b])
    ensures Apart(kept)
    ensures Counted(kept + [b]) == Blocks.Counted(Counted(kept), b, Hole(kept + [b]))
    ensures Heard(kept + [b]) == Heard(kept) + Samples(b)
  {
    ApartFront(kept, b);
    assert (kept + [b])[..|kept + [b]| - 1] == kept;
  }

  lemma KeptFront(blocks: seq<Block>, b: Block)
    ensures Kept(blocks + [b]) == if NewerThanAll(b, blocks) then Kept(blocks) + [b] else Kept(blocks)
  {
    assert (blocks + [b])[..|blocks + [b]| - 1] == blocks;
  }

  /** The code compares with the last number it accepted; that is the highest it has seen. */
  lemma NewerIsNewerThanTheLast(blocks: seq<Block>, v: View, out: seq<Bytes>, b: Block)
    requires Told(blocks, v, out)
    ensures NewerThanAll(b, blocks) <==> v.sequence.None? || v.sequence.value < b.sequence
  {
    hide KeepsTime, Counted, Heard;
    KeptIsTheNewest(blocks);
    var kept := Kept(blocks);
    if kept != [] {
      var last :| 0 <= last < |blocks| && blocks[last] == kept[|kept| - 1];
    }
  }

  /** One more block, and the story still holds; or it overlaps, and nothing after it does. */
  lemma TellOneMore(blocks: seq<Block>, v: View, out: seq<Bytes>, b: Block)
    requires Told(blocks, v, out) && |b.pcm| == SAMPLE_BYTES * Samples(b)
    ensures Accept(v, b).Success? <==> Apart(Kept(blocks + [b]))
    ensures Accept(v, b).Success? ==>
              var (w, chunks) := Accept(v, b).value;
              Told(blocks + [b], w, out + chunks)
  {
    hide KeepsTime, Counted, Heard, Kept, NewerThanAll, Filled, Apart, Hole, Flat, Blocks.Counted;
    NewerIsNewerThanTheLast(blocks, v, out, b);
    KeptFront(blocks, b);
    ApartFront(Kept(blocks), b);
    if NewerThanAll(b, blocks) {
      if Accept(v, b).Success? {
        TellANewOne(blocks, v, out, b);
      }
    } else {
      FlatAccepted(out, 0, []);
    }
  }

  lemma HoleIsMissing(blocks: seq<Block>, v: View, out: seq<Bytes>, b: Block)
    requires Told(blocks, v, out) && Apart(Kept(blocks) + [b])
    ensures v.nextSample.Some? ==> v.nextSample.value <= b.firstSample
    ensures Hole(Kept(blocks) + [b]) == Missing(v, b)
  {
    hide KeepsTime, Counted, Heard, Kept, Flat;
    ApartFront(Kept(blocks), b);
  }

  lemma TellANewOne(blocks: seq<Block>, v: View, out: seq<Bytes>, b: Block)
    requires Told(blocks, v, out) && |b.pcm| == SAMPLE_BYTES * Samples(b)
    requires NewerThanAll(b, blocks) && Accept(v, b).Success?
    requires v.sequence.None? || v.sequence.value < b.sequence
    ensures var (w, chunks) := Accept(v, b).value;
            Told(blocks + [b], w, out + chunks)
  {
    hide KeepsTime, Counted, Heard, Kept, NewerThanAll, Filled, Apart, Hole, Flat;
    var kept := Kept(blocks);
    KeptFront(blocks, b);
    ApartFront(kept, b);
    CountedFront(kept, b);
    HoleIsMissing(blocks, v, out, b);
    var missing := Missing(v, b);
    FlatAccepted(out, missing, b.pcm);
    if Filled(kept + [b]) {
      if kept == [] {
        NothingYet(Flat(out));
        FirstKeepsTime(b);
        assert [] + b.pcm == b.pcm;
        assert [] + [b] == [b];
      } else {
        NextKeepsTime(kept, Flat(out), b);
        if missing == 0 {
          assert Flat(out) + Silence(0) == Flat(out);
        }
      }
    }
  }

  lemma {:induction false} AcceptAllFront(v: View, blocks: seq<Block>, b: Block)
    ensures AcceptAll(v, blocks + [b])
         == match AcceptAll(v, blocks)
            case Failure(error) => Failure(error)
            case Success((w, out)) =>
              match Accept(w, b)
              case Failure(error) => Failure(error)
              case Success((x, chunks)) => Success((x, out + chunks))
    decreases blocks
  {
    hide Accept;
    if blocks == [] {
      assert [] + [b] == [b] && [b][1..] == [];
      if Accept(v, b).Success? {
        assert Accept(v, b).value.1 + [] == [] + Accept(v, b).value.1;
      }
    } else {
      assert (blocks + [b])[1..] == blocks[1..] + [b];
      if Accept(v, blocks[0]).Success? {
        var (w, chunks) := Accept(v, blocks[0]).value;
        AcceptAllFront(w, blocks[1..], b);
        if AcceptAll(w, blocks[1..]).Success? {
          var (x, out) := AcceptAll(w, blocks[1..]).value;
          if Accept(x, b).Success? {
            assert chunks + (out + Accept(x, b).value.1) == (chunks + out) + Accept(x, b).value.1;
          }
        }
      }
    }
  }

  /** A run of blocks is refused exactly when one that counts starts before the last one that counted
      has ended; otherwise the state and the sound are what the blocks say. */
  lemma {:induction false} StoryOfBlocks(blocks: seq<Block>)
    requires Whole16(blocks)
    ensures AcceptAll(Fresh(), blocks).Success? <==> Apart(Kept(blocks))
    ensures AcceptAll(Fresh(), blocks).Success? ==>
              var (v, out) := AcceptAll(Fresh(), blocks).value;
              Told(blocks, v, out)
    decreases blocks
  {
    hide Accept, KeepsTime, Counted, NewerThanAll, Told;
    if blocks == [] {
      NothingTold();
    } else {
      var before, b := blocks[..|blocks| - 1], blocks[|blocks| - 1];
      assert before + [b] == blocks;
      StoryOfBlocks(before);
      AcceptAllFront(Fresh(), before, b);
      KeptFront(before, b);
      ApartFront(Kept(before), b);
      if AcceptAll(Fresh(), before).Success? {
        var (v, out) := AcceptAll(Fresh(), before).value;
        TellOneMore(before, v, out, b);
      }
    }
  }

  lemma NothingTold()
    ensures Told([], Fresh(), [])
  {
  }

  lemma {:induction false} ParsedBlocksAreWhole(p: Bytes)
    ensures Whole16(Parse(p).blocks)
    decreases |p|
  {
    hide LookAt;
    if LookAt(p).Whole? {
      ParsedBlocksAreWhole(p[LookAt(p).end..]);
    }
  }

  /** Over any cutting: the run raises nothing exactly when the stream is all blocks and the ones that
      count do not overlap; then state, sound and pending bytes are what those blocks say. */
  lemma StoryOfAStream(cuts: seq<Bytes>)
    ensures var stream, fed := Parse(Joined(cuts)), FeedAll(Fresh(), cuts);
            && (fed.Fed? <==> stream.error.None? && Apart(Kept(stream.blocks)))
            && (fed.Fed? ==> fed.view.pending == stream.rest && Told(stream.blocks, fed.view, fed.out))
  {
    hide Accept, Parse, Told, Pump, FeedAll, AcceptAll, Apart, Kept;
    var p := Joined(cuts);
    FreshIsSettled();
    CuttingDoesNotMatter(Fresh(), cuts);
    assert [] + p == p;
    PumpIsParseThenAccept(Longer(Fresh(), p));
    var blocks := Parse(p).blocks;
    ParsedBlocksAreWhole(p);
    StoryOfBlocks(blocks);
    AcceptAllLeavesPending(Fresh(), blocks, p);
    if AcceptAll(Fresh(), blocks).Success? {
      var (w, out) := AcceptAll(Fresh(), blocks).value;
      ToldOfAnyPending(blocks, w, out, Parse(p).rest);
    }
  }

  lemma FreshIsSettled()
    ensures Settled(Fresh())
  {
  }

  lemma ToldOfAnyPending(blocks: seq<Block>, v: View, out: seq<Bytes>, pending: Bytes)
    requires Told(blocks, v, out)
    ensures Told(blocks, v.(pending := pending), out)
  {
    hide KeepsTime, Counted, Heard, Kept, Apart, Flat;
  }

  /** The next sample is the first one heard, plus every sample heard, plus every sample lost. */
  lemma {:induction false} SamplesAddUp(kept: seq<Block>)
    requires kept != [] && Apart(kept)
    ensures End(kept[|kept| - 1]) == kept[0].firstSample + Heard(kept) + Counted(kept).lostSamples
    ensures Counted(kept).blocks == |kept|
    ensures Counted(kept).filledSamples <= Counted(kept).lostSamples
    ensures Filled(kept) ==> Counted(kept).filledSamples == Counted(kept).lostSamples
    decreases kept
  {
    hide Filled, Apart, Counted, Heard, Hole, Blocks.Counted;
    var before, b := kept[..|kept| - 1], kept[|kept| - 1];
    assert before + [b] == kept;
    ApartFront(before, b);
    CountedFront(before, b);
    CountedAdds(Counted(before), b, Hole(kept));
    if before == [] {
      NothingCounted();
      HoleOfOne(b);
    } else {
      SamplesAddUp(before);
      HoleOfMore(before, b);
    }
  }

  lemma CountedAdds(c: Counts, b: Block, missing: nat)
    ensures var d := Blocks.Counted(c, b, missing);
            && d.blocks == c.blocks + 1 && d.lostSamples == c.lostSamples + missing
            && d.filledSamples == c.filledSamples + (if missing <= MAX_FILL then missing else 0)
            && d.gaps == c.gaps + (if missing != 0 then 1 else 0)
            && d.nodeGaps == c.nodeGaps + (if b.flags & FLAG_GAP != 0 then 1 else 0)
            && d.lastCapturedNs == Some(b.capturedNs)
  {
  }

  lemma HoleOfOne(b: Block)
    ensures Apart([b]) && Hole([b]) == 0
    ensures Filled([b])
  {
  }

  lemma HoleOfMore(before: seq<Block>, b: Block)
    requires before != [] && Apart(before + [b])
    ensures Hole(before + [b]) == b.firstSample - End(before[|before| - 1])
  {
    var more := before + [b];
    assert more[|more| - 1] == b && more[|more| - 2] == before[|before| - 1];
  }

  lemma NothingCounted()
    ensures Counted([]) == Fresh().counts && Heard([]) == 0
  {
  }

  /** The whole timeline, over any cutting that raises nothing. */
  lemma TimelineOfAStream(cuts: seq<Bytes>)
    requires FeedAll(Fresh(), cuts).Fed?
    ensures var fed, blocks := FeedAll(Fresh(), cuts), Parse(Joined(cuts)).blocks;
            var kept, counts := Kept(blocks), fed.view.counts;
            && counts.blocks == |kept| && counts.duplicates == |blocks| - |kept|
            && (forall i, j | 0 <= i < j < |kept| :: kept[i].sequence < kept[j].sequence)
            && |Flat(fed.out)| == SAMPLE_BYTES * (Heard(kept) + counts.filledSamples)
            && (kept != [] ==> fed.view.nextSample == Some(kept[0].firstSample + Heard(kept) + counts.lostSamples))
            && (Filled(kept) ==> counts.filledSamples == counts.lostSamples && KeepsTime(kept, Flat(fed.out)))
  {
    hide Kept, Counted, Heard, Parse, FeedAll, Filled, Flat, KeepsTime, Apart;
    StoryOfAStream(cuts);
    var kept := Kept(Parse(Joined(cuts)).blocks);
    KeptRises(Parse(Joined(cuts)).blocks);
    if kept != [] {
      SamplesAddUp(kept);
    } else {
      NothingCounted();
    }
  }

  // -- what a node packs the hub reads back ------------------------------------------------------------------

  lemma U64RoundTrip(n: nat)
    requires n < 0x1_0000_0000_0000_0000
    ensures |PutU64(n)| == 8 && U64At(PutU64(n), 0) == n
  {
    hide Link.U32, Link.Low8;
    LinkProofs.U32RoundTrip(n % 0x1_0000_0000);
    LinkProofs.U32RoundTrip(n / 0x1_0000_0000);
  }

  lemma PackedFields(b: Block, p: Bytes)
    requires Packable(b) && p == Packed(b)
    ensures |p| == HEADER_SIZE + |b.pcm|
    ensures p[..4] == MAGIC && p[4] == 1 && p[5] == b.flags && p[6] == Link.Low8(0) && p[7] == Link.Low8(0)
    ensures p[8..12] == Link.PutU32(b.sequence) && p[12..20] == PutU64(b.firstSample) && p[20..28] == PutU64(b.capturedNs)
    ensures p[28..30] == Link.PutU16(Samples(b)) && p[HEADER_SIZE..] == b.pcm
  {
    hide Link.Low8;
  }

  lemma NumbersSlice(p: Bytes, i: nat)
    ensures i + 4 <= |p| ==> U32At(p, i) == U32At(p[i..i + 4], 0)
    ensures i + 8 <= |p| ==> U64At(p, i) == U64At(p[i..i + 8], 0)
  {
    hide Link.U32;
  }

  lemma ZeroIsZero()
    ensures Link.Low8(0) == 0
  {
  }

  lemma KnownFlags(flags: bv8)
    requires flags in {0, FLAG_GAP}
    ensures flags & 0xFE == 0
  {
  }

  lemma PackedIsWhole(b: Block, more: Bytes)
    requires Packable(b)
    ensures LookAt(Packed(b) + more) == Whole(b, |Packed(b)|)
  {
    var p := Packed(b);
    PackedIsRead(b, p);
    hide LookAt, Packed;
    LookGrows(p, more);
  }

  lemma PackedIsRead(b: Block, p: Bytes)
    requires Packable(b) && p == Packed(b)
    ensures LookAt(p) == Whole(b, |p|)
  {
    hide Packed, Link.Low8, Link.U32, Link.U16, PutU64, U64At;
    PackedFields(b, p);
    ZeroIsZero();
    KnownFlags(b.flags);
    NumbersSlice(p, 8);
    NumbersSlice(p, 12);
    NumbersSlice(p, 20);
    LinkProofs.U32RoundTrip(b.sequence);
    U64RoundTrip(b.firstSample);
    U64RoundTrip(b.capturedNs);
    LinkProofs.U16RoundTrip(Samples(b));
    assert p[28] == p[28..30][0] && p[29] == p[28..30][1];
    assert p[HEADER_SIZE..|p|] == b.pcm;
  }

  function PackedAll(blocks: seq<Block>): Bytes
    decreases blocks
  {
    if blocks == [] then [] else Packed(blocks[0]) + PackedAll(blocks[1..])
  }

  lemma {:induction false} ParsePacked(blocks: seq<Block>)
    requires forall b | b in blocks :: Packable(b)
    ensures Parse(PackedAll(blocks)) == Stream(blocks, [], None)
    decreases blocks
  {
    hide LookAt, Packed, Packable;
    if blocks == [] {
      FreshIsSettled();
    } else {
      PackedIsWhole(blocks[0], PackedAll(blocks[1..]));
      assert (Packed(blocks[0]) + PackedAll(blocks[1..]))[|Packed(blocks[0])|..] == PackedAll(blocks[1..]);
      ParsePacked(blocks[1..]);
    }
  }

  /** What a node packs, cut anywhere on its way: every block is read back, and it all plays out unless
      a newer block overlaps the one before it. */
  lemma HeardAsSent(blocks: seq<Block>, cuts: seq<Bytes>)
    requires forall b | b in blocks :: Packable(b)
    requires Joined(cuts) == PackedAll(blocks)
    ensures FeedAll(Fresh(), cuts).Fed? <==> Apart(Kept(blocks))
    ensures Apart(Kept(blocks)) ==>
              var fed := FeedAll(Fresh(), cuts);
              fed.view.pending == [] && Told(blocks, fed.view, fed.out)
  {
    hide FeedAll, Told, Kept, Apart, Parse, Packable, PackedAll;
    ParsePacked(blocks);
    StoryOfAStream(cuts);
  }

  // -- what each count counts ----------------------------------------------------------------------------

  function HolesBefore(kept: seq<Block>): set<nat> {
    set i: nat | 0 < i < |kept| && kept[i].firstSample != End(kept[i - 1])
  }

  function Flagged(kept: seq<Block>): set<nat> {
    set i: nat | i < |kept| && kept[i].flags & FLAG_GAP != 0
  }

  lemma HolesFront(kept: seq<Block>, b: Block)
    ensures HolesBefore(kept + [b])
         == HolesBefore(kept) + if kept != [] && b.firstSample != End(kept[|kept| - 1]) then {|kept|} else {}
    ensures Flagged(kept + [b]) == Flagged(kept) + if b.flags & FLAG_GAP != 0 then {|kept|} else {}
  {
    var more := kept + [b];
    assert forall i: nat | i < |kept| :: more[i] == kept[i];
    assert more[|kept|] == b;
  }

  /** `gaps` counts the blocks that count and start later than expected, `node_gaps` those that say the
      node lost samples, and the last capture time is the last such block's. */
  lemma {:induction false} CountsCount(kept: seq<Block>)
    requires Apart(kept)
    ensures Counted(kept).gaps == |HolesBefore(kept)|
    ensures Counted(kept).nodeGaps == |Flagged(kept)|
    ensures kept != [] ==> Counted(kept).lastCapturedNs == Some(kept[|kept| - 1].capturedNs)
    decreases kept
  {
    hide HolesBefore, Flagged, Apart, Counted, Heard, Hole, Blocks.Counted;
    if kept == [] {
      NothingCounted();
      NoBlocksNoHoles();
    } else {
      var before, b := kept[..|kept| - 1], kept[|kept| - 1];
      assert before + [b] == kept;
      ApartFront(before, b);
      CountedFront(before, b);
      CountedAdds(Counted(before), b, Hole(kept));
      CountsCount(before);
      HolesFront(before, b);
      IndicesAreBelow(before);
      if before == [] {
        HoleOfOne(b);
      } else {
        HoleOfMore(before, b);
      }
    }
  }

  lemma NoBlocksNoHoles()
    ensures HolesBefore([]) == {} && Flagged([]) == {}
  {
  }

  lemma IndicesAreBelow(kept: seq<Block>)
    ensures |kept| !in HolesBefore(kept) && |kept| !in Flagged(kept)
  {
  }
}
