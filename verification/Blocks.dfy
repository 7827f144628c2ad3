/** Blocks of sound from a satellite's microphone, and how the hub puts a stream of them back
    together: numbered blocks in, in any cutting, and samples ready to play out, with a count of
    everything that went wrong on the way.
  */
module Blocks {
  import opened Wrappers
  import Link

  type Bytes = Link.Bytes

  const MAGIC: Bytes := [0x53, 0x4D, 0x41, 0x31]
  const HEADER_SIZE: nat := 30
  const SAMPLE_BYTES: nat := 2
  const MAX_BLOCK_SAMPLES: nat := 3200
  const MAX_FILL: nat := 16000 // samples: one second
  const FLAG_GAP: bv8 := 1

  datatype Block = Block(sequence: nat, firstSample: nat, capturedNs: nat, flags: bv8, pcm: Bytes)

  datatype BlockError = NotSound | UnknownBits | BadCount(count: nat) | Overlaps

  function Samples(b: Block): nat {
    |b.pcm| / SAMPLE_BYTES
  }

  // -- the wire -----------------------------------------------------------------------------

  function U64(low: nat, high: nat): nat {
    low + 0x1_0000_0000 * high
  }

  function PutU64(n: nat): Bytes {
    Link.PutU32(n % 0x1_0000_0000) + Link.PutU32(n / 0x1_0000_0000)
  }

  function Header(b: Block): Bytes {
    MAGIC + [1, b.flags] + Link.PutU16(0) + Link.PutU32(b.sequence) + PutU64(b.firstSample) + PutU64(b.capturedNs)
    + Link.PutU16(Samples(b))
  }

  function Packed(b: Block): Bytes {
    Header(b) + b.pcm
  }

  /** A block the format can hold and the hub will read. */
  predicate Packable(b: Block) {
    && b.sequence < 0x1_0000_0000
    && b.firstSample < 0x1_0000_0000_0000_0000
    && b.capturedNs < 0x1_0000_0000_0000_0000
    && b.flags in {0, FLAG_GAP}
    && |b.pcm| % SAMPLE_BYTES == 0
    && 0 < Samples(b) <= MAX_BLOCK_SAMPLES
  }

  function U32At(p: Bytes, i: nat): nat
    requires i + 4 <= |p|
  {
    Link.U32(p[i], p[i + 1], p[i + 2], p[i + 3])
  }

  function U64At(p: Bytes, i: nat): nat
    requires i + 8 <= |p|
  {
    U64(U32At(p, i), U32At(p, i + 4))
  }

  function CountAt(p: Bytes): nat
    requires |p| >= HEADER_SIZE
  {
    Link.U16(p[28], p[29])
  }

  predicate HeaderBitsKnown(p: Bytes)
    requires |p| >= HEADER_SIZE
  {
    p[6] == 0 && p[7] == 0 && p[5] & 0xFE == 0
  }

  function BlockAt(p: Bytes, end: nat): Block
    requires HEADER_SIZE <= end <= |p|
  {
    Block(U32At(p, 8), U64At(p, 12), U64At(p, 20), p[5], p[HEADER_SIZE..end])
  }

  /** What the front of the pending bytes is. The header is judged before the samples are there. */
  datatype Look = Wait | Refused(error: BlockError) | Whole(block: Block, end: nat)

  function LookAt(p: Bytes): (look: Look)
    ensures look.Whole? ==> HEADER_SIZE < look.end <= |p| && look.end == HEADER_SIZE + |look.block.pcm|
    ensures look.Whole? ==> |look.block.pcm| == SAMPLE_BYTES * Samples(look.block) && 0 < Samples(look.block) <= MAX_BLOCK_SAMPLES
  {
    if |p| < HEADER_SIZE then Wait
    else if p[..4] != MAGIC || p[4] != 1 then Refused(NotSound)
    else if !HeaderBitsKnown(p) then Refused(UnknownBits)
    else if !(0 < CountAt(p) <= MAX_BLOCK_SAMPLES) then Refused(BadCount(CountAt(p)))
    else
      var end := HEADER_SIZE + CountAt(p) * SAMPLE_BYTES;
      if |p| < end then Wait else Whole(BlockAt(p, end), end)
  }

  // -- the reassembler, as a function ----------------------------------------------------------

  datatype Counts = Counts(
    blocks: nat,
    duplicates: nat,
    gaps: nat,
    lostSamples: nat,
    filledSamples: nat,
    nodeGaps: nat,
    lastCapturedNs: Option<nat>)

  datatype View = View(pending: Bytes, sequence: Option<nat>, nextSample: Option<nat>, counts: Counts)

  function Fresh(): View {
    View([], None, None, Counts(0, 0, 0, 0, 0, 0, None))
  }

  function Silence(samples: nat): Bytes {
    seq(samples * SAMPLE_BYTES, i => 0)
  }

  /** Samples between what was expected and what came. */
  function Missing(v: View, b: Block): nat
    requires v.nextSample.Some? ==> v.nextSample.value <= b.firstSample
  {
    if v.nextSample.None? then 0 else b.firstSample - v.nextSample.value
  }

  function Counted(c: Counts, b: Block, missing: nat): Counts {
    c.(blocks := c.blocks + 1,
       lastCapturedNs := Some(b.capturedNs),
       nodeGaps := if b.flags & FLAG_GAP != 0 then c.nodeGaps + 1 else c.nodeGaps,
       gaps := if missing != 0 then c.gaps + 1 else c.gaps,
       lostSamples := c.lostSamples + missing,
       filledSamples := if missing <= MAX_FILL then c.filledSamples + missing else c.filledSamples)
  }

  function Accept(v: View, b: Block): Result<(View, seq<Bytes>), BlockError> {
    if v.sequence.Some? && b.sequence <= v.sequence.value then
      Success((v.(counts := v.counts.(duplicates := v.counts.duplicates + 1)), []))
    else if v.nextSample.Some? && b.firstSample < v.nextSample.value then Failure(Overlaps)
    else
      var missing := Missing(v, b);
      Success((v.(sequence := Some(b.sequence), nextSample := Some(b.firstSample + Samples(b)), counts := Counted(v.counts, b, missing)),
               if 0 < missing <= MAX_FILL then [Silence(missing), b.pcm] else [b.pcm]))
  }

  /** What one `feed` leaves behind. A feed that raises returns none of its sound. */
  datatype Fed = Fed(view: View, out: seq<Bytes>) | Broken(view: View, error: BlockError)

  /** The view after the block at the front has been taken out of the pending bytes. */
  function Past(v: View, end: nat): View
    requires end <= |v.pending|
  {
    v.(pending := v.pending[end..])
  }

  function Pump(v: View): Fed
    decreases |v.pending|
  {
    match LookAt(v.pending)
    case Wait => Fed(v, [])
    case Refused(error) => Broken(v, error)
    case Whole(block, end) =>
      match Accept(Past(v, end), block)
      case Failure(error) => Broken(Past(v, end), error)
      case Success((w, chunks)) => Before(chunks, Pump(w))
  }

  /** What was already collected, in front of what a later feed or block brought. */
  function Before(chunks: seq<Bytes>, rest: Fed): Fed {
    match rest
    case Fed(x, more) => Fed(x, chunks + more)
    case Broken(x, error) => Broken(x, error)
  }

  function Longer(v: View, more: Bytes): View {
    v.(pending := v.pending + more)
  }

  function Feed(v: View, data: Bytes): Fed {
    Pump(Longer(v, data))
  }

  /** A run of feeds, ending at the first that raises. */
  function FeedAll(v: View, cuts: seq<Bytes>): Fed
    decreases cuts
  {
    if cuts == [] then Fed(v, [])
    else
      match Feed(v, cuts[0])
      case Broken(w, error) => Broken(w, error)
      case Fed(w, out) => Before(out, FeedAll(w, cuts[1..]))
  }

  // -- the reassembler, as the code does it -----------------------------------------------------

  class Reassembler {
    var blocks: nat
    var duplicates: nat
    var gaps: nat
    var lostSamples: nat
    var filledSamples: nat
    var nodeGaps: nat
    var lastCapturedNs: Option<nat>
    var pending: Bytes
    var sequence: Option<nat>
    var nextSample: Option<nat>

    function Now(): View
      reads this
    {
      View(pending, sequence, nextSample, Counts(blocks, duplicates, gaps, lostSamples, filledSamples, nodeGaps, lastCapturedNs))
    }

    constructor ()
      ensures Now() == Fresh()
    {
      blocks, duplicates, gaps, lostSamples, filledSamples, nodeGaps := 0, 0, 0, 0, 0, 0;
      lastCapturedNs, pending, sequence, nextSample := None, [], None, None;
    }

    method FeedBytes(data: Bytes) returns (result: Result<seq<Bytes>, BlockError>)
      modifies this
      ensures Now() == Feed(old(Now()), data).view
      ensures result == match Feed(old(Now()), data)
                        case Fed(_, out) => Success(out)
                        case Broken(_, error) => Failure(error)
    {
      hide LookAt, Accept;
      ghost var whole := Feed(Now(), data);
      pending := pending + data;
      var out: seq<Bytes> := [];
      while |pending| >= HEADER_SIZE
        invariant whole == Before(out, Pump(Now()))
        decreases |pending|
      {
        var look := Examine();
        if look.Refused? {
          return Failure(look.error);
        }
        if look.Wait? {
          assert out + [] == out;
          return Success(out);
        }
        ghost var before := Now();
        pending := pending[look.end..];
        assert Now() == Past(before, look.end);
        var accepted := AcceptBlock(look.block);
        if accepted.Failure? {
          return Failure(accepted.error);
        }
        ghost var rest := Pump(Now());
        assert rest.Fed? ==> out + (accepted.value + rest.out) == (out + accepted.value) + rest.out;
        out := out + accepted.value;
      }
      ShortWaits(pending);
      assert out + [] == out;
      return Success(out);
    }

    method Examine() returns (look: Look)
      requires |pending| >= HEADER_SIZE
      ensures look == LookAt(pending)
    {
      if pending[..4] != MAGIC || pending[4] != 1 {
        return Refused(NotSound);
      }
      if !HeaderBitsKnown(pending) {
        return Refused(UnknownBits);
      }
      var count := CountAt(pending);
      if !(0 < count <= MAX_BLOCK_SAMPLES) {
        return Refused(BadCount(count));
      }
      var end := HEADER_SIZE + count * SAMPLE_BYTES;
      if |pending| < end {
        return Wait;
      }
      return Whole(BlockAt(pending, end), end);
    }

    method AcceptBlock(b: Block) returns (out: Result<seq<Bytes>, BlockError>)
      modifies this
      ensures pending == old(pending)
      ensures match Accept(old(Now()), b)
              case Failure(error) => out == Failure(error) && Now() == old(Now())
              case Success((w, chunks)) => out == Success(chunks) && Now() == w
    {
      hide Silence, Samples;
      if sequence.Some? && b.sequence <= sequence.value {
        duplicates := duplicates + 1;
        return Success([]);
      }
      var expected := nextSample;
      if expected.Some? && b.firstSample < expected.value {
        return Failure(Overlaps);
      }
      sequence := Some(b.sequence);
      nextSample := Some(b.firstSample + Samples(b));
      blocks := blocks + 1;
      lastCapturedNs := Some(b.capturedNs);
      if b.flags & FLAG_GAP != 0 {
        nodeGaps := nodeGaps + 1;
      }
      var missing := if expected.None? then 0 else b.firstSample - expected.value;
      var chunks: seq<Bytes> := [];
      if missing != 0 {
        gaps := gaps + 1;
        lostSamples := lostSamples + missing;
        if missing <= MAX_FILL {
          filledSamples := filledSamples + missing;
          chunks := [Silence(missing)];
        }
      }
      assert [] + [b.pcm] == [b.pcm] && [Silence(missing)] + [b.pcm] == [Silence(missing), b.pcm];
      return Success(chunks + [b.pcm]);
    }
  }

  lemma ShortWaits(p: Bytes)
    requires |p| < HEADER_SIZE
    ensures LookAt(p).Wait?
  {
  }
}
