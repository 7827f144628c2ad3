/** What the link's reader guarantees: the cutting of the stream does not matter, every byte is
    accounted for, what one side packs the other reads back, noise costs exactly itself, and a
    damaged frame is refused.
  */
module LinkProofs {
  import opened Basics
  import opened Wrappers
  import opened Link
  import Crc32
  import Octets

  // -- the cutting does not matter --------------------------------------------------------

  lemma LookGrows(p: Bytes, more: Bytes)
    ensures LookAt(p).Junk? ==> LookAt(p + more).Junk?
    ensures LookAt(p).Whole? ==> LookAt(p + more) == LookAt(p)
  {
    if |p| >= HEADER_SIZE && HasMagic(p) && HeaderFits(p) {
      var body := HEADER_SIZE + LengthField(p);
      if |p| >= body + TRAILER_SIZE {
        assert (p + more)[..body] == p[..body];
        assert (p + more)[HEADER_SIZE..body] == p[HEADER_SIZE..body];
      }
    }
  }

  lemma {:induction false} ScanGrows(p: Bytes, more: Bytes)
    ensures var rest := p[Scan(p)..];
            && Scan(p + more) == Scan(p) + Scan(rest + more)
            && (p + more)[Scan(p)..] == rest + more
    decreases |p|
  {
    hide LookAt;
    LookGrows(p, more);
    if LookAt(p).Junk? {
      assert (p + more)[1..] == p[1..] + more;
      ScanGrows(p[1..], more);
      assert p[1..][Scan(p[1..])..] == p[Scan(p)..];
      assert (p + more)[1..][Scan(p[1..])..] == (p + more)[Scan(p)..];
    } else {
      assert p[0..] == p;
      assert (p + more)[0..] == p + more;
    }
  }

  function Longer(v: ReaderView, more: Bytes): ReaderView {
    v.(pending := v.pending + more)
  }

  function Rest(v: ReaderView): ReaderView {
    v.(pending := v.pending[Scan(v.pending)..], discarded := v.discarded + Scan(v.pending))
  }

  /** `Take` in two moves: give up the junk, then look. */
  lemma TakeLooks(v: ReaderView)
    ensures !LookAt(Rest(v).pending).Junk?
    ensures LookAt(Rest(v).pending).Wait? ==> Take(v) == Idle(Rest(v))
    ensures LookAt(Rest(v).pending).Whole? ==>
              var look := LookAt(Rest(v).pending);
              Take(v) == Verdict(Rest(v).(pending := Rest(v).pending[look.end..]), look.raw)
  {
    hide LookAt, Verdict;
  }

  lemma RestGrows(v: ReaderView, more: Bytes)
    ensures Rest(Longer(v, more)) == Rest(Longer(Rest(v), more))
    ensures LookAt(Rest(v).pending).Whole? ==> Rest(Longer(v, more)) == Longer(Rest(v), more)
  {
    hide LookAt;
    var p, rest := v.pending, Rest(v).pending;
    ScanGrows(p, more);
    var count := Scan(rest + more);
    assert (p + more)[Scan(p)..][count..] == (p + more)[Scan(p + more)..];
    LookGrows(rest, more);
    if LookAt(rest).Whole? {
      ScanStops(rest + more);
      assert (rest + more)[0..] == rest + more;
    }
  }

  lemma VerdictGrows(past: ReaderView, raw: Raw, more: Bytes)
    ensures Verdict(Longer(past, more), raw)
         == match Verdict(past, raw)
            case Idle(w) => Idle(Longer(w, more))
            case Got(w, frame) => Got(Longer(w, more), frame)
            case Raised(w, error) => Raised(Longer(w, more), error)
  {
    hide FromNumber, Gap;
  }

  /** Bytes that arrive later change nothing about a frame already complete. */
  lemma TakeGrows(v: ReaderView, more: Bytes)
    ensures Take(v).Got? ==> Take(Longer(v, more)) == Got(Longer(Take(v).view, more), Take(v).frame)
    ensures Take(v).Raised? ==> Take(Longer(v, more)) == Raised(Longer(Take(v).view, more), Take(v).error)
    ensures Take(v).Idle? ==> Take(Longer(v, more)) == Take(Longer(Take(v).view, more))
  {
    hide LookAt, Scan, Take, Verdict, Rest;
    TakeLooks(v);
    TakeLooks(Longer(v, more));
    RestGrows(v, more);
    var rest := Rest(v).pending;
    LookGrows(rest, more);
    if LookAt(rest).Whole? {
      var look := LookAt(rest);
      assert (rest + more)[look.end..] == rest[look.end..] + more;
      VerdictGrows(Rest(v).(pending := rest[look.end..]), look.raw, more);
    } else {
      TakeLooks(Longer(Rest(v), more));
    }
  }

  function Then(first: Fed, more: Bytes): Fed {
    match first
    case Broken(w, error) => Broken(Longer(w, more), error)
    case Fed(w, frames) =>
      match Pump(Longer(w, more))
      case Broken(x, error) => Broken(x, error)
      case Fed(x, later) => Fed(x, frames + later)
  }

  lemma {:induction false} PumpGrows(v: ReaderView, more: Bytes)
    ensures Pump(Longer(v, more)) == Then(Pump(v), more)
    decreases |v.pending|
  {
    hide Take;
    TakeGrows(v, more);
    match Take(v)
    case Raised(w, error) =>
    case Idle(w) =>
      if Pump(Longer(w, more)).Fed? {
        assert [] + Pump(Longer(w, more)).frames == Pump(Longer(w, more)).frames;
      }
    case Got(w, frame) =>
      PumpGrows(w, more);
      match Pump(w)
      case Broken(x, error) =>
      case Fed(x, frames) =>
        match Pump(Longer(x, more))
        case Broken(y, error) =>
        case Fed(y, later) =>
          assert [frame] + (frames + later) == ([frame] + frames) + later;
  }

  /** A reader that has read everything it can, as it is after any feed that raised nothing. */
  predicate Settled(v: ReaderView) {
    LookAt(v.pending).Wait?
  }

  lemma {:induction false} PumpSettles(v: ReaderView)
    ensures Pump(v).Fed? ==> Settled(Pump(v).view)
    ensures Settled(v) ==> Pump(v) == Fed(v, [])
    decreases |v.pending|
  {
    hide LookAt;
    if Settled(v) {
      ScanStops(v.pending);
      assert v.pending[0..] == v.pending;
    } else if Take(v).Got? {
      PumpSettles(Take(v).view);
    }
  }

  /** The run of feeds and the single feed end in the same way, up to what came after a refusal. */
  ghost predicate SameEnd(cut: Fed, whole: Fed) {
    match (cut, whole)
    case (Fed(v, frames), Fed(w, all)) => v == w && frames == all
    case (Broken(v, error), Broken(w, other)) => error == other && exists tail :: w == Longer(v, tail)
    case _ => false
  }

  /** Any cutting of a stream gives what a single feed of it gives: the same frames, the same
      counts, the same bytes still pending, or the same refusal. */
  lemma {:induction false} CuttingDoesNotMatter(v: ReaderView, cuts: seq<Bytes>)
    requires Settled(v)
    ensures SameEnd(FeedAll(v, cuts), Feed(v, Joined(cuts)))
    decreases cuts
  {
    hide Pump, LookAt;
    PumpSettles(v);
    if cuts == [] {
      assert v.pending + [] == v.pending;
    } else {
      var first, later := cuts[0], Joined(cuts[1..]);
      PumpGrows(Longer(v, first), later);
      assert Longer(Longer(v, first), later) == Longer(v, Joined(cuts)) by {
        assert (v.pending + first) + later == v.pending + (first + later);
      }
      PumpSettles(Longer(v, first));
      if Feed(v, first).Fed? {
        CuttingDoesNotMatter(Feed(v, first).view, cuts[1..]);
      } else {
        assert Feed(v, Joined(cuts)).view == Longer(FeedAll(v, cuts).view, later);
      }
    }
  }

  // -- every byte and every frame is accounted for ------------------------------------------

  function FrameBytes(frames: seq<Frame>): nat {
    if frames == [] then 0
    else HEADER_SIZE + |frames[0].payload| + TRAILER_SIZE + FrameBytes(frames[1..])
  }

  /** The gaps along a list of frames, starting from the last counter read. */
  function Gaps(last: Option<nat>, frames: seq<Frame>): nat
    decreases frames
  {
    if frames == [] then 0 else Gap(last, frames[0].counter) + Gaps(Some(frames[0].counter), frames[1..])
  }

  function LastCounter(last: Option<nat>, frames: seq<Frame>): Option<nat> {
    if frames == [] then last else Some(frames[|frames| - 1].counter)
  }

  ghost predicate Accounted(v: ReaderView, arrived: nat, w: ReaderView, frames: seq<Frame>) {
    && FrameBytes(frames) + w.discarded + |w.pending| == v.discarded + |v.pending| + arrived
    && w.missed == v.missed + Gaps(v.counter, frames)
    && w.counter == LastCounter(v.counter, frames)
    && w.frames == v.frames + |frames|
    && w.fromTheNode == v.fromTheNode
    && forall i | 0 <= i < |frames| :: Allowed(v.fromTheNode, frames[i].carries)
  }

  lemma TakeAccounts(v: ReaderView)
    requires Take(v).Got?
    ensures var t := Take(v); Accounted(v, 0, t.view, [t.frame])
  {
    hide Scan;
    LookIsLong(v.pending[Scan(v.pending)..]);
    assert Gaps(Some(Take(v).frame.counter), []) == 0;
    assert FrameBytes([]) == 0;
    assert [Take(v).frame][1..] == [];
  }

  lemma IdleAccounts(v: ReaderView)
    requires Take(v).Idle?
    ensures Accounted(v, 0, Take(v).view, [])
  {
    hide Scan;
  }

  lemma LookIsLong(p: Bytes)
    ensures LookAt(p).Whole? ==> LookAt(p).end == HEADER_SIZE + |LookAt(p).raw.payload| + TRAILER_SIZE
  {
    hide ChecksumFits;
  }

  lemma {:induction false} PumpAccounts(v: ReaderView)
    ensures Pump(v).Fed? ==> Accounted(v, 0, Pump(v).view, Pump(v).frames)
    decreases |v.pending|
  {
    hide Take, Gap;
    if Take(v).Got? {
      TakeAccounts(v);
      PumpAccounts(Take(v).view);
      if Pump(v).Fed? {
        var frames := Pump(Take(v).view).frames;
        GapsConcat(v.counter, [Take(v).frame], frames);
      }
    } else if Take(v).Idle? {
      IdleAccounts(v);
    }
  }

  lemma {:induction false} GapsConcat(last: Option<nat>, a: seq<Frame>, b: seq<Frame>)
    ensures Gaps(last, a + b) == Gaps(last, a) + Gaps(LastCounter(last, a), b)
    ensures FrameBytes(a + b) == FrameBytes(a) + FrameBytes(b)
    ensures LastCounter(last, a + b) == LastCounter(LastCounter(last, a), b)
    decreases a
  {
    if a == [] {
      assert a + b == b;
    } else {
      assert (a + b)[1..] == a[1..] + b;
      GapsConcat(Some(a[0].counter), a[1..], b);
    }
  }

  /** Over any run of feeds that raises nothing: frame bytes, discarded bytes and pending bytes
      are the bytes fed, and `missed` is the sum of the counter gaps. */
  lemma {:induction false} EveryByteIsAccountedFor(v: ReaderView, cuts: seq<Bytes>)
    requires FeedAll(v, cuts).Fed?
    ensures Accounted(v, |Joined(cuts)|, FeedAll(v, cuts).view, FeedAll(v, cuts).frames)
    decreases cuts
  {
    hide Pump;
    if cuts != [] {
      var first := Feed(v, cuts[0]);
      PumpAccounts(Longer(v, cuts[0]));
      EveryByteIsAccountedFor(first.view, cuts[1..]);
      GapsConcat(v.counter, first.frames, FeedAll(first.view, cuts[1..]).frames);
    }
  }

  // -- what one side packs the other reads back ---------------------------------------------

  lemma Low8Value(n: nat)
    ensures Low8(n) as nat == n % 256
  {
    Octets.ByteValue(n % 256);
  }

  lemma Digits16(n: nat)
    requires n < 65536
    ensures n % 256 + 256 * (n / 256 % 256) == n
  {
  }

  function Digit(n: nat, place: nat): nat
    requires place > 0
  {
    n / place % 256
  }

  lemma DigitsOfHalves(low: nat, high: nat)
    requires low < 65536 && high < 65536
    ensures Digit(low, 1) + 256 * Digit(low, 256) == low && Digit(high, 1) + 256 * Digit(high, 256) == high
  {
    Digits16(low);
    Digits16(high);
  }

  lemma LowDigits(low: nat, high: nat)
    requires low < 65536
    ensures Digit(low + 65536 * high, 1) == Digit(low, 1) && Digit(low + 65536 * high, 256) == Digit(low, 256)
  {
    assert (low + 65536 * high) / 256 == low / 256 + 256 * high;
  }

  lemma HighDigits(low: nat, high: nat)
    requires low < 65536
    ensures Digit(low + 65536 * high, 65536) == Digit(high, 1) && Digit(low + 65536 * high, 16777216) == Digit(high, 256)
  {
    assert (low + 65536 * high) / 65536 == high && (low + 65536 * high) / 16777216 == high / 256;
  }

  lemma FourDigits(n: nat)
    requires n < COUNTERS
    ensures Digit(n, 1) + 256 * Digit(n, 256) + 65536 * Digit(n, 65536) + 16777216 * Digit(n, 16777216) == n
  {
    hide Digit;
    var low, high := n % 65536, n / 65536;
    assert n == low + 65536 * high;
    DigitsOfHalves(low, high);
    LowDigits(low, high);
    HighDigits(low, high);
  }

  lemma Digits32(n: nat)
    requires n < COUNTERS
    ensures n % 256 + 0x100 * (n / 0x100 % 256) + 0x1_0000 * (n / 0x1_0000 % 256) + 0x100_0000 * (n / 0x100_0000 % 256) == n
  {
    FourDigits(n);
  }

  lemma U16RoundTrip(n: nat)
    requires n < 65536
    ensures U16(Low8(n), Low8(n / 256)) == n
  {
    hide Low8;
    Low8Value(n);
    Low8Value(n / 256);
    Digits16(n);
  }

  lemma U32RoundTrip(n: nat)
    requires n < COUNTERS
    ensures U32(Low8(n), Low8(n / 0x100), Low8(n / 0x1_0000), Low8(n / 0x100_0000)) == n
  {
    hide Low8;
    Low8Value(n);
    Low8Value(n / 0x100);
    Low8Value(n / 0x1_0000);
    Low8Value(n / 0x100_0000);
    Digits32(n);
  }

  lemma WordRoundTrip(x: bv32)
    ensures Word(PutWord(x)[0], PutWord(x)[1], PutWord(x)[2], PutWord(x)[3]) == x
  {
  }

  lemma NumbersRoundTrip(c: Carries)
    ensures FromNumber(Number(c)) == Some(c)
  {
  }

  function RawOf(f: Frame): Raw {
    Raw(Number(f.carries), f.counter, f.payload)
  }

  lemma PackedFields(f: Frame)
    requires Packable(f)
    ensures var p := Packed(f);
            && |p| == HEADER_SIZE + |f.payload| + TRAILER_SIZE
            && HasMagic(p) && HeaderFits(p) && LengthField(p) == |f.payload|
            && p[..HEADER_SIZE + |f.payload|] == Body(f)
            && ChecksumFits(p, HEADER_SIZE + |f.payload|)
            && RawAt(p, HEADER_SIZE + |f.payload|) == RawOf(f)
  {
    hide Crc32.Checksum, Word, PutWord, U32, U16, Low8, Number;
    U16RoundTrip(|f.payload|);
    U32RoundTrip(f.counter);
    WordRoundTrip(Crc32.Checksum(Body(f)));
    WordIsFour(Crc32.Checksum(Body(f)));
    var p, n := Packed(f), HEADER_SIZE + |f.payload|;
    BodyFields(f);
    assert p[..n] == Body(f);
    assert p[HEADER_SIZE..n] == f.payload;
  }

  lemma WordIsFour(x: bv32)
    ensures |PutWord(x)| == 4
  {
  }

  lemma BodyFields(f: Frame)
    ensures var p := Body(f);
            && |p| == HEADER_SIZE + |f.payload|
            && HasMagic(p) && p[4] == 1 && p[5] == Number(f.carries) && p[6] == 0
            && p[7] == Low8(f.counter) && p[8] == Low8(f.counter / 0x100)
            && p[9] == Low8(f.counter / 0x1_0000) && p[10] == Low8(f.counter / 0x100_0000)
            && p[11] == Low8(|f.payload|) && p[12] == Low8(|f.payload| / 256)
            && p[HEADER_SIZE..] == f.payload
  {
    hide Low8, Number;
  }

  lemma PackedIsWhole(f: Frame, more: Bytes)
    requires Packable(f)
    ensures LookAt(Packed(f) + more) == Whole(RawOf(f), |Packed(f)|)
  {
    hide Packed, ChecksumFits, HeaderFits, RawAt;
    PackedFields(f);
    AtTheMagic(Packed(f));
    hide LookAt;
    LookGrows(Packed(f), more);
  }

  ghost predicate Sendable(fromTheNode: bool, frames: seq<Frame>) {
    forall i | 0 <= i < |frames| :: Packable(frames[i]) && Allowed(fromTheNode, frames[i].carries)
  }

  function PackedAll(frames: seq<Frame>): Bytes
    decreases frames
  {
    if frames == [] then [] else Packed(frames[0]) + PackedAll(frames[1..])
  }

  lemma TakesPacked(v: ReaderView, f: Frame, more: Bytes)
    requires Packable(f) && Allowed(v.fromTheNode, f.carries)
    requires v.pending == Packed(f) + more
    ensures Take(v) == Got(v.(pending := more, counter := Some(f.counter), frames := v.frames + 1,
                              missed := v.missed + Gap(v.counter, f.counter)), f)
  {
    hide LookAt, Packed, Number;
    PackedIsWhole(f, more);
    ScanStops(v.pending);
    NumbersRoundTrip(f.carries);
    assert v.pending[0..] == v.pending;
    assert v.pending[|Packed(f)|..] == more;
  }

  lemma LastOfNone(last: Option<nat>)
    ensures LastCounter(last, []) == last
  {
  }

  lemma LastOfMore(last: Option<nat>, frames: seq<Frame>)
    requires frames != []
    ensures LastCounter(Some(frames[0].counter), frames[1..]) == LastCounter(last, frames)
  {
  }

  lemma {:induction false} PumpReadsBack(v: ReaderView, frames: seq<Frame>)
    requires Sendable(v.fromTheNode, frames)
    requires v.pending == PackedAll(frames)
    ensures Pump(v) == Fed(v.(pending := [], counter := LastCounter(v.counter, frames),
                              frames := v.frames + |frames|, missed := v.missed + Gaps(v.counter, frames)), frames)
    decreases frames
  {
    hide Take, Packed, Pump, Packable, Allowed, Gap, LastCounter;
    if frames == [] {
      PumpSettles(v);
      assert LastCounter(v.counter, []) == v.counter by { LastOfNone(v.counter); }
    } else {
      TakesPacked(v, frames[0], PackedAll(frames[1..]));
      OnePump(v);
      var w := Take(v).view;
      assert forall i | 0 <= i < |frames| - 1 :: frames[1..][i] == frames[i + 1];
      PumpReadsBack(w, frames[1..]);
      assert [frames[0]] + frames[1..] == frames;
      LastOfMore(v.counter, frames);
    }
  }

  /** Whatever list of frames a side may send, cut anywhere: it is read back exactly, nothing is
      discarded and `missed` is the sum of the counter gaps modulo 2^32. */
  lemma RoundTrip(fromTheNode: bool, frames: seq<Frame>, cuts: seq<Bytes>)
    requires Sendable(fromTheNode, frames)
    requires Joined(cuts) == PackedAll(frames)
    ensures FeedAll(Fresh(fromTheNode), cuts)
         == Fed(ReaderView(fromTheNode, [], LastCounter(None, frames), |frames|, 0, Gaps(None, frames)), frames)
  {
    hide Pump;
    var v := Fresh(fromTheNode);
    CuttingDoesNotMatter(v, cuts);
    assert v.pending + Joined(cuts) == PackedAll(frames);
    PumpReadsBack(Longer(v, Joined(cuts)), frames);
  }

  /** The frame a writer that counts by one and wraps sends as its `i`-th. */
  predicate WrittenAs(f: Frame, start: nat, i: nat) {
    f.counter == (start + i) % COUNTERS
  }

  /** `at[k]` is which frame of the writer's arrived `k`-th; some in between may be lost. */
  ghost predicate Arrivals(frames: seq<Frame>, start: nat, at: seq<nat>) {
    && |frames| == |at|
    && (forall k | 0 <= k < |at| :: WrittenAs(frames[k], start, at[k]))
    && (forall k | 0 <= k < |at| - 1 :: at[k] < at[k + 1] <= at[k] + COUNTERS)
  }

  lemma GapIsHowManyWereLost(start: nat, i: nat, j: nat)
    requires i < j <= i + COUNTERS
    ensures ((start + j) % COUNTERS - (start + i) % COUNTERS - 1) % COUNTERS == j - i - 1
  {
    var a, b := start + i, start + j;
    assert a == COUNTERS * (a / COUNTERS) + a % COUNTERS;
    assert b == COUNTERS * (b / COUNTERS) + b % COUNTERS;
    var d := b % COUNTERS - a % COUNTERS - 1;
    assert d == (j - i - 1) + COUNTERS * (a / COUNTERS - b / COUNTERS);
    ModUnique(d, j - i - 1, a / COUNTERS - b / COUNTERS);
  }

  lemma ModUnique(d: int, r: nat, k: int)
    requires r < COUNTERS && d == r + COUNTERS * k
    ensures d % COUNTERS == r
  {
  }

  /** `missed` counts exactly the writer's frames that did not arrive between two that did. */
  lemma {:induction false} MissedIsWhatWasLost(last: nat, frames: seq<Frame>, start: nat, at: seq<nat>)
    requires Arrivals(frames, start, at)
    requires |at| > 0 ==> last < at[0] <= last + COUNTERS
    ensures Gaps(Some((start + last) % COUNTERS), frames)
         == if |at| == 0 then 0 else at[|at| - 1] - last - |at|
    decreases frames
  {
    if frames != [] {
      GapIsHowManyWereLost(start, last, at[0]);
      assert WrittenAs(frames[0], start, at[0]);
      assert forall k | 0 <= k < |at| - 1 :: frames[1..][k] == frames[k + 1] && at[1..][k] == at[k + 1];
      MissedIsWhatWasLost(at[0], frames[1..], start, at[1..]);
    }
  }

  /** A writer that counts by one and wraps is never said to have missed a frame. */
  lemma NothingMissedWhenNothingLost(frames: seq<Frame>, start: nat)
    requires forall k | 0 <= k < |frames| :: WrittenAs(frames[k], start, k)
    ensures Gaps(None, frames) == 0
  {
    if frames != [] {
      var at := seq(|frames| - 1, k requires 0 <= k => k + 1);
      assert forall k | 0 <= k < |frames| - 1 :: WrittenAs(frames[1..][k], start, at[k]);
      assert WrittenAs(frames[0], start, 0);
      MissedIsWhatWasLost(0, frames[1..], start, at);
    }
  }

  // -- noise costs exactly itself -------------------------------------------------------------

  /** Whether, in the stream `p`, position `i` holds back or supplies a frame: a candidate whose
      checksum passes, or one still incomplete when the stream ends. */
  predicate Holds(p: Bytes, i: nat)
    requires i <= |p|
  {
    !LookAt(p[i..]).Junk?
  }

  lemma {:induction false} ScanIsFirstHold(p: Bytes, n: nat)
    requires n <= |p| && Holds(p, n)
    ensures Scan(p) <= n
    ensures Scan(p) == n <==> forall i: nat | i < n :: !Holds(p, i)
    decreases n
  {
    hide LookAt;
    assert p[0..] == p;
    if n > 0 {
      assert !Holds(p, 0) <==> LookAt(p).Junk?;
      if LookAt(p).Junk? {
        assert forall i: nat | i < n :: p[1..][i..] == p[i + 1..];
        assert forall i: nat | i < n :: Holds(p[1..], i) == Holds(p, i + 1);
        ScanIsFirstHold(p[1..], n - 1);
        if Scan(p) == n {
          forall i: nat | i < n ensures !Holds(p, i) {
            if i > 0 { assert !Holds(p[1..], i - 1); }
          }
        }
      }
    }
  }

  /** A well-formed, allowed frame after noise: the reader discards exactly the noise and returns
      the frame, whatever follows it, if and only if no position in the noise holds. */
  lemma NoiseCostsItself(v: ReaderView, noise: Bytes, f: Frame, tail: Bytes)
    requires Packable(f) && Allowed(v.fromTheNode, f.carries)
    requires v.pending == noise + Packed(f) + tail
    ensures (forall i: nat | i < |noise| :: !Holds(v.pending, i)) <==>
            (Take(v).Got? && Take(v).frame == f && Take(v).view.discarded == v.discarded + |noise|
              && Take(v).view.pending == tail)
  {
    hide LookAt, Packed, Number;
    var p, n := v.pending, |noise|;
    assert p[n..] == Packed(f) + tail;
    PackedIsWhole(f, tail);
    ScanIsFirstHold(p, n);
    NumbersRoundTrip(f.carries);
    if Scan(p) == n {
      assert (Packed(f) + tail)[|Packed(f)|..] == tail;
    } else {
      TakeCountsTheScan(v);
    }
  }

  lemma TakeCountsTheScan(v: ReaderView)
    ensures Take(v).view.discarded == v.discarded + Scan(v.pending)
  {
  }

  /** Bytes in which the magic never begins hold nothing, so plain noise is always recovered from. */
  lemma NoMagicHoldsNothing(noise: Bytes, f: Frame, tail: Bytes)
    requires Packable(f)
    requires forall i: nat | i < |noise| :: !MagicAt(noise + Packed(f), i)
    ensures forall i: nat | i < |noise| :: !Holds(noise + Packed(f) + tail, i)
  {
    hide Packed;
    PackedFields(f);
    var p := noise + Packed(f) + tail;
    forall i: nat | i < |noise| ensures !Holds(p, i) {
      assert p[i..][0] == p[i] && p[i..][1] == p[i + 1] && p[i..][2] == p[i + 2] && p[i..][3] == p[i + 3];
      assert MagicAt(p, i) == MagicAt(noise + Packed(f), i);
    }
  }

  /** The same over a whole session: noise, then any frames the side may send, cut anywhere. All
      the frames come back and what was discarded is the noise and nothing else. */
  lemma NoiseThenFrames(fromTheNode: bool, noise: Bytes, frames: seq<Frame>, cuts: seq<Bytes>)
    requires frames != [] && Sendable(fromTheNode, frames)
    requires Joined(cuts) == noise + PackedAll(frames)
    requires forall i: nat | i < |noise| :: !Holds(noise + PackedAll(frames), i)
    ensures FeedAll(Fresh(fromTheNode), cuts)
         == Fed(ReaderView(fromTheNode, [], LastCounter(None, frames), |frames|, |noise|, Gaps(None, frames)), frames)
  {
    var start := Fresh(fromTheNode);
    assert Settled(start);
    hide Pump, Take, Packed, LookAt, Scan, PackedAll;
    CuttingDoesNotMatter(start, cuts);
    var v := Longer(start, Joined(cuts));
    assert v.pending == noise + PackedAll(frames);
    PumpOverNoise(v, noise, frames);
  }

  lemma PumpTakes(v: ReaderView, w: ReaderView)
    requires Take(v) == Take(w)
    ensures Pump(v) == Pump(w)
  {
    hide Take;
  }

  lemma PumpOverNoise(v: ReaderView, noise: Bytes, frames: seq<Frame>)
    requires frames != [] && Sendable(v.fromTheNode, frames)
    requires v.pending == noise + PackedAll(frames)
    requires forall i: nat | i < |noise| :: !Holds(v.pending, i)
    ensures Pump(v) == Pump(v.(pending := PackedAll(frames), discarded := v.discarded + |noise|))
    ensures Pump(v) == Fed(v.(pending := [], counter := LastCounter(v.counter, frames), discarded := v.discarded + |noise|,
                              frames := v.frames + |frames|, missed := v.missed + Gaps(v.counter, frames)), frames)
  {
    hide Packed, LookAt, Take, Scan, Pump, Verdict, Gaps, LastCounter;
    var f, tail := frames[0], PackedAll(frames[1..]);
    assert v.pending == noise + Packed(f) + tail;
    assert v.pending[|noise|..] == Packed(f) + tail;
    PackedIsWhole(f, tail);
    ScanIsFirstHold(v.pending, |noise|);
    var clean := v.(pending := PackedAll(frames), discarded := v.discarded + |noise|);
    ScanStops(clean.pending);
    assert clean.pending[0..] == clean.pending;
    assert Rest(v) == Rest(clean);
    TakeLooks(v);
    TakeLooks(clean);
    PumpTakes(v, clean);
    PumpReadsBack(clean, frames);
  }

  // -- damage ---------------------------------------------------------------------------------

  /** `damaged` is the packed frame with up to four consecutive bytes changed, from `at` on. */
  ghost predicate Damaged(f: Frame, damaged: Bytes, at: nat, width: nat) {
    && at + width <= |Packed(f)| == |damaged|
    && 1 <= width <= 4
    && damaged[..at] == Packed(f)[..at]
    && damaged[at + width..] == Packed(f)[at + width..]
    && damaged[at..at + width] != Packed(f)[at..at + width]
  }

  /** Damage that leaves the magic and the length alone: within the header between them, within
      the payload, or within the trailer. */
  predicate LeavesTheFraming(f: Frame, at: nat, width: nat) {
    || 4 <= at <= at + width <= 11
    || HEADER_SIZE <= at <= at + width <= HEADER_SIZE + |f.payload|
    || HEADER_SIZE + |f.payload| <= at
  }

  lemma WordDetermines(a: Bytes, b: Bytes)
    requires |a| == |b| == 4
    requires Word(a[0], a[1], a[2], a[3]) == Word(b[0], b[1], b[2], b[3])
    ensures a == b
  {
    WordBytes(a[0], a[1], a[2], a[3], b[0], b[1], b[2], b[3]);
  }

  lemma WordBytes(a: bv8, b: bv8, c: bv8, d: bv8, e: bv8, f: bv8, g: bv8, h: bv8)
    requires Word(a, b, c, d) == Word(e, f, g, h)
    ensures a == e && b == f && c == g && d == h
  {
  }

  lemma UntouchedBytes(f: Frame, damaged: Bytes, at: nat, width: nat)
    requires Damaged(f, damaged, at, width)
    ensures forall i: nat | i < |damaged| && !(at <= i < at + width) :: damaged[i] == Packed(f)[i]
  {
    hide Packed;
    var p := Packed(f);
    forall i: nat | i < |p| && !(at <= i < at + width) ensures damaged[i] == p[i] {
      if i < at {
        assert damaged[i] == damaged[..at][i];
      } else {
        assert damaged[i] == damaged[at + width..][i - (at + width)];
        assert p[i] == p[at + width..][i - (at + width)];
      }
    }
  }

  /** A damaged trailer no longer says what the body's checksum is. */
  lemma TrailerDamageFails(p: Bytes, q: Bytes, n: nat)
    requires |p| == |q| == n + TRAILER_SIZE
    requires p[..n] == q[..n] && p != q
    requires ChecksumFits(p, n)
    ensures !ChecksumFits(q, n)
  {
    hide Crc32.Checksum, Word;
    assert p == p[..n] + p[n..] && q == q[..n] + q[n..];
    if ChecksumFits(q, n) {
      WordDetermines(p[n..], q[n..]);
    }
  }

  /** A body damaged in one place no longer has the checksum in the trailer. */
  lemma BodyDamageFails(p: Bytes, q: Bytes, n: nat, at: nat, width: nat)
    requires |p| == |q| == n + TRAILER_SIZE
    requires at + width <= n && width <= 4
    requires p[..at] == q[..at] && p[at..at + width] != q[at..at + width] && p[at + width..] == q[at + width..]
    requires ChecksumFits(p, n)
    ensures !ChecksumFits(q, n)
  {
    hide Crc32.Checksum, Word;
    var rest := p[at + width..];
    assert p[at + width..n] == rest[..n - at - width] == q[at + width..n];
    assert p[..n] == p[..at] + p[at..at + width] + rest[..n - at - width];
    assert q[..n] == p[..at] + q[at..at + width] + rest[..n - at - width];
    Crc32.BurstIsNoticed(p[..at], p[at..at + width], q[at..at + width], rest[..n - at - width]);
    var k := n - at - width;
    assert rest[k] == p[n] == q[n];
    assert rest[k + 1] == p[n + 1] == q[n + 1];
    assert rest[k + 2] == p[n + 2] == q[n + 2];
    assert rest[k + 3] == p[n + 3] == q[n + 3];
  }

  /** Changing any one to four consecutive bytes of a frame's kind, flags, counter, payload or
      checksum makes the candidate at its own position fail, whatever follows it. */
  lemma DamageIsRefused(f: Frame, damaged: Bytes, at: nat, width: nat, more: Bytes)
    requires Packable(f)
    requires Damaged(f, damaged, at, width) && LeavesTheFraming(f, at, width)
    ensures LookAt(damaged + more).Junk?
  {
    hide Packed, LookAt, HeaderFits, ChecksumFits, RawAt;
    PackedFields(f);
    UntouchedBytes(f, damaged, at, width);
    var p, n := Packed(f), HEADER_SIZE + |f.payload|;
    if at >= n {
      assert damaged[..n] == p[..n];
      TrailerDamageFails(p, damaged, n);
    } else {
      BodyDamageFails(p, damaged, n, at, width);
    }
    AtTheMagic(damaged);
    HeaderKeepsLength(damaged, p);
    LookGrows(damaged, more);
  }

  lemma HeaderKeepsLength(a: Bytes, b: Bytes)
    requires |a| >= HEADER_SIZE && |b| >= HEADER_SIZE && a[11] == b[11] && a[12] == b[12]
    ensures LengthField(a) == LengthField(b)
  {
  }
}
