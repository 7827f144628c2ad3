/** The frames a board with no radio exchanges with its bridge over a USB cable, and the
    incremental reader that finds them again in whatever arrives.

    The specification of the reader (`Scan`, `Pump`) gives up one byte at a time until the
    magic lines up again. The class below is the code's faster form: it searches for the
    magic and, after a bad candidate, gives up four bytes at once.
  */
module Link {
  import opened Wrappers
  import Crc32

  type Bytes = seq<bv8>

  const MAGIC: Bytes := [0x53, 0x4D, 0x42, 0x31]
  const HEADER_SIZE: nat := 13
  const TRAILER_SIZE: nat := 4
  const MAX_PAYLOAD: nat := 2048
  const COUNTERS: nat := 0x1_0000_0000

  datatype Carries = Nothing | Events | State | Health | Acks | Commands | Time | Hello | Said | Typed

  function Number(c: Carries): bv8 {
    match c
    case Nothing => 0
    case Events => 1
    case State => 2
    case Health => 3
    case Acks => 4
    case Commands => 5
    case Time => 6
    case Hello => 7
    case Said => 8
    case Typed => 9
  }

  function FromNumber(n: bv8): Option<Carries> {
    if n == 0 then Some(Nothing)
    else if n == 1 then Some(Events)
    else if n == 2 then Some(State)
    else if n == 3 then Some(Health)
    else if n == 4 then Some(Acks)
    else if n == 5 then Some(Commands)
    else if n == 6 then Some(Time)
    else if n == 7 then Some(Hello)
    else if n == 8 then Some(Said)
    else if n == 9 then Some(Typed)
    else None
  }

  /** What the side being read is allowed to send: the kind is also the direction. */
  predicate Allowed(fromTheNode: bool, c: Carries) {
    if fromTheNode then c in {Events, State, Health, Acks, Said}
    else c in {Commands, Time, Hello, Typed}
  }

  datatype Frame = Frame(carries: Carries, counter: nat, payload: Bytes)

  datatype LinkError = CarriesNothing(number: bv8) | NotSentByThatSide(carries: Carries) | TooBig(size: nat)

  // -- little-endian fields -------------------------------------------------------------

  function Low8(n: nat): bv8 {
    (n % 256) as bv8
  }

  function PutU16(n: nat): Bytes {
    [Low8(n), Low8(n / 256)]
  }

  function PutU32(n: nat): Bytes {
    [Low8(n), Low8(n / 0x100), Low8(n / 0x1_0000), Low8(n / 0x100_0000)]
  }

  function U16(a: bv8, b: bv8): nat {
    a as nat + 256 * (b as nat)
  }

  function U32(a: bv8, b: bv8, c: bv8, d: bv8): nat {
    a as nat + 0x100 * (b as nat) + 0x1_0000 * (c as nat) + 0x100_0000 * (d as nat)
  }

  function PutWord(x: bv32): Bytes {
    [(x & 0xFF) as bv8, ((x >> 8) & 0xFF) as bv8, ((x >> 16) & 0xFF) as bv8, ((x >> 24) & 0xFF) as bv8]
  }

  function Word(a: bv8, b: bv8, c: bv8, d: bv8): bv32 {
    (a as bv32) | ((b as bv32) << 8) | ((c as bv32) << 16) | ((d as bv32) << 24)
  }

  // -- writing --------------------------------------------------------------------------

  /** Everything the trailer covers. */
  function Body(f: Frame): Bytes {
    MAGIC + [1, Number(f.carries), 0] + PutU32(f.counter) + PutU16(|f.payload|) + f.payload
  }

  /** A frame the format can hold: `struct.pack` refuses a counter that is not a u32. */
  predicate Packable(f: Frame) {
    f.counter < COUNTERS && Pack(f).Success?
  }

  function Packed(f: Frame): Bytes {
    Body(f) + PutWord(Crc32.Checksum(Body(f)))
  }

  function Pack(f: Frame): Result<Bytes, LinkError>
    requires f.counter < COUNTERS
  {
    if |f.payload| > MAX_PAYLOAD then Failure(TooBig(|f.payload|)) else Success(Packed(f))
  }

  // -- what the front of the pending bytes is ----------------------------------------------

  /** What a checked candidate says, before anybody asks whether it may be said. */
  datatype Raw = Raw(number: bv8, counter: nat, payload: Bytes)

  datatype Look =
    | Wait                        // too little here to tell
    | Junk                        // no frame starts here, whatever follows
    | Whole(raw: Raw, end: nat)   // a candidate with the right checksum, `end` bytes long

  predicate MagicAt(p: Bytes, i: nat) {
    i + 4 <= |p| && p[i] == 0x53 && p[i + 1] == 0x4D && p[i + 2] == 0x42 && p[i + 3] == 0x31
  }

  predicate HasMagic(p: Bytes) {
    MagicAt(p, 0)
  }

  function LengthField(p: Bytes): nat
    requires |p| >= HEADER_SIZE
  {
    U16(p[11], p[12])
  }

  /** The first three checks of a candidate whose header is all here. */
  predicate HeaderFits(p: Bytes)
    requires |p| >= HEADER_SIZE
  {
    p[4] == 1 && p[6] == 0 && LengthField(p) <= MAX_PAYLOAD
  }

  predicate ChecksumFits(p: Bytes, body: nat)
    requires body + TRAILER_SIZE <= |p|
  {
    Word(p[body], p[body + 1], p[body + 2], p[body + 3]) == Crc32.Checksum(p[..body])
  }

  function RawAt(p: Bytes, body: nat): Raw
    requires HEADER_SIZE <= body <= |p|
  {
    Raw(p[5], U32(p[7], p[8], p[9], p[10]), p[HEADER_SIZE..body])
  }

  function LookAt(p: Bytes): (look: Look)
    ensures look.Whole? ==> HEADER_SIZE + TRAILER_SIZE <= look.end <= |p|
    ensures look.Junk? ==> |p| >= 4
  {
    if |p| < 4 then Wait
    else if !HasMagic(p) then Junk
    else if |p| < HEADER_SIZE then Wait
    else if !HeaderFits(p) then Junk
    else
      var body := HEADER_SIZE + LengthField(p);
      if |p| < body + TRAILER_SIZE then Wait
      else if !ChecksumFits(p, body) then Junk
      else Whole(RawAt(p, body), body + TRAILER_SIZE)
  }

  /** How many bytes are given up, one at a time, before something worth waiting for. */
  function Scan(p: Bytes): (count: nat)
    ensures count <= |p|
    ensures !LookAt(p[count..]).Junk?
    decreases |p|
  {
    if LookAt(p).Junk? then
      assert forall c: nat | c < |p| :: p[1..][c..] == p[c + 1..];
      1 + Scan(p[1..])
    else
      assert p[0..] == p;
      0
  }

  // -- the reader, as a function ---------------------------------------------------------

  datatype ReaderView = ReaderView(
    fromTheNode: bool,
    pending: Bytes,
    counter: Option<nat>,
    frames: nat,
    discarded: nat,
    missed: nat)

  function Fresh(fromTheNode: bool): ReaderView {
    ReaderView(fromTheNode, [], None, 0, 0, 0)
  }

  /** Frames the counter says never arrived between two that did, modulo the counter's width. */
  function Gap(last: Option<nat>, counter: nat): nat {
    if last.None? then 0 else (counter - last.value - 1) % COUNTERS
  }

  function Accept(v: ReaderView, raw: Raw): Result<(ReaderView, Frame), LinkError> {
    match FromNumber(raw.number)
    case None => Failure(CarriesNothing(raw.number))
    case Some(carries) =>
      if !Allowed(v.fromTheNode, carries) then Failure(NotSentByThatSide(carries))
      else Success((
        v.(missed := v.missed + Gap(v.counter, raw.counter), counter := Some(raw.counter), frames := v.frames + 1),
        Frame(carries, raw.counter, raw.payload)))
  }

  datatype Taken =
    | Idle(view: ReaderView)
    | Got(view: ReaderView, frame: Frame)
    | Raised(view: ReaderView, error: LinkError)

  function Verdict(past: ReaderView, raw: Raw): (t: Taken)
    ensures !t.Idle? && t.view.pending == past.pending
  {
    match Accept(past, raw)
    case Failure(error) => Raised(past, error)
    case Success((after, frame)) => Got(after, frame)
  }

  /** One call of `_take`: give up what cannot be a frame, then read one frame or wait. */
  function Take(v: ReaderView): (t: Taken)
    ensures t.Got? || t.Raised? ==> |t.view.pending| < |v.pending|
  {
    var count := Scan(v.pending);
    var rest := v.pending[count..];
    var here := v.(pending := rest, discarded := v.discarded + count);
    match LookAt(rest)
    case Wait => Idle(here)
    case Whole(raw, end) =>
      var past := here.(pending := rest[end..]);
      Verdict(past, raw)
  }

  /** What one `feed` leaves behind. A feed that raises returns none of its frames. */
  datatype Fed = Fed(view: ReaderView, frames: seq<Frame>) | Broken(view: ReaderView, error: LinkError)

  function Pump(v: ReaderView): Fed
    decreases |v.pending|
  {
    match Take(v)
    case Idle(w) => Fed(w, [])
    case Raised(w, error) => Broken(w, error)
    case Got(w, frame) =>
      match Pump(w)
      case Fed(x, frames) => Fed(x, [frame] + frames)
      case Broken(x, error) => Broken(x, error)
  }

  /** One take and then the rest. */
  lemma OnePump(v: ReaderView)
    ensures var t, all := Take(v), Pump(v);
            match t
            case Idle(w) => all == Fed(w, [])
            case Raised(w, error) => all == Broken(w, error)
            case Got(w, frame) =>
              var more := Pump(w);
              && all.view == more.view && (all.Fed? <==> more.Fed?)
              && (all.Fed? ==> all.frames == [frame] + more.frames)
              && (all.Broken? ==> all == more)
  {
    hide Take;
  }

  function Feed(v: ReaderView, data: Bytes): Fed {
    Pump(v.(pending := v.pending + data))
  }

  /** A run of feeds, ending at the first that raises. */
  function FeedAll(v: ReaderView, cuts: seq<Bytes>): Fed
    decreases cuts
  {
    if cuts == [] then Fed(v, [])
    else
      match Feed(v, cuts[0])
      case Broken(w, error) => Broken(w, error)
      case Fed(w, frames) =>
        match FeedAll(w, cuts[1..])
        case Broken(x, error) => Broken(x, error)
        case Fed(x, more) => Fed(x, frames + more)
  }

  // -- the reader, as the code does it -----------------------------------------------------

  /** `bytes.find(MAGIC)`: where the magic first occurs, from `i` on. */
  function FindMagic(p: Bytes, i: nat): (at: Option<nat>)
    requires i <= |p|
    ensures at.Some? ==> i <= at.value && MagicAt(p, at.value)
    ensures at.Some? ==> forall j: nat | i <= j < at.value :: !MagicAt(p, j)
    ensures at.None? ==> forall j: nat | i <= j :: !MagicAt(p, j)
    decreases |p| - i
  {
    if i + 4 > |p| then None
    else if MagicAt(p, i) then Some(i)
    else FindMagic(p, i + 1)
  }

  lemma NoMagicHere(p: Bytes)
    requires |p| >= 4 && !MagicAt(p, 0)
    ensures LookAt(p).Junk?
  {
  }

  /** Bytes in front of the first magic are exactly the ones given up one at a time. */
  lemma {:induction false} NoMagicIsJunk(p: Bytes, n: nat)
    requires n + 3 <= |p|
    requires forall i: nat | i < n :: !MagicAt(p, i)
    ensures Scan(p) == n + Scan(p[n..])
    decreases n
  {
    hide LookAt;
    if n == 0 {
      assert p[0..] == p;
    } else {
      NoMagicHere(p);
      assert forall i: nat | i < n - 1 :: MagicAt(p[1..], i) == MagicAt(p, i + 1);
      NoMagicIsJunk(p[1..], n - 1);
      assert p[1..][n - 1..] == p[n..];
    }
  }

  /** The magic does not overlap itself, so giving up all four of its bytes skips no frame. */
  lemma MagicStandsAlone(p: Bytes)
    requires HasMagic(p) && LookAt(p).Junk?
    ensures Scan(p) == 4 + Scan(p[4..])
  {
    hide ChecksumFits, HeaderFits;
    assert |p| >= HEADER_SIZE;
    forall i: nat | i < 3 ensures !MagicAt(p[1..], i) {
      assert p[1..][i] == p[i + 1];
    }
    NoMagicIsJunk(p[1..], 3);
    assert p[1..][3..] == p[4..];
  }

  lemma GivenNothing(start: ReaderView)
    ensures Given(start, 0, start)
  {
    assert start.pending[0..] == start.pending;
  }

  lemma MagicFits(p: Bytes, i: nat)
    requires MagicAt(p, i)
    ensures i + 4 <= |p| && HasMagic(p[i..])
  {
  }

  lemma ShortScan(p: Bytes)
    requires |p| <= 3
    ensures Scan(p) == 0 && LookAt(p).Wait?
  {
  }

  /** What a candidate is once the magic lines up, check by check, as `_take` finds out. */
  lemma AtTheMagic(p: Bytes)
    requires HasMagic(p)
    ensures |p| >= 4
    ensures |p| < HEADER_SIZE ==> LookAt(p).Wait?
    ensures |p| >= HEADER_SIZE && !HeaderFits(p) ==> LookAt(p).Junk?
    ensures |p| >= HEADER_SIZE && HeaderFits(p) ==>
              var body := HEADER_SIZE + LengthField(p);
              LookAt(p) == if |p| < body + TRAILER_SIZE then Wait
                           else if ChecksumFits(p, body) then Whole(RawAt(p, body), body + TRAILER_SIZE)
                           else Junk
  {
    hide ChecksumFits, HeaderFits, RawAt;
  }

  /** Where `_take` stands after giving up `given` bytes of `start`, none of them a frame. */
  ghost predicate Given(start: ReaderView, given: nat, now: ReaderView) {
    && given <= |start.pending|
    && Scan(start.pending) == given + Scan(start.pending[given..])
    && now == start.(pending := start.pending[given..], discarded := start.discarded + given)
  }

  /** Giving up `n` more bytes that hold no frame start. */
  lemma GiveMore(start: ReaderView, given: nat, now: ReaderView, n: nat)
    requires Given(start, given, now)
    requires n <= |now.pending| && Scan(now.pending) == n + Scan(now.pending[n..])
    ensures Given(start, given + n, now.(pending := now.pending[n..], discarded := now.discarded + n))
  {
    hide Scan;
    assert start.pending[given..][n..] == start.pending[given + n..];
  }

  lemma StopsHere(start: ReaderView, given: nat, now: ReaderView)
    requires Given(start, given, now)
    requires !LookAt(now.pending).Junk?
    ensures given == Scan(start.pending)
    ensures LookAt(now.pending).Wait? ==> Take(start) == Idle(now)
    ensures LookAt(now.pending).Whole? ==>
              var look := LookAt(now.pending);
              var past := now.(pending := now.pending[look.end..]);
              Take(start) == Verdict(past, look.raw)
  {
    hide LookAt, Verdict;
    ScanStops(now.pending);
  }

  lemma ScanStops(p: Bytes)
    requires !LookAt(p).Junk?
    ensures Scan(p) == 0
  {
    hide LookAt;
  }

  class Reader {
    const expectFromTheNode: bool
    var frames: nat
    var discarded: nat
    var missed: nat
    var pending: Bytes
    var counter: Option<nat>

    function View(): ReaderView
      reads this
    {
      ReaderView(expectFromTheNode, pending, counter, frames, discarded, missed)
    }

    constructor (expectFromTheNode: bool)
      ensures View() == Fresh(expectFromTheNode)
    {
      this.expectFromTheNode := expectFromTheNode;
      frames, discarded, missed := 0, 0, 0;
      pending, counter := [], None;
    }

    method FeedBytes(data: Bytes) returns (out: Result<seq<Frame>, LinkError>)
      modifies this
      ensures View() == Feed(old(View()), data).view
      ensures out == match Feed(old(View()), data)
                     case Fed(_, got) => Success(got)
                     case Broken(_, error) => Failure(error)
    {
      hide Take, Pump;
      ghost var whole := Feed(View(), data);
      pending := pending + data;
      var got: seq<Frame> := [];
      while true
        invariant Pump(View()).view == whole.view
        invariant whole.Fed? <==> Pump(View()).Fed?
        invariant whole.Fed? ==> whole.frames == got + Pump(View()).frames
        invariant whole.Broken? ==> Pump(View()) == whole
        decreases |pending|
      {
        OnePump(View());
        var frame := TakeOne();
        if frame.Raised? {
          return Failure(frame.error);
        }
        if frame.Idle? {
          assert got + [] == got;
          return Success(got);
        }
        ghost var more := Pump(View());
        assert more.Fed? ==> got + ([frame.frame] + more.frames) == (got + [frame.frame]) + more.frames;
        got := got + [frame.frame];
      }
    }

    method TakeOne() returns (taken: Taken)
      modifies this
      ensures taken == Take(old(View()))
      ensures View() == taken.view
    {
      hide ChecksumFits, Scan, HeaderFits, MagicAt, Given, LookAt, Take, RawAt, Accept, Verdict;
      ghost var start := View();
      ghost var given: nat := 0;
      GivenNothing(start);
      while true
        invariant Given(start, given, View())
        decreases |pending|
      {
        var found := FindMagic(pending, 0);
        if found.None? {
          if |pending| > 3 {
            NoMagicIsJunk(pending, |pending| - 3);
            GiveMore(start, given, View(), |pending| - 3);
            given := given + (|pending| - 3);
            Discard(|pending| - 3);
          }
          ShortScan(pending);
          StopsHere(start, given, View());
          return Idle(View());
        }
        if found.value != 0 {
          MagicFits(pending, found.value);
          NoMagicIsJunk(pending, found.value);
          GiveMore(start, given, View(), found.value);
          given := given + found.value;
          Discard(found.value);
        }
        var look := Examine();
        if look.Junk? {
          MagicStandsAlone(pending);
          GiveMore(start, given, View(), 4);
          given := given + 4;
          Discard(4);
          continue;
        }
        StopsHere(start, given, View());
        if look.Wait? {
          return Idle(View());
        }
        pending := pending[look.end..];
        taken := AcceptRaw(look.raw);
        return;
      }
    }

    /** The checks on a candidate, in the code's order: header, length, then the checksum. */
    method Examine() returns (look: Look)
      requires HasMagic(pending)
      ensures look == LookAt(pending)
    {
      hide ChecksumFits, HeaderFits, RawAt, MagicAt, LookAt;
      AtTheMagic(pending);
      if |pending| < HEADER_SIZE {
        return Wait;
      }
      if !HeaderFits(pending) {
        return Junk;
      }
      var body := HEADER_SIZE + LengthField(pending);
      if |pending| < body + TRAILER_SIZE {
        return Wait;
      }
      if !ChecksumFits(pending, body) {
        return Junk;
      }
      return Whole(RawAt(pending, body), body + TRAILER_SIZE);
    }

    method Discard(count: nat)
      requires count <= |pending|
      modifies this
      ensures View() == old(View().(pending := pending[count..], discarded := discarded + count))
    {
      discarded := discarded + count;
      pending := pending[count..];
    }

    method AcceptRaw(raw: Raw) returns (taken: Taken)
      modifies this
      ensures View() == taken.view
      ensures taken == Verdict(old(View()), raw)
    {
      var what := FromNumber(raw.number);
      if what.None? {
        return Raised(View(), CarriesNothing(raw.number));
      }
      if !Allowed(expectFromTheNode, what.value) {
        return Raised(View(), NotSentByThatSide(what.value));
      }
      if counter.Some? {
        missed := missed + (raw.counter - counter.value - 1) % COUNTERS;
      }
      counter := Some(raw.counter);
      frames := frames + 1;
      return Got(View(), Frame(what.value, raw.counter, raw.payload));
    }
  }
}
