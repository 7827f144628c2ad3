/** The approved list, and the number every session is stamped with. Both live in one file that is
    written whole. Another process may replace the file; this one reads it again before it answers
    anything, and keeps what it had in memory when the file cannot be read or written.
  */
module Registry {
  import opened Wrappers
  import opened Wire

  datatype Status = Pending | Approved | Revoked

  datatype NodeRecord = NodeRecord(status: Status, certificate: Option<string>)

  datatype Refusal = UnknownNode | NotApproved | WrongCertificate

  datatype Document = Document(hubEpoch: nat, revision: nat, nodes: map<NodeId, NodeRecord>)

  function Blank(): Document {
    Document(0, 0, map[])
  }

  /** Whether a name may speak: it is known, approved, and was approved with a certificate. */
  function Authenticate(d: Document, node: NodeId): Option<Refusal> {
    if node !in d.nodes then Some(UnknownNode)
    else if d.nodes[node].status != Approved then Some(NotApproved)
    else if d.nodes[node].certificate.None? then Some(WrongCertificate)
    else None
  }

  function WithEpoch(d: Document): Document {
    d.(hubEpoch := d.hubEpoch + 1, revision := d.revision + 1)
  }

  function WithNode(d: Document, node: NodeId, record: NodeRecord): Document {
    d.(nodes := d.nodes[node := record], revision := d.revision + 1)
  }

  /** What is on disk: no file, one that is not a registry, or a registry. */
  datatype File = Absent | Garbled | Legible(document: Document)

  /** What is in memory, what is on disk, and whether the disk has moved on since it was last read. */
  datatype Books = Books(document: Document, file: File, changed: bool)

  /** Reading the file again if it has changed; None when it cannot be read, and then nothing changes. */
  function Reread(b: Books): Option<Books> {
    if !b.changed then Some(b)
    else match b.file
      case Absent => Some(Books(Blank(), Absent, false))
      case Garbled => None
      case Legible(d) => Some(Books(d, b.file, false))
  }

  /** A document to be kept; a write that fails leaves memory ahead of the file. */
  function Keeping(b: Books, d: Document, works: bool): Books {
    if works then Books(d, Legible(d), false) else b.(document := d)
  }

  /** How a change ended: refused as it stands, made and kept, the file could not be read, or made in memory
      and not kept. All but the first two leave by an exception. */
  datatype Change = Refused | Kept | NotRead | NotKept

  function Outcome(works: bool): Change {
    if works then Kept else NotKept
  }

  function Numbered(b: Books, works: bool): (Books, Change) {
    match Reread(b)
    case None => (b, NotRead)
    case Some(c) => (Keeping(c, WithEpoch(c.document), works), Outcome(works))
  }

  function Registered(b: Books, node: NodeId, certificate: Option<string>, works: bool): (Books, Change) {
    match Reread(b)
    case None => (b, NotRead)
    case Some(c) =>
      if node in c.document.nodes then (c, Refused)
      else (Keeping(c, WithNode(c.document, node, NodeRecord(Pending, certificate)), works), Outcome(works))
  }

  predicate CanApprove(d: Document, node: NodeId, pinned: Option<string>) {
    node in d.nodes && (pinned.Some? || d.nodes[node].certificate.Some?)
  }

  function ApprovedRecord(d: Document, node: NodeId, pinned: Option<string>): NodeRecord
    requires CanApprove(d, node, pinned)
  {
    NodeRecord(Approved, if pinned.Some? then pinned else d.nodes[node].certificate)
  }

  function Approving(b: Books, node: NodeId, pinned: Option<string>, works: bool): (Books, Change) {
    match Reread(b)
    case None => (b, NotRead)
    case Some(c) =>
      if !CanApprove(c.document, node, pinned) then (c, Refused)
      else (Keeping(c, WithNode(c.document, node, ApprovedRecord(c.document, node, pinned)), works), Outcome(works))
  }

  function Revoking(b: Books, node: NodeId, works: bool): (Books, Change) {
    match Reread(b)
    case None => (b, NotRead)
    case Some(c) =>
      if node !in c.document.nodes then (c, Refused)
      else (Keeping(c, WithNode(c.document, node, c.document.nodes[node].(status := Revoked)), works), Outcome(works))
  }

  class NodeRegistry {
    var document: Document
    var file: File
    var changed: bool

    function Now(): Books
      reads this
    {
      Books(document, file, changed)
    }

    constructor (file: File)
      requires !file.Garbled?
      ensures Now() == Books(if file.Legible? then file.document else Blank(), file, false)
    {
      document := if file.Legible? then file.document else Blank();
      this.file, changed := file, false;
    }

    method Refresh() returns (readable: bool)
      modifies this
      ensures readable == Reread(old(Now())).Some?
      ensures Now() == if readable then Reread(old(Now())).value else old(Now())
    {
      if changed {
        if file.Garbled? {
          return false;
        }
        document := if file.Legible? then file.document else Blank();
        changed := false;
      }
      return true;
    }

    /** `works` is whether the disk takes the file. */
    method Persist(works: bool) returns (kept: bool)
      modifies this
      ensures kept == works
      ensures Now() == Keeping(old(Now()), old(document).(revision := old(document).revision + 1), works)
    {
      document := document.(revision := document.revision + 1);
      if works {
        file, changed := Legible(document), false;
      }
      return works;
    }

    /** Nobody is given a number that was not kept. */
    method NextEpoch(works: bool) returns (epoch: Option<nat>, change: Change)
      modifies this
      ensures (Now(), change) == Numbered(old(Now()), works)
      ensures epoch == if change.Kept? then Some(document.hubEpoch) else None
    {
      var readable := Refresh();
      if !readable {
        return None, NotRead;
      }
      document := document.(hubEpoch := document.hubEpoch + 1);
      var kept := Persist(works);
      if !kept {
        return None, NotKept;
      }
      return Some(document.hubEpoch), Kept;
    }

    /** Waiting is not approved: whatever was registered cannot speak yet. */
    method Register(node: NodeId, certificate: Option<string>, works: bool) returns (change: Change)
      modifies this
      ensures (Now(), change) == Registered(old(Now()), node, certificate, works)
      ensures change.Kept? || change.NotKept? ==> Authenticate(document, node) == Some(NotApproved)
    {
      var readable := Refresh();
      if !readable {
        return NotRead;
      }
      if node in document.nodes {
        return Refused;
      }
      document := document.(nodes := document.nodes[node := NodeRecord(Pending, certificate)]);
      var kept := Persist(works);
      return if kept then Kept else NotKept;
    }

    /** Approving ties the name to a certificate, the one given or the one on file. */
    method Approve(node: NodeId, pinned: Option<string>, works: bool) returns (change: Change)
      modifies this
      ensures (Now(), change) == Approving(old(Now()), node, pinned, works)
      ensures change.Kept? || change.NotKept? ==> Authenticate(document, node) == None
    {
      var readable := Refresh();
      if !readable {
        return NotRead;
      }
      if node !in document.nodes {
        return Refused;
      }
      var certificate := if pinned.Some? then pinned else document.nodes[node].certificate;
      if certificate.None? {
        return Refused;
      }
      document := document.(nodes := document.nodes[node := NodeRecord(Approved, certificate)]);
      var kept := Persist(works);
      return if kept then Kept else NotKept;
    }

    method Revoke(node: NodeId, works: bool) returns (change: Change)
      modifies this
      ensures (Now(), change) == Revoking(old(Now()), node, works)
      ensures change.Kept? || change.NotKept? ==> Authenticate(document, node) == Some(NotApproved)
    {
      var readable := Refresh();
      if !readable {
        return NotRead;
      }
      if node !in document.nodes {
        return Refused;
      }
      document := document.(nodes := document.nodes[node := document.nodes[node].(status := Revoked)]);
      var kept := Persist(works);
      return if kept then Kept else NotKept;
    }
  }

  // -- the numbers handed out ----------------------------------------------------------------------

  /** What happens to the books: a number asked for, a restart that finds a file it can read, or another
      process replacing the file. */
  datatype Use = Next(works: bool) | Restart | Replaced(file: File)

  function After(b: Books, use: Use): Books {
    match use
    case Next(works) => Numbered(b, works).0
    case Restart => if b.file.Garbled? then b else Reread(b.(changed := true)).value
    case Replaced(file) => b.(file := file, changed := true)
  }

  /** The numbers handed out over a life of writes that work or fail, restarts and edits. */
  function HandedOut(b: Books, uses: seq<Use>): seq<nat>
    decreases uses
  {
    if uses == [] then []
    else
      var later := HandedOut(After(b, uses[0]), uses[1..]);
      if uses[0].Next? && Numbered(b, uses[0].works).1.Kept? then [After(b, uses[0]).document.hubEpoch] + later else later
  }

  /** Whoever replaces the file writes an epoch no lower than the last one handed out; a file that cannot be
      read, for a while, sets nothing back. */
  predicate NeverSetBack(b: Books, floor: nat, uses: seq<Use>)
    decreases uses
  {
    uses == [] ||
    (&& (uses[0].Replaced? ==> AtLeast(uses[0].file, floor))
     && NeverSetBack(After(b, uses[0]), NewFloor(b, floor, uses[0]), uses[1..]))
  }

  predicate AtLeast(file: File, floor: nat) {
    match file
    case Legible(d) => d.hubEpoch >= floor
    case Garbled => true
    case Absent => floor == 0
  }

  function NewFloor(b: Books, floor: nat, use: Use): nat {
    if use.Next? && Numbered(b, use.works).1.Kept? then After(b, use).document.hubEpoch else floor
  }

  predicate RiseAbove(floor: nat, numbers: seq<nat>) {
    && (forall i | 0 <= i < |numbers| :: floor < numbers[i])
    && (forall i, j | 0 <= i < j < |numbers| :: numbers[i] < numbers[j])
  }

  lemma OneMoreRises(floor: nat, number: nat, later: seq<nat>)
    requires floor < number && RiseAbove(number, later)
    ensures RiseAbove(floor, [number] + later)
  {
    var all := [number] + later;
    forall i | 0 < i < |all| ensures all[i] == later[i - 1] {}
  }

  /** Neither memory nor the file is behind what was handed out. */
  predicate NotBehind(b: Books, floor: nat) {
    AtLeast(b.file, floor) && b.document.hubEpoch >= floor
  }

  lemma UseKeepsUp(b: Books, floor: nat, use: Use)
    requires NotBehind(b, floor) && (use.Replaced? ==> AtLeast(use.file, floor))
    ensures NotBehind(After(b, use), NewFloor(b, floor, use))
    ensures use.Next? && Numbered(b, use.works).1.Kept? ==> floor < After(b, use).document.hubEpoch
  {
  }

  /** No number is ever handed out twice: across restarts, crashes, failed writes, files that cannot be read
      and edits by another process, they rise, as long as nobody sets the file back. */
  lemma {:induction false} NumbersHandedOutRise(b: Books, floor: nat, uses: seq<Use>)
    requires NotBehind(b, floor) && NeverSetBack(b, floor, uses)
    ensures RiseAbove(floor, HandedOut(b, uses))
    decreases uses
  {
    hide RiseAbove, NotBehind, After, Numbered, AtLeast;
    if uses == [] {
      NoNumberYet(floor);
    } else {
      UseKeepsUp(b, floor, uses[0]);
      NumbersHandedOutRise(After(b, uses[0]), NewFloor(b, floor, uses[0]), uses[1..]);
      if uses[0].Next? && Numbered(b, uses[0].works).1.Kept? {
        OneMoreRises(floor, After(b, uses[0]).document.hubEpoch, HandedOut(After(b, uses[0]), uses[1..]));
      }
    }
  }

  /** A process that writes back what it read before a number was handed out sets the file back, and the
      number is handed out again. */
  lemma ASetBackFileRepeatsANumber(d: Document)
    ensures var uses := [Next(true), Replaced(Legible(d)), Next(true)];
            HandedOut(Books(d, Legible(d), false), uses) == [d.hubEpoch + 1, d.hubEpoch + 1]
  {
    var b := Books(d, Legible(d), false);
    var numbered := After(b, Next(true));
    var replaced := After(numbered, Replaced(Legible(d)));
    var uses := [Next(true), Replaced(Legible(d)), Next(true)];
    assert uses[1..] == [Replaced(Legible(d)), Next(true)] && uses[1..][1..] == [Next(true)] && [Next(true)][1..] == [];
    assert HandedOut(replaced, [Next(true)]) == [d.hubEpoch + 1];
    assert HandedOut(numbered, uses[1..]) == [d.hubEpoch + 1];
  }

  lemma NoNumberYet(floor: nat)
    ensures RiseAbove(floor, [])
  {
  }

  // -- exactly when they rise -----------------------------------------------------------------------

  lemma RisesExactly(floor: nat, number: nat, later: seq<nat>)
    ensures RiseAbove(floor, [number] + later) <==> floor < number && RiseAbove(number, later)
  {
    var all := [number] + later;
    assert forall i | 0 < i < |all| :: all[i] == later[i - 1];
    if RiseAbove(floor, all) {
      assert all[0] == number;
      forall i | 0 <= i < |later| ensures number < later[i] {
        assert all[0] < all[i + 1];
      }
      forall i, j | 0 <= i < j < |later| ensures later[i] < later[j] {
        assert all[i + 1] < all[j + 1];
      }
    } else if floor < number && RiseAbove(number, later) {
      OneMoreRises(floor, number, later);
    }
  }

  /** Whenever a number is given out, what is read before it is no lower than the last one given out. */
  predicate NeverReadsBack(b: Books, floor: nat, uses: seq<Use>)
    decreases uses
  {
    uses == [] ||
    (&& (uses[0].Next? && Numbered(b, uses[0].works).1.Kept? ==> Reread(b).value.document.hubEpoch >= floor)
     && NeverReadsBack(After(b, uses[0]), NewFloor(b, floor, uses[0]), uses[1..]))
  }

  /** Over any life, from any books, whoever edits what: the numbers rise if and only if no number is given out
      over a file, or a memory, that is behind the last one. */
  lemma {:induction false} NumbersRiseExactly(b: Books, floor: nat, uses: seq<Use>)
    ensures RiseAbove(floor, HandedOut(b, uses)) <==> NeverReadsBack(b, floor, uses)
    decreases uses
  {
    hide RiseAbove;
    if uses == [] {
      NoNumberYet(floor);
    } else {
      NumbersRiseExactly(After(b, uses[0]), NewFloor(b, floor, uses[0]), uses[1..]);
      if uses[0].Next? && Numbered(b, uses[0].works).1.Kept? {
        RisesExactly(floor, After(b, uses[0]).document.hubEpoch, HandedOut(After(b, uses[0]), uses[1..]));
      }
    }
  }

  /** So many numbers asked for, by a hub whose writes work. */
  function Asking(n: nat): (uses: seq<Use>)
    ensures |uses| == n
  {
    if n == 0 then [] else [Next(true)] + Asking(n - 1)
  }

  lemma {:induction false} AskingCountsUp(b: Books, n: nat)
    requires Reread(b).Some?
    ensures var numbers := HandedOut(b, Asking(n));
            |numbers| == n && forall i | 0 <= i < n :: numbers[i] == Reread(b).value.document.hubEpoch + 1 + i
    decreases n
  {
    if n > 0 {
      assert Asking(n)[1..] == Asking(n - 1);
      AskingCountsUp(After(b, Next(true)), n - 1);
    }
  }

  /** The epoch a hub goes on from after reading this file. */
  function EpochIn(file: File): nat
    requires !file.Garbled?
  {
    if file.Legible? then file.document.hubEpoch else 0
  }

  /** What somebody about to replace the file has to see to, and no less: where `floor` was handed out last,
      all numbers handed out afterwards, however the hub is used, rise above it if and only if the file holds
      an epoch no lower, or cannot be read. A file set back, by however much, or deleted, makes `floor` be
      handed out again: by the time the hub has counted up from what it read. */
  lemma AnEditIsSafeExactly(b: Books, floor: nat, file: File)
    requires NotBehind(b, floor)
    ensures var edited := After(b, Replaced(file));
            && (AtLeast(file, floor) <==>
                  forall uses | NeverSetBack(edited, floor, uses) :: RiseAbove(floor, HandedOut(edited, uses)))
            && (!AtLeast(file, floor) ==>
                  var numbers := HandedOut(edited, Asking(floor - EpochIn(file)));
                  numbers != [] && numbers[|numbers| - 1] == floor)
  {
    hide RiseAbove, NeverSetBack;
    var edited := After(b, Replaced(file));
    if AtLeast(file, floor) {
      forall uses | NeverSetBack(edited, floor, uses) ensures RiseAbove(floor, HandedOut(edited, uses)) {
        NumbersHandedOutRise(edited, floor, uses);
      }
    } else {
      AskingCountsUp(edited, floor - EpochIn(file));
      AskingSetsNothingBack(edited, floor, 1);
      AskingCountsUp(edited, 1);
      NotAbove(floor, HandedOut(edited, Asking(1)));
    }
  }

  /** At every moment of a life, one more number rises above all those before it. */
  ghost predicate OneMoreAlwaysRises(b: Books, floor: nat, uses: seq<Use>) {
    forall n | 0 <= n <= |uses| :: RiseAbove(floor, HandedOut(b, uses[..n] + [Next(true)]))
  }

  lemma OneMoreLater(b: Books, floor: nat, uses: seq<Use>)
    requires uses != []
    ensures OneMoreAlwaysRises(b, floor, uses) <==>
              && RiseAbove(floor, HandedOut(b, [Next(true)]))
              && forall n | 0 <= n < |uses| :: RiseAbove(floor, HandedOut(b, [uses[0]] + (uses[1..][..n] + [Next(true)])))
  {
    hide HandedOut, RiseAbove;
    assert uses[..0] + [Next(true)] == [Next(true)];
    forall n | 0 <= n < |uses| ensures uses[..n + 1] + [Next(true)] == [uses[0]] + (uses[1..][..n] + [Next(true)]) {}
    if forall n | 0 <= n <= |uses| :: RiseAbove(floor, HandedOut(b, uses[..n] + [Next(true)])) {
      forall n | 0 <= n < |uses|
        ensures RiseAbove(floor, HandedOut(b, [uses[0]] + (uses[1..][..n] + [Next(true)])))
      {
        assert RiseAbove(floor, HandedOut(b, uses[..n + 1] + [Next(true)]));
      }
    } else {
      var n :| 0 <= n <= |uses| && !RiseAbove(floor, HandedOut(b, uses[..n] + [Next(true)]));
      if n > 0 {
        assert uses[..n] + [Next(true)] == [uses[0]] + (uses[1..][..n - 1] + [Next(true)]);
      }
    }
  }

  lemma HandedOutFirst(b: Books, floor: nat, use: Use, rest: seq<Use>)
    ensures RiseAbove(floor, HandedOut(b, [use] + rest)) <==>
              && (use.Next? && Numbered(b, use.works).1.Kept? ==> floor < After(b, use).document.hubEpoch)
              && RiseAbove(NewFloor(b, floor, use), HandedOut(After(b, use), rest))
  {
    hide RiseAbove, After, Numbered;
    assert ([use] + rest)[1..] == rest;
    if use.Next? && Numbered(b, use.works).1.Kept? {
      RisesExactly(floor, After(b, use).document.hubEpoch, HandedOut(After(b, use), rest));
    }
  }

  lemma OneNumber(b: Books, floor: nat)
    ensures RiseAbove(floor, HandedOut(b, [Next(true)])) <==>
              (Numbered(b, true).1.Kept? ==> floor < After(b, Next(true)).document.hubEpoch)
  {
    hide RiseAbove, After, Numbered;
    HandedOutFirst(b, floor, Next(true), []);
    assert [Next(true)] + [] == [Next(true)];
    NoNumberYet(NewFloor(b, floor, Next(true)));
  }

  /** Over a whole life: nobody ever sets the file back if and only if, at every moment of it, the next number
      would be new. */
  lemma {:induction false} NeverSetBackExactly(b: Books, floor: nat, uses: seq<Use>)
    requires NotBehind(b, floor)
    ensures NeverSetBack(b, floor, uses) <==> OneMoreAlwaysRises(b, floor, uses)
    decreases uses
  {
    hide RiseAbove, HandedOut;
    OneNumber(b, floor);
    if uses == [] {
      assert uses[..0] + [Next(true)] == [Next(true)];
    } else {
      var use := uses[0];
      OneMoreLater(b, floor, uses);
      OneNumber(After(b, use), NewFloor(b, floor, use));
      forall n | 0 <= n < |uses|
        ensures RiseAbove(floor, HandedOut(b, [use] + (uses[1..][..n] + [Next(true)])))
                <==> RiseAbove(NewFloor(b, floor, use), HandedOut(After(b, use), uses[1..][..n] + [Next(true)]))
      {
        HandedOutFirst(b, floor, use, uses[1..][..n] + [Next(true)]);
      }
      assert uses[1..][..0] + [Next(true)] == [Next(true)];
      if use.Replaced? && !AtLeast(use.file, floor) {
        assert !RiseAbove(floor, HandedOut(b, [use] + (uses[1..][..0] + [Next(true)])));
      } else {
        UseKeepsUp(b, floor, use);
        NeverSetBackExactly(After(b, use), NewFloor(b, floor, use), uses[1..]);
      }
    }
  }

  lemma {:induction false} AskingSetsNothingBack(b: Books, floor: nat, n: nat)
    ensures NeverSetBack(b, floor, Asking(n))
    decreases n
  {
    if n > 0 {
      assert Asking(n)[1..] == Asking(n - 1);
      AskingSetsNothingBack(After(b, Next(true)), NewFloor(b, floor, Next(true)), n - 1);
    }
  }

  lemma NotAbove(floor: nat, numbers: seq<nat>)
    requires numbers != [] && numbers[0] <= floor
    ensures !RiseAbove(floor, numbers)
  {
  }

  // -- who may speak ------------------------------------------------------------------------------------

  /** What an administrator does to a name, whether or not the file can be written. */
  datatype Act =
    | Registers(node: NodeId, certificate: Option<string>, works: bool)
    | Approves(node: NodeId, pinned: Option<string>, works: bool)
    | Revokes(node: NodeId, works: bool)
    | Numbers(works: bool)

  function Acted(b: Books, act: Act): Books {
    match act
    case Registers(node, certificate, works) => Registered(b, node, certificate, works).0
    case Approves(node, pinned, works) => Approving(b, node, pinned, works).0
    case Revokes(node, works) => Revoking(b, node, works).0
    case Numbers(works) => Numbered(b, works).0
  }

  function AfterActs(acts: seq<Act>, n: nat): Books
    requires n <= |acts|
    decreases n
  {
    if n == 0 then Books(Blank(), Absent, false) else Acted(AfterActs(acts, n - 1), acts[n - 1])
  }

  predicate IsKnown(acts: seq<Act>, node: NodeId, n: nat)
    requires n <= |acts|
  {
    exists i | 0 <= i < n :: acts[i].Registers? && acts[i].node == node
  }

  /** The certificate a name has: the one last approved for it, or else the one it was registered with. */
  function CertificateOf(acts: seq<Act>, node: NodeId, n: nat): Option<string>
    requires n <= |acts|
    decreases n
  {
    if n == 0 then None
    else
      var before, act := CertificateOf(acts, node, n - 1), acts[n - 1];
      if act.Registers? && act.node == node && !IsKnown(acts, node, n - 1) then act.certificate
      else if act.Approves? && act.node == node && act.pinned.Some? && IsKnown(acts, node, n - 1) then act.pinned
      else before
  }

  /** An approval that counts: of a name that is known, and whose certificate is given or on file. */
  predicate Counts(acts: seq<Act>, node: NodeId, i: nat)
    requires i < |acts|
  {
    && acts[i].Approves? && acts[i].node == node && IsKnown(acts, node, i)
    && (acts[i].pinned.Some? || CertificateOf(acts, node, i).Some?)
  }

  /** Approved, and not revoked since. */
  predicate IsApproved(acts: seq<Act>, node: NodeId, n: nat)
    requires n <= |acts|
  {
    exists i | 0 <= i < n :: Counts(acts, node, i) && forall j | i < j < n :: !(acts[j].Revokes? && acts[j].node == node)
  }

  ghost predicate NameTold(acts: seq<Act>, node: NodeId, n: nat)
    requires n <= |acts|
  {
    var nodes := AfterActs(acts, n).document.nodes;
    && (node in nodes <==> IsKnown(acts, node, n))
    && (node in nodes ==> nodes[node].certificate == CertificateOf(acts, node, n))
    && (node in nodes ==> (nodes[node].status == Approved <==> IsApproved(acts, node, n)))
    && (IsApproved(acts, node, n) ==> IsKnown(acts, node, n) && CertificateOf(acts, node, n).Some?)
  }

  lemma NotEdited(acts: seq<Act>, n: nat)
    requires n <= |acts|
    ensures !AfterActs(acts, n).changed
    decreases n
  {
    if n > 0 {
      NotEdited(acts, n - 1);
    }
  }

  lemma KnownMore(acts: seq<Act>, node: NodeId, n: nat)
    requires n < |acts|
    ensures IsKnown(acts, node, n + 1) <==> IsKnown(acts, node, n) || (acts[n].Registers? && acts[n].node == node)
  {
  }

  lemma ApprovedMore(acts: seq<Act>, node: NodeId, n: nat)
    requires n < |acts|
    ensures IsApproved(acts, node, n + 1) <==>
              Counts(acts, node, n) || (IsApproved(acts, node, n) && !(acts[n].Revokes? && acts[n].node == node))
  {
    hide Counts;
    if Counts(acts, node, n) {
      assert n < n + 1;
    }
    if IsApproved(acts, node, n) && !(acts[n].Revokes? && acts[n].node == node) {
      var i :| 0 <= i < n && Counts(acts, node, i) && forall j | i < j < n :: !(acts[j].Revokes? && acts[j].node == node);
      assert Counts(acts, node, i);
    }
  }

  /** What one act does to one name. */
  lemma ActsOnOne(b: Books, act: Act, node: NodeId)
    requires !b.changed
    ensures var before, after := b.document.nodes, Acted(b, act).document.nodes;
            && (act.Numbers? || act.node != node ==> (node in after <==> node in before) && (node in before ==> after[node] == before[node]))
            && (act.Registers? && act.node == node ==>
                  node in after && after[node] == if node in before then before[node] else NodeRecord(Pending, act.certificate))
            && (act.Approves? && act.node == node ==>
                  && (node in after <==> node in before)
                  && (node in before ==>
                        after[node] == if act.pinned.Some? then NodeRecord(Approved, act.pinned)
                                       else if before[node].certificate.Some? then before[node].(status := Approved) else before[node]))
            && (act.Revokes? && act.node == node ==>
                  && (node in after <==> node in before)
                  && (node in before ==> after[node] == before[node].(status := Revoked)))
  {
  }

  lemma {:induction false} NamesAreTold(acts: seq<Act>, node: NodeId, n: nat)
    requires n <= |acts|
    ensures NameTold(acts, node, n)
    decreases n
  {
    hide Acted, IsKnown, IsApproved;
    if n == 0 {
      NobodyIsKnown(acts, node);
    } else {
      NamesAreTold(acts, node, n - 1);
      NotEdited(acts, n - 1);
      KnownMore(acts, node, n - 1);
      ApprovedMore(acts, node, n - 1);
      ActsOnOne(AfterActs(acts, n - 1), acts[n - 1], node);
    }
  }

  lemma NobodyIsKnown(acts: seq<Act>, node: NodeId)
    ensures !IsKnown(acts, node, 0) && !IsApproved(acts, node, 0)
  {
  }

  /** The acts that change something: not refused as it stands. */
  function Changes(acts: seq<Act>, n: nat): nat
    requires n <= |acts|
    decreases n
  {
    if n == 0 then 0
    else
      var (act, before) := (acts[n - 1], Changes(acts, n - 1));
      before + match act
               case Registers(node, _, _) => if IsKnown(acts, node, n - 1) then 0 else 1
               case Approves(node, _, _) => if Counts(acts, node, n - 1) then 1 else 0
               case Revokes(node, _) => if IsKnown(acts, node, n - 1) then 1 else 0
               case Numbers(_) => 1
  }

  /** Over any acts, the document's revision counts its changes. */
  lemma {:induction false} ChangesAreCounted(acts: seq<Act>, n: nat)
    requires n <= |acts|
    ensures AfterActs(acts, n).document.revision == Changes(acts, n)
    decreases n
  {
    hide IsKnown, CertificateOf;
    if n > 0 {
      ChangesAreCounted(acts, n - 1);
      NotEdited(acts, n - 1);
      NamesAreTold(acts, match acts[n - 1] case Numbers(_) => "" case act => act.node, n - 1);
      hide IsApproved;
    }
  }

  /** Over any acts of an administrator: a name may speak exactly if it was registered, was approved when it had a
      certificate or was given one, and has not been revoked since; a name nobody registered is unknown, and any other
      is not approved. */
  lemma WhoMaySpeak(acts: seq<Act>, node: NodeId)
    ensures Authenticate(AfterActs(acts, |acts|).document, node) ==
              if !IsKnown(acts, node, |acts|) then Some(UnknownNode)
              else if !IsApproved(acts, node, |acts|) then Some(NotApproved)
              else None
  {
    hide AfterActs, IsKnown, IsApproved, CertificateOf;
    NamesAreTold(acts, node, |acts|);
  }
}
