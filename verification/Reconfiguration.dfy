/** Sources the hub asks for: checked in full, started and watched, kept in an overlay beside the
    installed file, or put back as they were.
  */
module Reconfiguration {
  import opened Wrappers
  import opened SourceList

  /** The kinds this version of the agent can drive. */
  const SUPPORTED := {"gpio", "onewire", "bme280", "adc", "csi", "microphone", "ble", "board", "dummy"}

  datatype Config = Config(node: string, profile: Profile, sources: seq<Source>)

  type Conflicts = seq<Source> -> bool

  function EnvOf(config: Config, conflict: Conflicts): Env {
    Env(config.node, config.profile, Some(SUPPORTED), conflict)
  }

  /** The configuration a request would produce, if it may be. */
  function Check(config: Config, conflict: Conflicts, revision: int, entries: seq<Entry>, current: int): Option<Config> {
    if revision <= current then None
    else
      match Parse(EnvOf(config, conflict), entries)
      case Failure(_) => None
      case Success(sources) => Some(config.(sources := sources))
  }

  // -- the overlay file --------------------------------------------------------------------------

  /** What is on disk: nothing, something that is no document, something nested past what the decoder goes
      through, or a document of some node. */
  datatype File = Missing | Unusable | TooDeep | Kept(node: string, revision: Option<int>, entries: Option<seq<Entry>>)

  datatype Loaded = Loaded(revision: int, config: Config)

  function Saved(config: Config, revision: int): File {
    Kept(config.node, Some(revision), Some(AsEntries(config.sources)))
  }

  /** The decoder breaks off at a document nested too deep, and so does whoever wanted the overlay. */
  predicate Readable(file: File) {
    !file.TooDeep?
  }

  /** The installed configuration with the overlay on top, if there is a usable one. */
  function Load(file: File, installed: Config, conflict: Conflicts): Loaded
    requires Readable(file)
  {
    if !file.Kept? || file.node != installed.node || file.revision.None? || file.entries.None? then Loaded(0, installed)
    else
      match Check(installed, conflict, file.revision.value, file.entries.value, 0)
      case None => Loaded(0, installed)
      case Some(config) => Loaded(file.revision.value, config)
  }

  class Overlay {
    var file: File

    constructor (found: File)
      ensures file == found
    {
      file := found;
    }

    method LoadOver(installed: Config, conflict: Conflicts) returns (loaded: Option<Loaded>)
      ensures loaded == if Readable(file) then Some(Load(file, installed, conflict)) else None
    {
      if file.TooDeep? {
        return None;
      }
      if !file.Kept? {
        return Some(Loaded(0, installed));
      }
      if file.node != installed.node || file.revision.None? || file.entries.None? {
        return Some(Loaded(0, installed));
      }
      var revision := file.revision.value;
      if revision <= 0 {
        return Some(Loaded(0, installed));
      }
      var sources := ParseSources(EnvOf(installed, conflict), file.entries.value);
      if sources.Failure? {
        return Some(Loaded(0, installed));
      }
      return Some(Loaded(revision, installed.(sources := sources.value)));
    }

    /** In one step: a write that fails leaves what was there. */
    method Save(config: Config, revision: int, works: bool) returns (ok: bool)
      modifies this
      ensures ok == works && file == if works then Saved(config, revision) else old(file)
    {
      if works {
        file := Saved(config, revision);
      }
      return works;
    }
  }

  // -- the node ------------------------------------------------------------------------------------

  /** How replacing the drivers goes: done, or broken off before the new ones were there, or after. */
  datatype Swap = Swapped | NotBuilt | NotStarted

  /** How the world answers one request. */
  datatype World = World(builderAccepts: bool, first: Swap, probeFinds: bool, saves: bool, restore: Swap)

  /** `running` is the configuration whose drivers run, if any do. */
  datatype Node = Node(config: Config, running: Option<Config>, revision: int, file: File)

  datatype Outcome = Refused | Applied | PutBack | NotPutBack

  function Replaced(n: Node, config: Config, swap: Swap): Node {
    match swap
    case Swapped => n.(config := config, running := Some(config))
    case NotBuilt => n.(running := None)
    case NotStarted => n.(config := config, running := None)
  }

  function Configure(n: Node, conflict: Conflicts, revision: int, entries: seq<Entry>, w: World): (Node, Outcome) {
    var proposed := Check(n.config, conflict, revision, entries, n.revision);
    if proposed.None? || !w.builderAccepts then (n, Refused)
    else
      var tried := Replaced(n, proposed.value, w.first);
      if w.first.Swapped? && !w.probeFinds && w.saves then
        (tried.(revision := revision, file := Saved(proposed.value, revision)), Applied)
      else
        var restored := Replaced(tried, n.config, w.restore);
        (restored, if w.restore.Swapped? then PutBack else NotPutBack)
  }

  class Agent {
    const conflict: Conflicts
    const overlay: Overlay
    var config: Config
    var running: Option<Config>
    var revision: int

    function Now(): Node
      reads this, overlay
    {
      Node(config, running, revision, overlay.file)
    }

    /** An agent runs what was loaded, its drivers built. */
    constructor (loaded: Loaded, overlay: Overlay, conflict: Conflicts)
      ensures this.overlay == overlay && this.conflict == conflict
      ensures Now() == Node(loaded.config, Some(loaded.config), loaded.revision, overlay.file)
    {
      this.conflict := conflict;
      this.overlay := overlay;
      config, running, revision := loaded.config, Some(loaded.config), loaded.revision;
    }

    method ReplaceDrivers(next: Config, swap: Swap) returns (ok: bool)
      modifies this
      ensures Now() == Replaced(old(Now()), next, swap)
      ensures ok == swap.Swapped?
    {
      running := None;
      if swap == NotBuilt {
        return false;
      }
      config := next;
      if swap == NotStarted {
        return false;
      }
      running := Some(next);
      return true;
    }

    method ConfigureSources(revision: int, entries: seq<Entry>, w: World) returns (outcome: Outcome)
      modifies this, overlay
      ensures (Now(), outcome) == Configure(old(Now()), conflict, revision, entries, w)
    {
      if revision <= this.revision {
        return Refused;
      }
      var sources := ParseSources(EnvOf(config, conflict), entries);
      if sources.Failure? || !w.builderAccepts {
        return Refused;
      }
      var proposed := config.(sources := sources.value);
      var previous := config;
      var works := ReplaceDrivers(proposed, w.first);
      if works && w.probeFinds {
        works := false;
      }
      if works {
        works := overlay.Save(proposed, revision, w.saves);
      }
      if !works {
        var back := ReplaceDrivers(previous, w.restore);
        return if back then PutBack else NotPutBack;
      }
      this.revision := revision;
      return Applied;
    }
  }

  /** A process starts with the installed configuration and whatever overlay there is, unless the overlay
      cannot be read through or the builder refuses what it gives. */
  method Boot(installed: Config, overlay: Overlay, conflict: Conflicts, accepts: bool) returns (agent: Agent?)
    ensures agent != null <==> Readable(overlay.file) && accepts
    ensures agent != null ==> agent.overlay == overlay && agent.Now() == Booted(overlay.file, installed, conflict)
  {
    var loaded := overlay.LoadOver(installed, conflict);
    if loaded.None? || !accepts {
      return null;
    }
    agent := new Agent(loaded.value, overlay, conflict);
  }

  function Booted(file: File, installed: Config, conflict: Conflicts): Node
    requires Readable(file)
  {
    var loaded := Load(file, installed, conflict);
    Node(loaded.config, Some(loaded.config), loaded.revision, file)
  }

  // -- all or nothing --------------------------------------------------------------------------------

  /** What runs is what the node believes it runs, and what it would come back with after a reboot. */
  ghost predicate InStep(n: Node, installed: Config, conflict: Conflicts) {
    && n.running == Some(n.config)
    && Readable(n.file)
    && Load(n.file, installed, conflict) == Loaded(n.revision, n.config)
  }

  lemma LoadKeepsTheRest(file: File, installed: Config, conflict: Conflicts)
    requires Readable(file)
    ensures var loaded := Load(file, installed, conflict);
            && loaded.revision >= 0
            && loaded.config.node == installed.node && loaded.config.profile == installed.profile
  {
    hide Parse;
  }

  /** What a process starts with: the list of an overlay of this node with a revision from 1 up, if every entry of it
      says a source and none is in the way of another; else the installed list, at revision 0. */
  lemma WhatIsLoaded(file: File, installed: Config, conflict: Conflicts)
    requires Readable(file)
    ensures var loaded := Load(file, installed, conflict);
            var usable := file.Kept? && file.node == installed.node && file.revision.Some? && file.revision.value >= 1
                          && file.entries.Some?
                          && Parse(EnvOf(installed, conflict), file.entries.value).Success?;
            if usable then
              && loaded.revision == file.revision.value
              && loaded.config == installed.(sources := Parse(EnvOf(installed, conflict), file.entries.value).value)
            else loaded == Loaded(0, installed)
  {
    hide Parse;
  }

  /** An overlay that was saved is loaded again as it was. */
  lemma SavedIsLoaded(config: Config, conflict: Conflicts, revision: int, entries: seq<Entry>, current: int, installed: Config)
    requires 0 <= current && Check(config, conflict, revision, entries, current).Some?
    requires config.node == installed.node && config.profile == installed.profile
    ensures var proposed := Check(config, conflict, revision, entries, current).value;
            Load(Saved(proposed, revision), installed, conflict) == Loaded(revision, proposed)
  {
    hide Parse, AsEntries;
    ReloadIsTheIdentity(EnvOf(config, conflict), entries);
  }

  /** Whether a request that is checked gets as far as being kept: the builder takes it, the drivers start
      and nothing is found wrong with them. */
  predicate GoesThrough(w: World) {
    w.builderAccepts && w.first.Swapped? && !w.probeFinds
  }

  /** After each request the sources, the revision in memory and the overlay are all the new, strictly higher
      revision, when it is accepted and goes through and is written; they are all as before, when it is
      refused or the old drivers start again; and otherwise nothing runs under the old revision, and the node
      takes for its own the list it last built drivers for. */
  lemma AllOrNothing(n: Node, installed: Config, conflict: Conflicts, revision: int, entries: seq<Entry>, w: World)
    requires InStep(n, installed, conflict)
    ensures var (after, outcome) := Configure(n, conflict, revision, entries, w);
            var accepted := Check(n.config, conflict, revision, entries, n.revision).Some? && w.builderAccepts;
            var applied := accepted && GoesThrough(w) && w.saves;
            && (InStep(after, installed, conflict) <==> !accepted || applied || w.restore.Swapped?)
            && (outcome.Applied? <==> applied) && (outcome.Refused? <==> !accepted)
            && (applied ==>
                  && n.revision < revision == after.revision
                  && Parse(EnvOf(installed, conflict), entries) == Success(after.config.sources)
                  && after.file == Saved(after.config, revision))
            && (!accepted || (!applied && w.restore.Swapped?) ==> after == n)
            && (accepted && !applied && !w.restore.Swapped? ==>
                  && after.running.None? && after.revision == n.revision && after.file == n.file
                  && after.config == (if w.first != NotBuilt && w.restore == NotBuilt
                                      then Check(n.config, conflict, revision, entries, n.revision).value else n.config))
  {
    hide Parse, AsEntries, Load;
    LoadKeepsTheRest(n.file, installed, conflict);
    var proposed := Check(n.config, conflict, revision, entries, n.revision);
    if proposed.Some? {
      SavedIsLoaded(n.config, conflict, revision, entries, n.revision, installed);
    }
  }

  /** What a failed restore can lead to: a list that was refused before runs under the old revision. */
  lemma AFailedRestoreCanComeBack(n: Node, installed: Config, conflict: Conflicts, revision: int, entries: seq<Entry>, again: seq<Entry>)
    requires InStep(n, installed, conflict)
    requires Check(n.config, conflict, revision, entries, n.revision).Some?
    requires var proposed := Check(n.config, conflict, revision, entries, n.revision).value;
             proposed != n.config && Check(proposed, conflict, revision, again, n.revision).Some?
    ensures var failed := Configure(n, conflict, revision, entries, World(true, Swapped, true, true, NotBuilt));
            var later := Configure(failed.0, conflict, revision, again, World(true, NotBuilt, false, true, Swapped));
            && failed.1.NotPutBack? && later.1.PutBack?
            && later.0.running == Some(Check(n.config, conflict, revision, entries, n.revision).value)
            && later.0.revision == n.revision && !InStep(later.0, installed, conflict)
  {
    hide Parse, Load;
  }

  // -- over requests, reboots and power cuts ---------------------------------------------------------------

  /** A board whose process runs, or does not. */
  datatype Board = Off(file: File) | Up(node: Node)

  function FileOf(b: Board): File {
    if b.Up? then b.node.file else b.file
  }

  /** A request may be cut short by the power, before or after the overlay is replaced. A reboot whose builder
      refuses what the overlay gives does not start the process. */
  datatype Op =
    | Request(revision: int, entries: seq<Entry>, world: World)
    | CutShort(revision: int, entries: seq<Entry>, world: World, replaced: bool)
    | Reboot(accepts: bool)

  function Apply(b: Board, installed: Config, conflict: Conflicts, op: Op): Board {
    match op
    case Request(revision, entries, w) =>
      if b.Off? then b else Up(Configure(b.node, conflict, revision, entries, w).0)
    case CutShort(revision, entries, w, replaced) =>
      if b.Off? then b
      else
        var proposed := Check(b.node.config, conflict, revision, entries, b.node.revision);
        Off(if proposed.Some? && GoesThrough(w) && replaced then Saved(proposed.value, revision) else b.node.file)
    case Reboot(accepts) =>
      if accepts && Readable(FileOf(b)) then Up(Booted(FileOf(b), installed, conflict)) else Off(FileOf(b))
  }

  /** A board found off, with whatever overlay it has. */
  function Run(file: File, installed: Config, conflict: Conflicts, ops: seq<Op>): Board
    decreases ops
  {
    if ops == [] then Off(file)
    else Apply(Run(file, installed, conflict, ops[..|ops| - 1]), installed, conflict, ops[|ops| - 1])
  }

  /** What an operation puts in force, if it does: a request that passes the check and goes through, and is
      written before the power goes. */
  function PutInForce(b: Board, conflict: Conflicts, op: Op): Option<Loaded> {
    if b.Off? || op.Reboot? || !GoesThrough(op.world) || !(if op.Request? then op.world.saves else op.replaced) then None
    else
      match Check(b.node.config, conflict, op.revision, op.entries, b.node.revision)
      case None => None
      case Some(config) => Some(Loaded(op.revision, config))
  }

  /** The last thing put in force, or what the board had when it was found. */
  function LastInForce(file: File, installed: Config, conflict: Conflicts, ops: seq<Op>): Loaded
    requires Readable(file)
    decreases ops
  {
    if ops == [] then Load(file, installed, conflict)
    else
      var before := ops[..|ops| - 1];
      match PutInForce(Run(file, installed, conflict, before), conflict, ops[|ops| - 1])
      case Some(loaded) => loaded
      case None => LastInForce(file, installed, conflict, before)
  }

  /** What the revision in memory says is what a reboot would read. */
  ghost predicate Remembered(n: Node, installed: Config, conflict: Conflicts) {
    && Readable(n.file)
    && Load(n.file, installed, conflict).revision == n.revision
    && n.config.node == installed.node && n.config.profile == installed.profile
  }

  lemma BootRemembers(file: File, installed: Config, conflict: Conflicts)
    requires Readable(file)
    ensures Remembered(Booted(file, installed, conflict), installed, conflict)
  {
    hide Load;
    LoadKeepsTheRest(file, installed, conflict);
  }

  lemma StepRemembers(b: Board, installed: Config, conflict: Conflicts, op: Op)
    requires Readable(FileOf(b)) && (b.Up? ==> Remembered(b.node, installed, conflict))
    ensures Readable(FileOf(Apply(b, installed, conflict, op)))
    ensures var after, put := Apply(b, installed, conflict, op), PutInForce(b, conflict, op);
            && (after.Up? ==> Remembered(after.node, installed, conflict))
            && Load(FileOf(after), installed, conflict)
               == (if put.Some? then put.value else Load(FileOf(b), installed, conflict))
            && (put.Some? ==> put.value.revision > Load(FileOf(b), installed, conflict).revision)
  {
    hide Check, Load, AsEntries;
    LoadKeepsTheRest(FileOf(b), installed, conflict);
    if op.Reboot? {
      BootRemembers(FileOf(b), installed, conflict);
    } else if b.Up? && Check(b.node.config, conflict, op.revision, op.entries, b.node.revision).Some? {
      SavedIsLoaded(b.node.config, conflict, op.revision, op.entries, b.node.revision, installed);
      CheckedIsHigher(b.node.config, conflict, op.revision, op.entries, b.node.revision);
    }
  }

  lemma CheckedIsHigher(config: Config, conflict: Conflicts, revision: int, entries: seq<Entry>, current: int)
    requires Check(config, conflict, revision, entries, current).Some?
    ensures revision > current
    ensures var checked := Check(config, conflict, revision, entries, current).value;
            checked.node == config.node && checked.profile == config.profile
  {
  }

  /** Over any requests, failed restores, power cuts and reboots: a boot whose builder accepts runs the
      sources, and is at the revision, of the last request that was put in force, or of what the board was
      found with. */
  lemma {:induction false} ABootRunsTheLastInForce(file: File, installed: Config, conflict: Conflicts, ops: seq<Op>)
    requires Readable(file)
    ensures Readable(FileOf(Run(file, installed, conflict, ops)))
    ensures var b, last := Run(file, installed, conflict, ops), LastInForce(file, installed, conflict, ops);
            && (b.Up? ==> Remembered(b.node, installed, conflict))
            && Load(FileOf(b), installed, conflict) == last
            && Apply(b, installed, conflict, Reboot(true)) == Up(Node(last.config, Some(last.config), last.revision, FileOf(b)))
    decreases ops
  {
    hide Check, Load, PutInForce, Remembered;
    if ops != [] {
      var n := |ops| - 1;
      ABootRunsTheLastInForce(file, installed, conflict, ops[..n]);
      StepRemembers(Run(file, installed, conflict, ops[..n]), installed, conflict, ops[n]);
    }
  }

  /** The one overlay it does not hold for: found nested too deep, it keeps the process from ever starting, and
      nothing but somebody taking it away by hand changes that. */
  lemma ATooDeepOverlayNeverStarts(file: File, installed: Config, conflict: Conflicts)
    ensures !Readable(file) <==> forall ops: seq<Op> :: Run(file, installed, conflict, ops) == Off(file)
  {
    if Readable(file) {
      var boot := [Reboot(true)];
      assert boot[..0] == [] && Run(file, installed, conflict, boot[..0]) == Off(file);
      assert Run(file, installed, conflict, boot).Up?;
    } else {
      forall ops: seq<Op> ensures Run(file, installed, conflict, ops) == Off(file) {
        StaysOff(file, installed, conflict, ops);
      }
    }
  }

  lemma {:induction false} StaysOff(file: File, installed: Config, conflict: Conflicts, ops: seq<Op>)
    requires !Readable(file)
    ensures Run(file, installed, conflict, ops) == Off(file)
    decreases ops
  {
    if ops != [] {
      StaysOff(file, installed, conflict, ops[..|ops| - 1]);
    }
  }

  /** Over the same, from any overlay on: the revision in force never falls, and a process that runs has in
      memory what is in the file. */
  lemma {:induction false} RevisionNeverFalls(file: File, installed: Config, conflict: Conflicts, ops: seq<Op>, i: nat)
    requires Readable(file) && i <= |ops|
    ensures Readable(FileOf(Run(file, installed, conflict, ops[..i]))) && Readable(FileOf(Run(file, installed, conflict, ops)))
    ensures var early, late := Run(file, installed, conflict, ops[..i]), Run(file, installed, conflict, ops);
            && Load(FileOf(early), installed, conflict).revision <= Load(FileOf(late), installed, conflict).revision
            && (late.Up? ==> late.node.revision == Load(late.node.file, installed, conflict).revision)
    decreases |ops| - i, ops
  {
    hide Load, PutInForce, Apply;
    ABootRunsTheLastInForce(file, installed, conflict, ops);
    if i < |ops| {
      var before := ops[..|ops| - 1];
      RevisionNeverFalls(file, installed, conflict, before, i);
      ABootRunsTheLastInForce(file, installed, conflict, before);
      StepRemembers(Run(file, installed, conflict, before), installed, conflict, ops[|ops| - 1]);
      assert before[..i] == ops[..i];
    } else {
      assert ops[..i] == ops;
    }
  }
}
