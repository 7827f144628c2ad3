/** One counter per source, per boot, that only ever goes up. */
module Numbering {
  import opened Wire

  type Counters = map<SourceId, nat>

  function Next(next: Counters, source: SourceId): nat {
    if source in next then next[source] else 0
  }

  function Taken(next: Counters, source: SourceId): Counters {
    next[source := Next(next, source) + 1]
  }

  class Sequencer {
    var next: Counters

    constructor ()
      ensures next == map[]
    {
      next := map[];
    }

    method Take(source: SourceId) returns (number: nat)
      modifies this
      ensures number == Next(old(next), source)
      ensures next == Taken(old(next), source)
    {
      number := if source in next then next[source] else 0;
      next := next[source := number + 1];
    }
  }

  /** The numbers a run of takes hands out, in order. */
  function Numbers(next: Counters, sources: seq<SourceId>): seq<nat>
    decreases sources
  {
    if sources == [] then [] else [Next(next, sources[0])] + Numbers(Taken(next, sources[0]), sources[1..])
  }

  lemma {:induction false} NumbersStartAtTheCounter(next: Counters, sources: seq<SourceId>, source: SourceId)
    ensures |Numbers(next, sources)| == |sources|
    ensures forall i | 0 <= i < |sources| && sources[i] == source :: Numbers(next, sources)[i] >= Next(next, source)
    decreases sources
  {
    if sources != [] {
      NumbersStartAtTheCounter(Taken(next, sources[0]), sources[1..], source);
    }
  }

  /** No source is ever given the same number twice, and its numbers rise. */
  lemma {:induction false} NumbersRise(next: Counters, sources: seq<SourceId>, i: nat, j: nat)
    requires i < j < |sources| && sources[i] == sources[j]
    ensures |Numbers(next, sources)| == |sources|
    ensures Numbers(next, sources)[i] < Numbers(next, sources)[j]
    decreases sources
  {
    NumbersStartAtTheCounter(Taken(next, sources[0]), sources[1..], sources[j]);
    if i == 0 {
      assert sources[1..][j - 1] == sources[j];
    } else {
      NumbersRise(Taken(next, sources[0]), sources[1..], i - 1, j - 1);
    }
  }
}
