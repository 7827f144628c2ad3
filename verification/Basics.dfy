/** The smaller and the larger of two, and pieces put end to end. */
module Basics {

  function Min(a: int, b: int): int {
    if a <= b then a else b
  }

  function Max(a: int, b: int): int {
    if a >= b then a else b
  }

  function Joined<T>(pieces: seq<seq<T>>): seq<T>
    decreases pieces
  {
    if pieces == [] then [] else pieces[0] + Joined(pieces[1..])
  }
}
