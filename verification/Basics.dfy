/** What several components share. */
module Basics {

  /** The address of an object. */
  type Id = nat

  datatype Option<+T> = None | Some(value: T)

  const INT_MIN := -0x8000_0000_0000_0000
  const INT_MAX := 0x7FFF_FFFF_FFFF_FFFF

  /** An i64. */
  type Int64 = x: int | INT_MIN <= x <= INT_MAX

  /** A list without x. */
  function Minus(l: seq<Id>, x: Id): (r: seq<Id>)
    ensures forall i | 0 <= i < |r| :: r[i] in l && r[i] != x
    ensures forall y | y in l && y != x :: y in r
    ensures (forall i, j | 0 <= i < j < |l| :: l[i] != l[j]) ==> (forall i, j | 0 <= i < j < |r| :: r[i] != r[j])
  {
    if l == [] then [] else if l[0] == x then Minus(l[1..], x) else [l[0]] + Minus(l[1..], x)
  }
}
