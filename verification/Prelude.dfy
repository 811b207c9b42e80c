/** Small vocabulary shared by every component. */
module Prelude {

  datatype Option<+T> = None | Some(value: T) {
    function Or(otherwise: T): T {
      if None? then otherwise else value
    }
  }

  /** How far a result can be relied on. */
  datatype ResultState = Local | Partial | Validated | Invalid

  /** The largest value a `u64` of the agent can hold. */
  const U64_MAX: nat := 0xFFFF_FFFF_FFFF_FFFF

  function Min(a: int, b: int): int {
    if a <= b then a else b
  }

  function Max(a: int, b: int): int {
    if a <= b then b else a
  }

  /** `saturating_add` and `saturating_mul` on `u64`. */
  function Saturate(n: nat): nat {
    Min(n, U64_MAX)
  }

  /** The last `n` elements of `s`, or all of them when there are fewer. */
  function LastN<T>(s: seq<T>, n: nat): seq<T> {
    if |s| <= n then s else s[|s| - n..]
  }

  /** A ring that drops its oldest entry on overflow holds the last `n` of its history. */
  lemma LastNPush<T>(s: seq<T>, x: T, n: nat)
    requires n > 0
    ensures LastN(LastN(s, n) + [x], n) == LastN(s + [x], n)
  {
  }

  ghost predicate Distinct<T>(s: seq<T>) {
    forall i, j :: 0 <= i < j < |s| ==> s[i] != s[j]
  }

  /** `names` lists every key once, in some order. */
  ghost predicate Lists(names: seq<string>, keys: set<string>) {
    (forall n :: n in names <==> n in keys) && Distinct(names)
  }

  lemma Multiply(a: nat, b: nat, c: nat)
    requires a <= b
    ensures a * c <= b * c
  {
  }

  function LastElement<T>(s: seq<T>): Option<T> {
    if s == [] then None else Some(s[|s| - 1])
  }
}
