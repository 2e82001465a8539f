/** Small shared vocabulary: optional values, error results, and the supply of unused identifiers. */
module Common {

  datatype Option<+T> = None | Some(value: T)

  datatype Result<+T, +E> = Ok(value: T) | Err(error: E)

  /** `Math.ceil(a / b)` for a positive divisor: Dafny's `/` rounds down, so negate twice. */
  function CeilDiv(a: int, b: int): (r: int)
    requires 0 < b
    ensures (r - 1) * b < a <= r * b
  {
    -((-a) / b)
  }

  /** The first `n` elements, or all when there are fewer. */
  function Take<T>(s: seq<T>, n: nat): seq<T> {
    if |s| <= n then s else s[..n]
  }

  ghost function MaxOf(s: set<nat>): (m: nat)
    ensures forall x :: x in s ==> x <= m
  {
    if s == {} then 0
    else
      var x :| x in s;
      var m := MaxOf(s - {x});
      assert s == (s - {x}) + {x};
      if x < m then m else x
  }

  /** Random identifiers: whatever has been used so far, an unused one exists. */
  lemma UnusedExists(used: set<nat>) returns (id: nat)
    ensures id !in used
  {
    id := MaxOf(used) + 1;
  }
}
