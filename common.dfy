/** Small shared vocabulary: nullable values and Python's integer truncation. */
module Common {

  /** A nullable database column or a missing request parameter. */
  datatype Option<+T> = None | Some(value: T) {
    function GetOr(default: T): T {
      match this
      case Some(v) => v
      case None => default
    }
  }

  /** Python truthiness of an optional string: present and non-empty. */
  predicate Truthy(s: Option<string>) {
    s.Some? && s.value != ""
  }

  function Abs(x: int): nat {
    if x < 0 then -x else x
  }

  /** Python's `int()` applied to an exact quotient: division truncating toward zero
      (Dafny's `/` is Euclidean, so the sign is handled explicitly). */
  function TruncDiv(a: int, b: int): (q: int)
    requires b != 0
    ensures Abs(q) * Abs(b) <= Abs(a) < (Abs(q) + 1) * Abs(b)
    ensures q != 0 ==> ((q > 0) <==> ((a > 0) == (b > 0)))
  {
    var m := Abs(a) / Abs(b);
    if (a >= 0) == (b > 0) then m else -m
  }
}
