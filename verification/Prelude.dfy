/** Types shared by every module of the model. */
module Prelude {
  datatype Option<+T> = None | Some(value: T)

  datatype Result<+T, +E> = Ok(value: T) | Err(error: E)

  /** Instants in nanoseconds since some origin, as Go's time package counts them. */
  type Time = int

  /** There is always a fresh number. */
  lemma {:induction false} Unused(used: set<nat>) returns (k: nat)
    ensures k !in used && forall j :: j in used ==> j < k
    decreases used
  {
    if used == {} {
      k := 0;
    } else {
      var j :| j in used;
      k := Unused(used - {j});
      if k <= j {
        k := j + 1;
      }
      assert forall i :: i in used ==> i == j || i in used - {j};
    }
  }
}
