/** Results of the Go functions: a value or an error, and values that may be absent (nil). */
module Wrappers {

  datatype Option<+T> = None | Some(value: T)

  /** The only distinction the callers make between errors (`errors.IsResourceNotFound`). */
  datatype Error = ResourceNotFound | Failed

  datatype Result<+T> = Ok(value: T) | Err(error: Error)

  /** Lists a finite set, in any order. */
  method Enumerate<T(==)>(s: set<T>) returns (q: seq<T>)
    ensures forall x :: x in q <==> x in s
    ensures forall i, j | 0 <= i < j < |q| :: q[i] != q[j]
  {
    q := [];
    var todo := s;
    while todo != {}
      invariant todo <= s
      invariant forall x :: x in q <==> x in s - todo
      invariant forall i, j | 0 <= i < j < |q| :: q[i] != q[j]
    {
      var x :| x in todo;
      assert forall y :: y in q + [x] <==> y in q || y == x;
      todo := todo - {x};
      q := q + [x];
    }
  }
}
