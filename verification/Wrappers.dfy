/** Optional values and results of operations that may throw. */
module Wrappers {

  datatype Option<+T> = None | Some(value: T)

  /** `Throw` is the source's exception: the enclosing transaction is rolled back. */
  datatype Result<+T> = Success(value: T) | Throw {

    predicate IsFailure() {
      Throw?
    }

    function PropagateFailure<U>(): Result<U>
      requires Throw?
    {
      Throw
    }

    function Extract(): T
      requires Success?
    {
      value
    }
  }

  /** Runs to the first `Throw`. */
  function Gather<T>(rs: seq<Result<T>>): (all: Result<seq<T>>) {
    if rs == [] then Success([])
    else
      var rest :- Gather(rs[..|rs| - 1]);
      var last :- rs[|rs| - 1];
      Success(rest + [last])
  }

  lemma {:induction false} GatherIff<T>(rs: seq<Result<T>>)
    ensures Gather(rs).Success? <==> forall i :: 0 <= i < |rs| ==> rs[i].Success?
    ensures Gather(rs).Success? ==> |Gather(rs).value| == |rs| && forall i :: 0 <= i < |rs| ==> rs[i] == Success(Gather(rs).value[i])
  {
    if rs != [] {
      var n := |rs| - 1;
      GatherIff(rs[..n]);
      assert forall i :: 0 <= i < n ==> rs[..n][i] == rs[i];
    }
  }
}
