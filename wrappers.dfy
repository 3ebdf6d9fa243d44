/** Failure-carrying results shared by every module of the model.
    The pipeline signals failure only with Python's built-in exceptions, so the
    error type names the exception class and nothing more. */
module Wrappers {

  datatype Option<+T> = None | Some(value: T)

  /** The built-in exception a Python operation raises. */
  datatype Error =
    | ValueError   // bad literal for int()/float(), bad token, bad field count, bad unpacking
    | IndexError   // sequence or array index out of range

  datatype Result<+T> = Success(value: T) | Failure(error: Error) {
    predicate IsFailure() { Failure? }

    function PropagateFailure<U>(): Result<U>
      requires Failure?
    {
      Failure(error)
    }

    function Extract(): T
      requires Success?
    {
      value
    }
  }

  /** The values of a run of results in order, or the first failure among
      them: a list comprehension whose element expression may raise. */
  function Collect<T>(results: seq<Result<T>>): Result<seq<T>>
    decreases |results|
  {
    if |results| == 0 then Success([])
    else
      var prev :- Collect(results[..|results| - 1]);
      var last :- results[|results| - 1];
      Success(prev + [last])
  }

  /** A run collects exactly when every result succeeds, and then into one
      value per result, in order; otherwise into the error of the first
      failure. */
  lemma {:induction false} CollectSpec<T>(results: seq<Result<T>>)
    ensures Collect(results).Success? <==> forall i :: 0 <= i < |results| ==> results[i].Success?
    ensures Collect(results).Success? ==>
      |Collect(results).value| == |results| &&
      forall i :: 0 <= i < |results| ==> results[i] == Success(Collect(results).value[i])
    ensures Collect(results).Failure? ==>
      exists k :: 0 <= k < |results| && results[k] == Failure(Collect(results).error) &&
        forall i :: 0 <= i < k ==> results[i].Success?
    decreases |results|
  {
    if |results| > 0 {
      var init := results[..|results| - 1];
      CollectSpec(init);
      assert forall i :: 0 <= i < |init| ==> init[i] == results[i];
      var prev := Collect(init);
      if prev.Failure? {
        var k :| 0 <= k < |init| && init[k] == Failure(prev.error) && forall i :: 0 <= i < k ==> init[i].Success?;
        assert results[k] == Failure(Collect(results).error);
      } else if results[|results| - 1].Success? {
        var values := prev.value + [results[|results| - 1].value];
        assert Collect(results).value == values;
        forall i | 0 <= i < |results|
          ensures results[i] == Success(values[i])
        {
          if i < |init| {
            assert values[i] == prev.value[i];
          }
        }
      } else {
        assert results[|results| - 1] == Failure(Collect(results).error);
      }
    }
  }

  /** Once a prefix of the run fails, the whole run fails with that error. */
  lemma {:induction false} CollectFailurePersists<T>(results: seq<Result<T>>, k: nat)
    requires k <= |results|
    requires Collect(results[..k]).Failure?
    ensures Collect(results) == Collect(results[..k])
    decreases |results| - k
  {
    if k == |results| {
      assert results[..k] == results;
    } else {
      assert results[..k + 1][..k] == results[..k];
      CollectFailurePersists(results, k + 1);
    }
  }

  /** A statement that either completes or raises. */
  datatype Outcome = Done | Raised(error: Error)
}
