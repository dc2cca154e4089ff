/** Failure-compatible wrappers shared by every converter module. */
module Common {

  datatype Option<T> = None | Some(value: T)

  /** The value of an operation that either succeeds or raises. */
  datatype Result<T, E> = Ok(value: T) | Err(error: E) {
    predicate IsFailure() { Err? }

    function PropagateFailure<U>(): Result<U, E>
      requires Err?
    {
      Err(error)
    }

    function Extract(): T
      requires Ok?
    {
      value
    }
  }

  /**
    The outcome of a loop that stops at the first failing step: all the
    values in order, or the error of the first step that failed.
   */
  function AllOk<T, E>(steps: seq<Result<T, E>>): (r: Result<seq<T>, E>)
    ensures r.Ok? ==> |r.value| == |steps|
  {
    if steps == [] then Ok([])
    else
      var n := |steps|;
      var init :- AllOk(steps[..n - 1]);
      var last :- steps[n - 1];
      Ok(init + [last])
  }

  /** Step `k` is the first that failed. */
  predicate FirstErr<T, E>(steps: seq<Result<T, E>>, k: nat)
    requires k < |steps|
  {
    steps[k].Err? && forall j :: 0 <= j < k ==> steps[j].Ok?
  }

  /**
    The loop succeeds iff every step does, and then keeps every value in
    order; otherwise the first failing step gives the error.
   */
  lemma {:induction false} AllOkSpec<T, E>(steps: seq<Result<T, E>>)
    ensures var r := AllOk(steps);
      && (r.Ok? <==> forall j :: 0 <= j < |steps| ==> steps[j].Ok?)
      && (r.Ok? ==> forall j :: 0 <= j < |steps| ==> r.value[j] == steps[j].value)
      && (r.Err? ==> exists k :: 0 <= k < |steps| && FirstErr(steps, k) && r.error == steps[k].error)
  {
    if steps != [] {
      var n := |steps|;
      var init := steps[..n - 1];
      AllOkSpec(init);
      assert forall j :: 0 <= j < n - 1 ==> init[j] == steps[j];
      var ri := AllOk(init);
      if ri.Err? {
        var k :| 0 <= k < |init| && FirstErr(init, k) && ri.error == init[k].error;
        assert FirstErr(steps, k);
      } else if steps[n - 1].Err? {
        assert FirstErr(steps, n - 1);
      }
    }
  }

  /** After a failing prefix, the whole loop fails with the same error. */
  lemma {:induction false} AllOkPrefixErr<T, E>(steps: seq<Result<T, E>>, n: nat)
    requires n <= |steps|
    requires AllOk(steps[..n]).Err?
    ensures AllOk(steps) == AllOk(steps[..n])
  {
    if n < |steps| {
      var init := steps[..|steps| - 1];
      assert init[..n] == steps[..n];
      AllOkPrefixErr(init, n);
    } else {
      assert steps[..n] == steps;
    }
  }
}
