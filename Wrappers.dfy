/** Option, Result and Outcome: the values that stand in for Python's `None`
    and for the exceptions the modelled code raises. */
module Wrappers {

  datatype Option<+T> = None | Some(value: T)

  datatype Result<+T, +E> = Ok(value: T) | Err(error: E) {
    predicate IsFailure() { Err? }

    function PropagateFailure<U>(): Result<U, E>
      requires Err?
    {
      Err(error)
    }

    function Extract(): T
      requires Ok?
    {
      value
    }
  }

  /** The result of an operation that only has effects: it completed, or it raised. */
  datatype Outcome<+E> = Pass | Fail(error: E)

  /** A comprehension whose body can raise: the items mapped in order, or the
      exception of the first item that raises. */
  function MapResult<A, B, E>(items: seq<A>, f: A -> Result<B, E>): (r: Result<seq<B>, E>)
    ensures r.Ok? <==> forall i :: 0 <= i < |items| ==> f(items[i]).Ok?
    ensures r.Ok? ==> |r.value| == |items|
    ensures r.Ok? ==> forall i :: 0 <= i < |items| ==> r.value[i] == f(items[i]).value
    ensures r.Err? ==> exists i :: 0 <= i < |items| && f(items[i]).Err? && f(items[i]).error == r.error &&
                                   (forall j :: 0 <= j < i ==> f(items[j]).Ok?)
  {
    if items == [] then Ok([])
    else
      match f(items[0])
      case Err(e) => Err(e)
      case Ok(x) =>
        var rest := MapResult(items[1..], f);
        if rest.Err? then
          assert forall j :: 0 <= j < |items[1..]| ==> items[1..][j] == items[j + 1];
          Err(rest.error)
        else Ok([x] + rest.value)
  }
}
