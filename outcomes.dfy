/** Python exceptions raised by the pipeline, and a failure-compatible result type. */
module Outcomes {

  /** The key that a failed dictionary or mapping lookup was given. */
  datatype Key = NameKey(name: string) | IndexKey(index: int)

  /** The exception classes the modelled code raises. */
  datatype Error =
    | KeyError(key: Key)
    | IndexError
    | TypeError
    | ValueError
    | ZeroDivisionError

  datatype Result<+T> = Ok(value: T) | Err(error: Error) {
    predicate IsFailure() { Err? }

    function PropagateFailure<U>(): Result<U>
      requires Err?
    {
      Err(error)
    }

    function Extract(): T
      requires Ok?
    {
      value
    }
  }

  datatype Option<+T> = None | Some(value: T)

  /** Runs a list of steps in order and stops at the first one that raises: the outcome of a
      Python loop over the list, or of an order-preserving `map`. */
  function Collect<T>(rs: seq<Result<T>>): (r: Result<seq<T>>)
    ensures r.Ok? <==> forall k | 0 <= k < |rs| :: rs[k].Ok?
    ensures r.Ok? ==> |r.value| == |rs| && forall k | 0 <= k < |rs| :: r.value[k] == rs[k].value
    ensures r.Err? ==> exists k | 0 <= k < |rs| :: rs[k] == Err(r.error) && forall j | 0 <= j < k :: rs[j].Ok?
  {
    if |rs| == 0 then Ok([])
    else if rs[0].Err? then Err(rs[0].error)
    else
      match Collect(rs[1..])
      case Err(e) =>
        ghost var k :| 0 <= k < |rs[1..]| && rs[1..][k] == Err(e) && forall j | 0 <= j < k :: rs[1..][j].Ok?;
        assert rs[k + 1] == Err(e);
        Err(e)
      case Ok(vs) => Ok([rs[0].value] + vs)
  }

  /** The error that stops the loop is that of the first failing step. */
  lemma CollectFirstError<T>(rs: seq<Result<T>>, i: nat)
    requires i < |rs| && rs[i].Err?
    requires forall j | 0 <= j < i :: rs[j].Ok?
    ensures Collect(rs) == Err(rs[i].error)
  {
    var r := Collect(rs);
    var k :| 0 <= k < |rs| && rs[k] == Err(r.error) && forall j | 0 <= j < k :: rs[j].Ok?;
    assert k == i;
  }

  /** When every step succeeds, the loop yields their values in order. */
  lemma CollectAllOk<T>(rs: seq<Result<T>>, vs: seq<T>)
    requires |vs| == |rs| && forall k | 0 <= k < |rs| :: rs[k] == Ok(vs[k])
    ensures Collect(rs) == Ok(vs)
  {
    var r := Collect(rs);
    assert r.Ok?;
    assert r.value == vs;
  }

  /** A loop whose first i steps succeeded with values vs, and whose step i succeeds too, has
      succeeded on the first i + 1 steps. */
  lemma CollectExtend<T>(rs: seq<Result<T>>, i: nat, vs: seq<T>)
    requires i < |rs| && Collect(rs[..i]) == Ok(vs) && rs[i].Ok?
    ensures Collect(rs[..i + 1]) == Ok(vs + [rs[i].value])
  {
    var front := rs[..i + 1];
    forall k | 0 <= k < |front|
      ensures front[k] == Ok((vs + [rs[i].value])[k])
    {
      if k < i {
        assert rs[..i][k] == rs[k];
      }
    }
    CollectAllOk(front, vs + [rs[i].value]);
  }

  /** A loop whose first i steps succeeded stops at a failing step i with its error. */
  lemma CollectStops<T>(rs: seq<Result<T>>, i: nat, vs: seq<T>)
    requires i < |rs| && Collect(rs[..i]) == Ok(vs) && rs[i].Err?
    ensures Collect(rs) == Err(rs[i].error)
  {
    forall j | 0 <= j < i
      ensures rs[j].Ok?
    {
      assert rs[..i][j] == rs[j];
    }
    CollectFirstError(rs, i);
  }
}
