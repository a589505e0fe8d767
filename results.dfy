/** The outcome of an operation that can fail the way the original scripts raise. */
module Results {

  datatype Result<+T, +E> = Ok(value: T) | Err(error: E)

  /** An optional argument (Python's `None` or a value). */
  datatype Option<+T> = None | Some(value: T)

  /**
   * Apply a fallible step to every element in order, collecting the values;
   * the first element whose step fails ends the whole run with its error
   * (a Python loop or comprehension that raises).
   */
  function Traverse<A, B, E>(xs: seq<A>, f: A -> Result<B, E>): (r: Result<seq<B>, E>)
    ensures r.Ok? <==> forall i | 0 <= i < |xs| :: f(xs[i]).Ok?
    ensures r.Ok? ==> |r.value| == |xs| && forall i | 0 <= i < |xs| :: f(xs[i]) == Ok(r.value[i])
    ensures r.Err? ==> exists i | 0 <= i < |xs| ::
              f(xs[i]) == Err(r.error) && forall j | 0 <= j < i :: f(xs[j]).Ok?
  {
    if xs == [] then Ok([])
    else
      var init := xs[..|xs| - 1];
      assert forall i | 0 <= i < |init| :: init[i] == xs[i];
      match Traverse(init, f)
      case Err(e) => Err(e)
      case Ok(vs) =>
        match f(xs[|xs| - 1])
        case Err(e) => Err(e)
        case Ok(v) => Ok(vs + [v])
  }

  /** Running the steps over a longer list: the prefix's run is extended by one more step. */
  lemma TraverseSnoc<A, B, E>(xs: seq<A>, x: A, f: A -> Result<B, E>)
    ensures Traverse(xs + [x], f)
         == match Traverse(xs, f)
            case Err(e) => Err(e)
            case Ok(vs) => (match f(x) case Err(e) => Err(e) case Ok(v) => Ok(vs + [v]))
  {
    assert (xs + [x])[..|xs + [x]| - 1] == xs;
  }

  /** When every step before position k succeeds and step k fails, the run fails with step k's error. */
  lemma TraverseFirstError<A, B, E>(xs: seq<A>, f: A -> Result<B, E>, k: nat)
    requires k < |xs|
    requires forall j | 0 <= j < k :: f(xs[j]).Ok?
    requires f(xs[k]).Err?
    ensures Traverse(xs, f) == Err(f(xs[k]).error)
  {
    var r := Traverse(xs, f);
    var i :| 0 <= i < |xs| && f(xs[i]) == Err(r.error) && forall j | 0 <= j < i :: f(xs[j]).Ok?;
    assert i == k;
  }
}
