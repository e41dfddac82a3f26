/** Option and Result, and the Python exceptions the grid raises or lets
    escape from the ORM, as values. */
module Results {

  datatype Option<+T> = None | Some(value: T) {
    function GetOr(default: T): T {
      match this
      case Some(v) => v
      case None => default
    }
  }

  /** The exceptions that can leave a grid operation. */
  datatype Error =
    | ImproperlyConfigured          // neither a queryset nor a model is defined
    | FieldDoesNotExist(name: string) // `_meta.get_field(name)` found nothing
    | FieldError(name: string)      // a `__` path names no field of the model
    | AttributeError                // `field.rel.to` on a field that is not a relation
    | KeyError(key: string)         // a dictionary lookup of a missing key
    | TypeError                     // `int(...)` of a setting that is neither a number nor a string
    | InvalidPage                   // `paginator.page(1)` itself does not exist

  datatype Result<+T> = Ok(value: T) | Err(error: Error) {
    predicate IsFailure() {
      Err?
    }

    function PropagateFailure<U>(): Result<U>
      requires Err?
    {
      Err(error)
    }

    function Extract(): T
      requires Ok?
    {
      value
    }
  }

  /** A list result with `acc` put in front of its items. */
  function Prepend<T>(acc: seq<T>, r: Result<seq<T>>): Result<seq<T>> {
    match r
    case Ok(items) => Ok(acc + items)
    case Err(e) => Err(e)
  }

  /** Putting `x` and then `acc` in front is putting `acc + x` in front. */
  lemma PrependTwice<T>(acc: seq<T>, x: seq<T>, r: Result<seq<T>>)
    ensures Prepend(acc, Prepend(x, r)) == Prepend(acc + x, r)
  {
    if r.Ok? {
      assert acc + (x + r.value) == (acc + x) + r.value;
    }
  }

  /** `f` applied to every item in order, stopping at the first error. */
  function MapAll<A, B>(f: A -> Result<B>, xs: seq<A>): (r: Result<seq<B>>)
    ensures r.Ok? ==> |r.value| == |xs|
  {
    if xs == [] then Ok([])
    else
      match f(xs[0])
      case Err(e) => Err(e)
      case Ok(y) =>
        match MapAll(f, xs[1..])
        case Err(e) => Err(e)
        case Ok(ys) => Ok([y] + ys)
  }

  /** An item that succeeds moves from the items still to map to the results
      made so far. */
  lemma MapAllOkStep<A, B>(f: A -> Result<B>, xs: seq<A>, i: nat, acc: seq<B>, y: B)
    requires i < |xs| && f(xs[i]) == Ok(y)
    ensures Prepend(acc, MapAll(f, xs[i..])) == Prepend(acc + [y], MapAll(f, xs[i + 1..]))
  {
    assert xs[i..][0] == xs[i] && xs[i..][1..] == xs[i + 1..];
    PrependTwice(acc, [y], MapAll(f, xs[i + 1..]));
  }

  /** An item that fails makes the whole map fail with its error. */
  lemma MapAllErrStep<A, B>(f: A -> Result<B>, xs: seq<A>, i: nat, acc: seq<B>)
    requires i < |xs| && f(xs[i]).Err?
    ensures Prepend(acc, MapAll(f, xs[i..])) == Err(f(xs[i]).error)
  {
    assert xs[i..][0] == xs[i];
  }

  /** The map succeeds exactly when every item does, with item `i`'s result
      at position `i`; a failure is the error of the first failing item. */
  lemma {:induction false} MapAllShape<A, B>(f: A -> Result<B>, xs: seq<A>)
    ensures var r := MapAll(f, xs);
      && (r.Ok? <==> forall i :: 0 <= i < |xs| ==> f(xs[i]).Ok?)
      && (r.Ok? ==> forall i :: 0 <= i < |xs| ==> f(xs[i]) == Ok(r.value[i]))
      && (r.Err? ==> exists i :: 0 <= i < |xs| && f(xs[i]) == Err(r.error)
                       && forall j :: 0 <= j < i ==> f(xs[j]).Ok?)
  {
    if xs != [] {
      MapAllShape(f, xs[1..]);
      var r := MapAll(f, xs);
      assert forall i :: 1 <= i < |xs| ==> xs[i] == xs[1..][i - 1];
      if f(xs[0]).Ok? {
        var rest := MapAll(f, xs[1..]);
        if rest.Err? {
          var i :| 0 <= i < |xs[1..]| && f(xs[1..][i]) == Err(rest.error)
            && forall j :: 0 <= j < i ==> f(xs[1..][j]).Ok?;
          assert f(xs[i + 1]) == Err(r.error);
          assert forall j :: 0 <= j < i + 1 ==> f(xs[j]).Ok? by {
            forall j | 0 <= j < i + 1 ensures f(xs[j]).Ok? {
              if j > 0 {
                assert xs[j] == xs[1..][j - 1];
              }
            }
          }
        }
      }
    }
  }
}
