/** Optional values and success-or-error results, the two shapes that stand
    in for Kotlin's nullable types and for exceptions thrown by the modelled
    code. */
module Results {

  /** A Kotlin `T?`. */
  datatype Option<+T> = None | Some(value: T) {
    predicate IsFailure() { None? }

    function PropagateFailure<U>(): Option<U>
      requires None?
    {
      None
    }

    function Extract(): T
      requires Some?
    {
      value
    }
  }

  /** Either a value or the exception the source would throw instead. */
  datatype Result<+T, +E> = Ok(value: T) | Err(error: E) {
    predicate IsFailure() { Err? }

    function PropagateFailure<U>(): Result<U, E>
      requires Err?
    {
      Err(error)
    }

    function Extract(): T
      requires Ok?
    {
      value
    }
  }

  /** Maps every element with a conversion that may fail; the first failure
      wins, as with a Kotlin `map` whose lambda throws. */
  function MapAll<A, B, E>(xs: seq<A>, f: A -> Result<B, E>): (r: Result<seq<B>, E>)
    ensures r.Ok? <==> forall i :: 0 <= i < |xs| ==> f(xs[i]).Ok?
    ensures r.Ok? ==> |r.value| == |xs|
    ensures r.Ok? ==> forall i :: 0 <= i < |xs| ==> r.value[i] == f(xs[i]).value
  {
    if |xs| == 0 then Ok([])
    else
      match f(xs[0])
      case Err(e) => Err(e)
      case Ok(y) =>
        match MapAll(xs[1..], f)
        case Err(e) => Err(e)
        case Ok(ys) =>
          assert forall i :: 1 <= i < |xs| ==> xs[i] == xs[1..][i - 1];
          Ok([y] + ys)
  }

  /** Kotlin's `x?.let(f)` for a conversion that cannot fail. */
  function MapNullable<A, B>(x: Option<A>, f: A -> B): (r: Option<B>)
    ensures r.None? <==> x.None?
    ensures r.Some? ==> r.value == f(x.value)
  {
    match x
    case None => None
    case Some(a) => Some(f(a))
  }

  /** Maps every element of an optional value, keeping `None` as it is
      (Kotlin's `?.let`). */
  function MapOption<A, B, E>(x: Option<A>, f: A -> Result<B, E>): (r: Result<Option<B>, E>)
    ensures x.None? ==> r == Ok(None)
    ensures x.Some? ==> (r.Ok? <==> f(x.value).Ok?)
    ensures x.Some? && r.Ok? ==> r.value == Some(f(x.value).value)
  {
    match x
    case None => Ok(None)
    case Some(a) =>
      match f(a)
      case Err(e) => Err(e)
      case Ok(b) => Ok(Some(b))
  }

  /** If `g` undoes `f` on every element, then mapping with `g` undoes mapping
      with `f`: the law behind every list round trip of the entity mappers. */
  lemma {:induction false} MapAllRoundTrip<A, B, E>(xs: seq<A>, f: A -> Result<B, E>, g: B -> Result<A, E>)
    requires forall i :: 0 <= i < |xs| ==> f(xs[i]).Ok? && g(f(xs[i]).value) == Ok(xs[i])
    ensures MapAll(xs, f).Ok?
    ensures MapAll(MapAll(xs, f).value, g) == Ok(xs)
  {
    var ys := MapAll(xs, f).value;
    var zs := MapAll(ys, g);
    assert forall i :: 0 <= i < |ys| ==> g(ys[i]) == Ok(xs[i]);
    assert zs.Ok?;
    assert zs.value == xs;
  }
}
