/** The resolved results of the two reactive types the shop resource returns:
    a `Uni` ends in one item or one failure, a finite `Multi` emits items and
    then completes or fails. Only the operators the resource uses for shaping
    results are modelled, on resolved values; scheduling is not. */
module Reactive {
  import opened JavaLang

  /** The terminal state of a `Uni`. */
  datatype Outcome<T> = Success(value: T) | Failure(error: Throwable)

  /** How a `Multi` ended. */
  datatype End = Completed | Failed(error: Throwable)

  /** Everything a finite `Multi` delivered: its items in order, then its end. */
  datatype Emission<T> = Emission(items: seq<T>, end: End)

  /** `uni.onItem().transform(f)`: a mapper that throws is given as one that
      returns a `Failure`; a failure upstream passes through and `f` is not run. */
  function Transform<T, U>(d: Outcome<T>, f: T -> Outcome<U>): (r: Outcome<U>)
    ensures r.Success? <==> d.Success? && f(d.value).Success?
    ensures r.Success? ==> r.value == f(d.value).value
    ensures r.Failure? ==> r.error == if d.Failure? then d.error else f(d.value).error
  {
    match d
    case Success(v) => f(v)
    case Failure(e) => Failure(e)
  }

  /** Two transforms in a row are one transform by the composed mapper, so a
      chain of transforms fails at its first throwing mapper. */
  lemma TransformCompose<T, U, V>(d: Outcome<T>, f: T -> Outcome<U>, g: U -> Outcome<V>)
    ensures Transform(Transform(d, f), g) == Transform(d, x => Transform(f(x), g))
  {
  }

  /** `uni.onFailure().recoverWithItem(fallback)`: never fails. */
  function RecoverWithItem<T>(d: Outcome<T>, fallback: Throwable -> T): (r: Outcome<T>)
    ensures r.Success?
    ensures d.Success? ==> r == d
    ensures d.Failure? ==> r.value == fallback(d.error)
  {
    match d
    case Success(_) => d
    case Failure(e) => Success(fallback(e))
  }

  /** The resolved result of `Uni.combine().all().unis(a, b).asTuple()`:
      a pair when both succeed, otherwise a failure of a failing component,
      the first one in argument order when both fail. */
  function CombineAll<A, B>(a: Outcome<A>, b: Outcome<B>): (r: Outcome<(A, B)>)
    ensures r.Success? <==> a.Success? && b.Success?
    ensures r.Success? ==> r.value == (a.value, b.value)
    ensures a.Failure? ==> r == Failure(a.error)
    ensures a.Success? && b.Failure? ==> r == Failure(b.error)
  {
    match a
    case Failure(e) => Failure(e)
    case Success(x) =>
      match b
      case Failure(e) => Failure(e)
      case Success(y) => Success((x, y))
  }

  /** `multi.onItem().transform(f)`: each item is mapped in order; the first
      item whose mapper throws ends the stream with that failure, and the
      items after it are never delivered (the upstream is cancelled). */
  function TransformItems<T, U>(e: Emission<T>, f: T -> Outcome<U>): (r: Emission<U>)
    ensures |r.items| <= |e.items|
    ensures forall k :: 0 <= k < |r.items| ==> f(e.items[k]) == Success(r.items[k])
    ensures |r.items| < |e.items| ==>
      f(e.items[|r.items|]).Failure? && r.end == Failed(f(e.items[|r.items|]).error)
    ensures |r.items| == |e.items| ==> r.end == e.end
    decreases |e.items|
  {
    if e.items == [] then Emission([], e.end)
    else
      match f(e.items[0])
      case Failure(x) => Emission([], Failed(x))
      case Success(y) =>
        var rest := TransformItems(Emission(e.items[1..], e.end), f);
        Emission([y] + rest.items, rest.end)
  }

  /** Two per-item transforms in a row are one per-item transform by the
      composed mapper: the same items, stopping at the same place. */
  lemma TransformItemsCompose<T, U, V>(e: Emission<T>, f: T -> Outcome<U>, g: U -> Outcome<V>)
    ensures TransformItems(TransformItems(e, f), g) == TransformItems(e, x => Transform(f(x), g))
  {
  }
}
