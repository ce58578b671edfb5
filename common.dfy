/** Types shared by every pipeline: optional values, results that carry an
    error instead of raising it, the (entity, event) pair returned by
    repositories, and the element-wise mapping used by list comprehensions. */
module Common {

  /** A point in time (a parsed `datetime`), in seconds. */
  type Timestamp = int

  datatype Option<+T> = None | Some(value: T)

  /** The outcome of an operation that may raise: `Failure` carries the
      exception that would have been raised. */
  datatype Result<+T, +E> = Success(value: T) | Failure(error: E)

  /** `ResultWithEvent[Result, Event]`: the persisted state of an entity
      together with the event that describes the mutation. */
  datatype ResultWithEvent<+R, +V> = ResultWithEvent(result: R, event: V)

  /** `[f(x) for x in s]`: one image per element, in the same order. */
  function MapSeq<A, B>(f: A -> B, s: seq<A>): (r: seq<B>)
    ensures |r| == |s|
    ensures forall i :: 0 <= i < |s| ==> r[i] == f(s[i])
  {
    if s == [] then [] else [f(s[0])] + MapSeq(f, s[1..])
  }
}
