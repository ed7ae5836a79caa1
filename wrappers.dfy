/** Optional values, fallible results and settled promises. */
module Wrappers {

  /** An optional value: a JSON field that may be absent or null. */
  datatype Option<+T> = None | Some(value: T)

  /** The outcome of an awaited call that may throw; the error carries the message. */
  datatype Result<+T> = Ok(value: T) | Failure(error: string)

  /** One entry of `Promise.allSettled`: the promise was fulfilled with a value or rejected. */
  datatype Settled<+T> = Fulfilled(value: T) | Rejected(reason: string)

  /** The settled outcome of an awaited call. */
  function Settle<T>(r: Result<T>): (o: Settled<T>)
    ensures o.Fulfilled? <==> r.Ok?
    ensures o.Fulfilled? ==> o.value == r.value
  {
    match r
    case Ok(v) => Fulfilled(v)
    case Failure(e) => Rejected(e)
  }

  /** JavaScript truthiness of an optional string: present and not empty. */
  predicate Truthy(o: Option<string>) {
    o.Some? && o.value != ""
  }

  /** `a || b` on optional strings, as JavaScript evaluates it. */
  function OrElse(a: Option<string>, b: Option<string>): (r: Option<string>)
    ensures Truthy(a) ==> r == a
    ensures !Truthy(a) ==> r == b
  {
    if Truthy(a) then a else b
  }

  /** `o || ''`: the string when it is present, otherwise the empty string. */
  function OrEmpty(o: Option<string>): (r: string)
    ensures Truthy(o) ==> r == o.value
    ensures !Truthy(o) ==> r == ""
  {
    if o.Some? then o.value else ""
  }

  /** `list?.[0]`: the first element, if there is one. */
  function Head<T>(s: seq<T>): (r: Option<T>)
    ensures r.Some? <==> |s| > 0
    ensures r.Some? ==> r.value == s[0]
  {
    if |s| > 0 then Some(s[0]) else None
  }
}
