/** JavaScript idioms the model needs everywhere: optional values, results,
    thrown values and the truthiness tests the source writes as `x || y`,
    `x ?? y` and `if (!x)`. */
module Common {

  /** `undefined` / `null` versus a present value. */
  datatype Option<+T> = None | Some(value: T) {
    /** `x ?? d` */
    function GetOr(d: T): T {
      match this
      case Some(v) => v
      case None => d
    }
  }

  /** The value of a promise: resolved, or rejected with an error. */
  datatype Result<+R, +E> = Success(value: R) | Failure(error: E)

  /** What a `catch` block receives: an `Error` carrying a message, or any
      other thrown value. */
  datatype Thrown = Error(message: string) | NonError

  /** JavaScript truthiness of an optional string: present and non-empty. */
  predicate Truthy(s: Option<string>) {
    s.Some? && s.value != ""
  }

  /** `s || fallback` on an optional string. */
  function OrElse(s: Option<string>, fallback: string): (r: string)
    ensures Truthy(s) ==> r == s.value
    ensures !Truthy(s) ==> r == fallback
  {
    if Truthy(s) then s.value else fallback
  }

  /** `e instanceof Error ? e.message : fallback`. */
  function MessageOr(e: Thrown, fallback: string): (r: string)
    ensures e.Error? ==> r == e.message
    ensures e.NonError? ==> r == fallback
  {
    match e
    case Error(m) => m
    case NonError => fallback
  }

  /** The part of a script left after `k` items were consumed. */
  function Drop<T>(s: seq<T>, k: nat): (r: seq<T>)
    ensures |r| == if k <= |s| then |s| - k else 0
    ensures forall i :: 0 <= i < |r| ==> r[i] == s[k + i]
  {
    if k <= |s| then s[k..] else []
  }

  /** Consuming `a` items and then `b` more consumes `a + b`. */
  lemma DropDrop<T>(s: seq<T>, a: nat, b: nat)
    ensures Drop(Drop(s, a), b) == Drop(s, a + b)
  {
  }
}
