/** Shared result shapes: an optional value, and the outcome of a call into
    code the model cannot see (a foreign library or the network), which either
    returns a value or raises an exception carrying its message. */
module Common {

  datatype Option<+T> = None | Some(value: T)

  /** Outcome of one call that may raise. `Raised(message)` carries `str(e)`. */
  datatype Call<+T> = Returned(value: T) | Raised(message: string) {
    predicate IsFailure() { Raised? }

    function PropagateFailure<U>(): Call<U>
      requires Raised?
    {
      Raised(message)
    }

    function Extract(): T
      requires Returned?
    {
      value
    }
  }

  /** Python's `d.get(k, default)`: the stored value when the key is present,
      otherwise the default. */
  function GetOr<K, V>(m: map<K, V>, k: K, default: V): (v: V)
    ensures k in m ==> v == m[k]
    ensures k !in m ==> v == default
  {
    if k in m then m[k] else default
  }

  /** A byte as an unbounded integer in [0, 256). */
  type Byte = x: int | 0 <= x < 256

  /** The state a component reaches from `s` by handling `events` in order,
      one `step` each. */
  function Run<S, E>(step: (S, E) -> S, s: S, events: seq<E>): S
    decreases |events|
  {
    if events == [] then s else Run(step, step(s, events[0]), events[1..])
  }

  /** A property every step keeps holds after any sequence of events. */
  lemma {:induction false} RunPreserves<S, E>(step: (S, E) -> S, inv: S -> bool, s: S, events: seq<E>)
    requires forall x, e :: inv(x) ==> inv(step(x, e))
    requires inv(s)
    ensures inv(Run(step, s, events))
    decreases |events|
  {
    if events != [] {
      RunPreserves(step, inv, step(s, events[0]), events[1..]);
    }
  }
}
