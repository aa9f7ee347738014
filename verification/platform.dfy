/**
  The part of the hosting UI platform that the three boat components observe.

  Every component is a record of fields plus pure transition functions
  `(state, input) -> Transition(state', emitted)`: platform interactions the
  component starts (remote calls, toasts, custom events, bus messages,
  location requests) are entries appended to an output log, and everything
  the platform delivers back (remote completions, wire deliveries, the
  position callback) is an input event applied in the order given.
 */
module Platform {

  /** A JavaScript value, as far as the components inspect one.
      Numbers are integers here: NaN and fractional values are not modelled. */
  datatype JsValue =
    | JsUndefined
    | JsNull
    | JsBool(b: bool)
    | JsNumber(n: int)
    | JsString(s: string)

  /** JavaScript truthiness: `undefined`, `null`, `false`, `0` and `""` are falsy. */
  predicate Truthy(v: JsValue)
  {
    match v
    case JsUndefined => false
    case JsNull => false
    case JsBool(b) => b
    case JsNumber(n) => n != 0
    case JsString(s) => s != ""
  }

  /** A component field that is either still `undefined` or holds an object.
      An object (an array included, even an empty one) is always truthy. */
  datatype Maybe<+T> = Undefined | Defined(value: T)

  /** A rejected remote call; `message` is what the components read as `error.body.message`. */
  datatype ErrorDetail = ErrorDetail(message: string)

  /** A record's fields by API name, as edited in a table row or returned by a query. */
  type Fields = map<string, JsValue>

  /** The payload of a toast notification. */
  datatype ToastEvent = ToastEvent(title: string, message: string, variant: string)

  /** The result of handling one input: the new component state and what it emitted, in order. */
  datatype Transition<S, X> = Transition(state: S, emitted: seq<X>)

  /** Applies `step` to each event in turn, concatenating what each step emitted. */
  function Run<S, E, X>(step: (S, E) -> Transition<S, X>, s: S, events: seq<E>): Transition<S, X>
    decreases |events|
  {
    if events == [] then Transition(s, [])
    else
      var first := step(s, events[0]);
      var rest := Run(step, first.state, events[1..]);
      Transition(rest.state, first.emitted + rest.emitted)
  }

  /** Running two traces one after the other is running their concatenation. */
  lemma {:induction false} RunAppend<S, E, X>(step: (S, E) -> Transition<S, X>, s: S, a: seq<E>, b: seq<E>)
    ensures Run(step, s, a + b).state == Run(step, Run(step, s, a).state, b).state
    ensures Run(step, s, a + b).emitted == Run(step, s, a).emitted + Run(step, Run(step, s, a).state, b).emitted
    decreases |a|
  {
    if a == [] {
      assert a + b == b;
    } else {
      assert (a + b)[0] == a[0];
      assert (a + b)[1..] == a[1..] + b;
      var first := step(s, a[0]);
      RunAppend(step, first.state, a[1..], b);
    }
  }

  /** How many times `x` occurs in `log`. */
  function Count<X(==)>(log: seq<X>, x: X): (n: nat)
    ensures n <= |log|
    ensures n == 0 <==> x !in log
  {
    if log == [] then 0
    else (if log[0] == x then 1 else 0) + Count(log[1..], x)
  }

  lemma {:induction false} CountAppend<X>(a: seq<X>, b: seq<X>, x: X)
    ensures Count(a + b, x) == Count(a, x) + Count(b, x)
  {
    if a == [] {
      assert a + b == b;
    } else {
      assert (a + b)[0] == a[0];
      assert (a + b)[1..] == a[1..] + b;
      CountAppend(a[1..], b, x);
    }
  }
}
