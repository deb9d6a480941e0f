/**
 The few pieces of JavaScript evaluation the event handlers depend on, written out
 explicitly: values that may be `null`/`undefined`, expressions that may throw,
 truthiness and `||`, nullish coalescing `??`, template-literal interpolation,
 out-of-range array reads, `Array.prototype.shift` and `Math.floor(Math.random() * n)`.
 */
module JsSemantics {

  /** A value that may be absent: `None` stands for `null` or `undefined`. */
  datatype Option<+T> = None | Some(value: T) {

    /** The value, or `default` when it is absent. */
    function GetOr(default: T): T {
      match this
      case Some(v) => v
      case None => default
    }
  }

  /** The outcome of evaluating an expression that may throw (a `TypeError`, a rejected promise). */
  datatype Eval<+T> = Returns(value: T) | Throws

  /** JavaScript truthiness of an optional string: `null`, `undefined` and "" are falsy. */
  predicate Truthy(s: Option<string>) {
    s.Some? && s.value != ""
  }

  /** `a || b` on optional strings: `a` when it is truthy, `b` otherwise. */
  function Or(a: Option<string>, b: Option<string>): Option<string> {
    if Truthy(a) then a else b
  }

  /** Index `i` is the first operand of `xs` that is neither `null` nor `undefined`. */
  ghost predicate FirstDefinedAt<T>(xs: seq<Option<T>>, i: int) {
    0 <= i < |xs| && xs[i].Some? && forall j | 0 <= j < i :: xs[j].None?
  }

  /**
   `xs[0] ?? xs[1] ?? ... ?? xs[|xs|-1]`: the first operand that is neither `null` nor
   `undefined`, and absent only when every operand is.
   */
  function Coalesce<T>(xs: seq<Option<T>>): (r: Option<T>)
    ensures r.None? <==> forall i | 0 <= i < |xs| :: xs[i].None?
    ensures forall i | FirstDefinedAt(xs, i) :: r == xs[i]
  {
    if |xs| == 0 then None
    else if xs[0].Some? then xs[0]
    else
      assert forall i | FirstDefinedAt(xs, i) :: FirstDefinedAt(xs[1..], i - 1);
      Coalesce(xs[1..])
  }

  /** Template-literal interpolation `${s}` of an optional string. */
  function Text(s: Option<string>): string {
    s.GetOr("undefined")
  }

  /** `xs[i]`: reading past the end of an array yields `undefined` rather than failing. */
  function At<T>(xs: seq<T>, i: nat): Option<T> {
    if i < |xs| then Some(xs[i]) else None
  }

  /** The array left behind by `xs.shift()`: the first element is removed, an empty array stays empty. */
  function Shifted<T>(xs: seq<T>): (r: seq<T>)
    ensures |xs| > 0 ==> [xs[0]] + r == xs
    ensures |xs| == 0 ==> r == []
  {
    if |xs| == 0 then [] else xs[1..]
  }

  /**
   Indexing the array left by `shift()` reads one position further along the original:
   position `i` after the shift is position `i + 1` before it, for every `i`.
   */
  lemma AtShifted<T>(xs: seq<T>, i: nat)
    ensures At(Shifted(xs), i) == At(xs, i + 1)
  {
  }

  /**
   `Math.floor(rand * n)` for a `rand` drawn from `Math.random()`, i.e. in [0, 1): an index
   of an array of length `n` when it is non-empty, and 0 when it is empty.
   */
  function FloorScaled(rand: real, n: nat): (i: nat)
    requires 0.0 <= rand < 1.0
    ensures n > 0 ==> i < n
    ensures n == 0 ==> i == 0
  {
    ScaledBounds(rand, n);
    (rand * n as real).Floor
  }

  /** `0 <= rand * n < n` for `rand` in [0, 1) and `n > 0`. */
  lemma ScaledBounds(rand: real, n: nat)
    requires 0.0 <= rand < 1.0
    ensures 0.0 <= rand * n as real
    ensures n > 0 ==> rand * n as real < n as real
  {
  }

  /** Every index of a non-empty array is `Math.floor(rand * n)` for some `rand` in [0, 1). */
  lemma FloorScaledReaches(n: nat, k: nat)
    requires k < n
    ensures 0.0 <= k as real / n as real < 1.0
    ensures FloorScaled(k as real / n as real, n) == k
  {
  }
}
