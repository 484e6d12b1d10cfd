/**
 * Shared vocabulary of the five API adapters: optional values, results that
 * stand for JavaScript exceptions, the outcome of one `fetch` call, the
 * provenance tag of a result, and the clock and random-number conventions.
 *
 * Everything that the adapters read from the outside world (the network, the
 * clock, `Math.random`, `Math.sin`, environment keys) is a parameter here.
 */
module Common {

  datatype Option<+T> = None | Some(value: T) {
    function GetOr(default: T): T {
      match this
      case Some(v) => v
      case None => default
    }
  }

  /** A computation that may throw: `Err(message)` stands for a thrown error. */
  datatype Result<+T> = Ok(value: T) | Err(message: string) {
    predicate IsFailure() { Err? }
    function PropagateFailure<U>(): Result<U>
      requires Err?
    {
      Err(message)
    }
    function Extract(): T
      requires Ok?
    {
      value
    }
  }

  /**
   * What one awaited `fetch(...)` (plus reading its body) produced: either a
   * response with a status line and a body that could or could not be read /
   * parsed, or a rejected promise (network error, CORS, DNS, ...).
   */
  datatype Fetched<+T> =
    | Answered(status: int, statusText: string, body: Result<T>)
    | Threw(message: string)
  {
    /** `response.ok`: the status is in the range 200-299. */
    predicate Ok() { Answered? && 200 <= status <= 299 }
  }

  /** The `source` tag every adapter puts on its result. */
  datatype Source = Real | Mock

  const SECOND_MS: int := 1000
  const HOUR_MS: int := 60 * 60 * 1000
  const DAY_MS: int := 24 * HOUR_MS

  /** `n` successive results of `Math.random()`, each in [0, 1). */
  predicate UnitDraws(d: seq<real>, n: nat) {
    |d| == n && forall i :: 0 <= i < n ==> 0.0 <= d[i] < 1.0
  }

  /** `n` successive results of `Math.sin(...)`, each in [-1, 1]. */
  predicate Waves(w: seq<real>, n: nat) {
    |w| == n && forall i :: 0 <= i < n ==> -1.0 <= w[i] <= 1.0
  }

  /** `Math.round`: the nearest integer, halves rounded towards +infinity. */
  function Round(x: real): (r: int)
    ensures x - 0.5 < r as real <= x + 0.5
  {
    (x + 0.5).Floor
  }

  /**
   * Property lookup in an object literal written as (key, value) pairs in
   * declaration order: the value of the first pair with that key.
   */
  function Lookup<K(==), V>(table: seq<(K, V)>, key: K): (r: Option<V>)
    ensures r.None? <==> forall i :: 0 <= i < |table| ==> table[i].0 != key
    ensures r.Some? ==> exists i :: 0 <= i < |table| && table[i].0 == key && table[i].1 == r.value
  {
    if table == [] then None
    else if table[0].0 == key then Some(table[0].1)
    else Lookup(table[1..], key)
  }

  /** No key is declared twice (so `Object.entries` order and lookup agree). */
  predicate UniqueKeys<K(==), V>(table: seq<(K, V)>) {
    forall i, j :: 0 <= i < j < |table| ==> table[i].0 != table[j].0
  }

  /** A pair whose key was not declared before it is what lookup finds. */
  lemma {:induction false} LookupFirst<K, V>(table: seq<(K, V)>, i: nat)
    requires i < |table|
    requires forall j :: 0 <= j < i ==> table[j].0 != table[i].0
    ensures Lookup(table, table[i].0) == Some(table[i].1)
  {
    if i > 0 {
      LookupFirst(table[1..], i - 1);
    }
  }

  /** `Math.max(a, b)` on integers. */
  function Max(a: int, b: int): int { if a < b then b else a }

  /** A draw in [0, 1) scaled by a non-negative width stays in [0, width]. */
  lemma ScaledDraw(draw: real, width: real)
    requires 0.0 <= draw < 1.0 && 0.0 <= width
    ensures 0.0 <= draw * width <= width
  {
    ProductNonNegative(draw, width);
    ProductNonNegative(1.0 - draw, width);
    assert (1.0 - draw) * width == width - draw * width;
  }

  lemma ProductNonNegative(a: real, b: real)
    requires 0.0 <= a && 0.0 <= b
    ensures 0.0 <= a * b
  {
    if a != 0.0 && b != 0.0 {
      assert 0.0 < a * b;
    }
  }
}
