/**
 * The loop shape the adapters use to build result arrays: walk a list,
 * keep the elements that pass a test (picking what is needed from each),
 * and push one converted value per kept element, where a conversion that
 * throws aborts the whole walk.
 */
module Sequences {
  import opened Common

  /** What `pick` extracts from the elements it accepts, in order. */
  function Picked<A, K>(xs: seq<A>, pick: A -> Option<K>): seq<K> {
    if xs == [] then []
    else
      var prev := Picked(xs[..|xs| - 1], pick);
      match pick(xs[|xs| - 1])
      case Some(k) => prev + [k]
      case None => prev
  }

  /** Indices of the accepted elements, in increasing order. */
  function PickedIndices<A, K>(xs: seq<A>, pick: A -> Option<K>): seq<nat> {
    if xs == [] then []
    else
      var prev := PickedIndices(xs[..|xs| - 1], pick);
      if pick(xs[|xs| - 1]).Some? then prev + [|xs| - 1] else prev
  }

  /**
   * The picked values are exactly those of the accepted elements, in list
   * order: the k-th value comes from the element at the k-th index of a
   * strictly increasing list holding an index iff that element is accepted.
   */
  lemma {:induction false} PickedSpec<A, K>(xs: seq<A>, pick: A -> Option<K>)
    ensures |Picked(xs, pick)| == |PickedIndices(xs, pick)|
    ensures forall k :: 0 <= k < |PickedIndices(xs, pick)| ==>
              PickedIndices(xs, pick)[k] < |xs|
              && pick(xs[PickedIndices(xs, pick)[k]]) == Some(Picked(xs, pick)[k])
    ensures forall k, l :: 0 <= k < l < |PickedIndices(xs, pick)| ==>
              PickedIndices(xs, pick)[k] < PickedIndices(xs, pick)[l]
    ensures forall i :: 0 <= i < |xs| ==> (pick(xs[i]).Some? <==> i in PickedIndices(xs, pick))
  {
    if xs != [] {
      var init := xs[..|xs| - 1];
      PickedSpec(init, pick);
      var ix := PickedIndices(xs, pick);
      var prev := PickedIndices(init, pick);
      assert forall k :: 0 <= k < |prev| ==> prev[k] < |init| && init[prev[k]] == xs[prev[k]];
      forall i | 0 <= i < |xs| ensures pick(xs[i]).Some? <==> i in ix {
        if i < |init| {
          assert xs[i] == init[i];
          assert i != |xs| - 1;
        }
      }
    }
  }

  /** When every element is accepted, the picked values are their extracts one for one. */
  lemma {:induction false} PickedAll<A, K>(xs: seq<A>, pick: A -> Option<K>)
    requires forall k :: 0 <= k < |xs| ==> pick(xs[k]).Some?
    ensures |Picked(xs, pick)| == |xs|
    ensures forall k :: 0 <= k < |xs| ==> Picked(xs, pick)[k] == pick(xs[k]).value
  {
    if xs != [] {
      PickedAll(xs[..|xs| - 1], pick);
    }
  }

  lemma PickedAppend<A, K>(xs: seq<A>, x: A, pick: A -> Option<K>)
    ensures Picked(xs + [x], pick) == Picked(xs, pick) + (match pick(x) case Some(k) => [k] case None => [])
  {
    assert (xs + [x])[..|xs + [x]| - 1] == xs;
  }

  lemma {:induction false} PickedSplit<A, K>(xs: seq<A>, ys: seq<A>, pick: A -> Option<K>)
    ensures Picked(xs + ys, pick) == Picked(xs, pick) + Picked(ys, pick)
    decreases |ys|
  {
    if ys == [] {
      assert xs + ys == xs;
    } else {
      var init := ys[..|ys| - 1];
      PickedSplit(xs, init, pick);
      assert (xs + ys)[..|xs + ys| - 1] == xs + init;
    }
  }

  /**
   * Applies a conversion that may throw to every element in order, as a
   * loop that pushes each result does: the first error aborts the whole run.
   */
  function MapResult<A, B>(xs: seq<A>, f: A -> Result<B>): Result<seq<B>> {
    if xs == [] then Ok([])
    else
      var prev :- MapResult(xs[..|xs| - 1], f);
      var y :- f(xs[|xs| - 1]);
      Ok(prev + [y])
  }

  /** The run succeeds iff every element converts, and then yields the conversions in order. */
  lemma {:induction false} MapResultSpec<A, B>(xs: seq<A>, f: A -> Result<B>)
    ensures MapResult(xs, f).Ok? <==> forall k :: 0 <= k < |xs| ==> f(xs[k]).Ok?
    ensures MapResult(xs, f).Ok? ==>
              |MapResult(xs, f).value| == |xs|
              && forall k :: 0 <= k < |xs| ==> MapResult(xs, f).value[k] == f(xs[k]).value
  {
    if xs != [] {
      var init := xs[..|xs| - 1];
      MapResultSpec(init, f);
      if MapResult(init, f).Err? {
        var k :| 0 <= k < |init| && f(init[k]).Err?;
        assert init[k] == xs[k];
      } else if f(xs[|xs| - 1]).Ok? {
        forall k | 0 <= k < |xs| ensures f(xs[k]).Ok? && MapResult(xs, f).value[k] == f(xs[k]).value {
          if k < |init| {
            assert init[k] == xs[k];
          }
        }
      }
    }
  }

  /** One more element: the run so far, then that element's conversion. */
  lemma MapResultAppend<A, B>(xs: seq<A>, x: A, f: A -> Result<B>)
    ensures MapResult(xs + [x], f) ==
              match MapResult(xs, f)
              case Err(m) => Err(m)
              case Ok(prev) => (match f(x) case Err(m) => Err(m) case Ok(y) => Ok(prev + [y]))
  {
    assert (xs + [x])[..|xs + [x]| - 1] == xs;
  }

  /** Once the run has thrown, later elements change nothing. */
  lemma {:induction false} MapResultErrStays<A, B>(xs: seq<A>, ys: seq<A>, f: A -> Result<B>)
    requires MapResult(xs, f).Err?
    ensures MapResult(xs + ys, f) == MapResult(xs, f)
    decreases |ys|
  {
    if ys != [] {
      var init := ys[..|ys| - 1];
      MapResultErrStays(xs, init, f);
      assert xs + ys == (xs + init) + [ys[|ys| - 1]];
      MapResultAppend(xs + init, ys[|ys| - 1], f);
    } else {
      assert xs + ys == xs;
    }
  }

  /**
   * The `for...of` loop: for each element that `pick` accepts, push the
   * conversion of what it picked; a conversion that throws ends the loop
   * with that error.
   */
  method PushPicked<A, K, B>(xs: seq<A>, pick: A -> Option<K>, f: K -> Result<B>) returns (r: Result<seq<B>>)
    ensures r == MapResult(Picked(xs, pick), f)
  {
    var out: seq<B> := [];
    var i := 0;
    while i < |xs|
      invariant 0 <= i <= |xs|
      invariant MapResult(Picked(xs[..i], pick), f) == Ok(out)
    {
      assert xs[..i + 1] == xs[..i] + [xs[i]];
      PickedAppend(xs[..i], xs[i], pick);
      match pick(xs[i]) {
        case None =>
          assert Picked(xs[..i + 1], pick) == Picked(xs[..i], pick) + [];
        case Some(k) =>
          MapResultAppend(Picked(xs[..i], pick), k, f);
          var y := f(k);
          if y.Err? {
            assert xs == xs[..i + 1] + xs[i + 1..];
            PickedSplit(xs[..i + 1], xs[i + 1..], pick);
            MapResultErrStays(Picked(xs[..i + 1], pick), Picked(xs[i + 1..], pick), f);
            return Err(y.message);
          }
          out := out + [y.value];
      }
      i := i + 1;
    }
    assert xs[..i] == xs;
    return Ok(out);
  }

  /** `xs.filter(p).length`. */
  function Count<T>(xs: seq<T>, p: T -> bool): (n: nat)
    ensures n <= |xs|
  {
    if xs == [] then 0 else Count(xs[..|xs| - 1], p) + (if p(xs[|xs| - 1]) then 1 else 0)
  }

  /** No element passes exactly when the count is zero; all pass exactly when it is the length. */
  lemma {:induction false} CountSpec<T>(xs: seq<T>, p: T -> bool)
    ensures Count(xs, p) == 0 <==> forall i :: 0 <= i < |xs| ==> !p(xs[i])
    ensures Count(xs, p) == |xs| <==> forall i :: 0 <= i < |xs| ==> p(xs[i])
  {
    if xs != [] {
      CountSpec(xs[..|xs| - 1], p);
    }
  }

  /** `xs.reduce((sum, x) => sum + f(x), 0)` for a count-valued `f`. */
  function SumOf<T>(xs: seq<T>, f: T -> nat): nat {
    if xs == [] then 0 else SumOf(xs[..|xs| - 1], f) + f(xs[|xs| - 1])
  }

  /** A sum of counts is zero exactly when every count is. */
  lemma {:induction false} SumOfZero<T>(xs: seq<T>, f: T -> nat)
    ensures SumOf(xs, f) == 0 <==> forall i :: 0 <= i < |xs| ==> f(xs[i]) == 0
  {
    if xs != [] {
      SumOfZero(xs[..|xs| - 1], f);
    }
  }

  /** Summing a pointwise smaller function gives a smaller sum. */
  lemma {:induction false} SumOfMono<T>(xs: seq<T>, f: T -> nat, g: T -> nat)
    requires forall i :: 0 <= i < |xs| ==> f(xs[i]) <= g(xs[i])
    ensures SumOf(xs, f) <= SumOf(xs, g)
  {
    if xs != [] {
      SumOfMono(xs[..|xs| - 1], f, g);
    }
  }

  /** `xs.find(p)`, as the index of the first element that passes. */
  function FindFirst<T>(xs: seq<T>, p: T -> bool): (r: Option<nat>)
    ensures r.Some? ==> r.value < |xs| && p(xs[r.value])
    ensures r.Some? ==> forall j :: 0 <= j < r.value ==> !p(xs[j])
    ensures r.None? ==> forall j :: 0 <= j < |xs| ==> !p(xs[j])
  {
    if xs == [] then None
    else if p(xs[0]) then Some(0)
    else
      match FindFirst(xs[1..], p)
      case Some(k) => Some(k + 1)
      case None => None
  }

  /**
   * A `for...of` loop over requests and their outcomes that pushes exactly
   * one value per element, whatever the outcome was.
   */
  method PushEach<A, B, P>(xs: seq<A>, ys: seq<B>, f: (A, B) -> P) returns (r: seq<P>)
    requires |ys| == |xs|
    ensures |r| == |xs|
    ensures forall i :: 0 <= i < |xs| ==> r[i] == f(xs[i], ys[i])
  {
    r := [];
    var i := 0;
    while i < |xs|
      invariant 0 <= i <= |xs| && |r| == i
      invariant forall k :: 0 <= k < i ==> r[k] == f(xs[k], ys[k])
    {
      r := r + [f(xs[i], ys[i])];
      i := i + 1;
    }
  }
}
