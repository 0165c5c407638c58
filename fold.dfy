/** A `for` loop that threads a state through a list and may raise at any
    element: the specification the report agent's loops are proved against,
    and a loop that stops at its first hit. */
module Folds {
  import opened Wrappers

  /** The state after `for x in items: state = step(state, x)`, or the first
      exception a step raises. Defined on the last element, as a loop extends
      the prefix it has already visited. */
  function Fold<S, X>(s0: S, items: seq<X>, step: (S, X) -> Result<S>): Result<S>
    decreases |items|
  {
    if items == [] then Ok(s0)
    else
      var prev :- Fold(s0, items[..|items| - 1], step);
      step(prev, items[|items| - 1])
  }

  /** One more iteration of the loop. */
  lemma FoldStep<S, X>(s0: S, items: seq<X>, step: (S, X) -> Result<S>, i: nat, s: S)
    requires i < |items| && Fold(s0, items[..i], step) == Ok(s)
    ensures Fold(s0, items[..i + 1], step) == step(s, items[i])
  {
    assert items[..i + 1][..i] == items[..i];
  }

  /** Once a step has raised, the rest of the list is not visited. */
  lemma {:induction false} FoldRaiseStops<S, X>(s0: S, items: seq<X>, step: (S, X) -> Result<S>, i: nat)
    requires i <= |items| && Fold(s0, items[..i], step).Raise?
    ensures Fold(s0, items, step) == Fold(s0, items[..i], step)
    decreases |items|
  {
    if i < |items| {
      var init := items[..|items| - 1];
      assert init[..i] == items[..i];
      FoldRaiseStops(s0, init, step, i);
    } else {
      assert items[..i] == items;
    }
  }

  /** A loop that stops at the first element meeting `test`: whether it found
      one, or the exception an element raised before that. */
  function Found<X>(items: seq<X>, test: X -> Result<bool>): Result<bool>
    decreases |items|
  {
    if items == [] then Ok(false)
    else
      var v :- test(items[0]);
      if v then Ok(true) else Found(items[1..], test)
  }

  /** On elements that do not raise, the loop finds an element iff there is
      one. */
  lemma {:induction false} FoundExists<X>(items: seq<X>, test: X -> Result<bool>)
    requires forall k :: 0 <= k < |items| ==> test(items[k]).Ok?
    ensures Found(items, test) == Ok(exists k :: 0 <= k < |items| && test(items[k]) == Ok(true))
    decreases |items|
  {
    if items != [] {
      assert forall k :: 0 <= k < |items| - 1 ==> items[1..][k] == items[k + 1];
      FoundExists(items[1..], test);
      if test(items[0]) == Ok(false) {
        assert forall k :: 0 <= k < |items| && test(items[k]) == Ok(true) ==>
                 1 <= k && test(items[1..][k - 1]) == Ok(true);
      }
    }
  }

  /** An element meeting `test`, with no element before it raising, is found. */
  lemma {:induction false} FoundHit<X>(items: seq<X>, test: X -> Result<bool>, k: nat)
    requires k < |items| && test(items[k]) == Ok(true)
    requires forall j :: 0 <= j < k ==> test(items[j]).Ok?
    ensures Found(items, test) == Ok(true)
    decreases k
  {
    if k > 0 && test(items[0]) != Ok(true) {
      assert forall j :: 0 <= j < k - 1 ==> items[1..][j] == items[j + 1];
      FoundHit(items[1..], test, k - 1);
    }
  }

  /** The loop with its flag and `break`, proved to compute `Found`. */
  method FoundLoop<X>(items: seq<X>, test: X -> Result<bool>) returns (r: Result<bool>)
    ensures r == Found(items, test)
  {
    var found := false;
    var i := 0;
    while i < |items|
      invariant 0 <= i <= |items|
      invariant Found(items, test) == Found(items[i..], test)
    {
      var v := test(items[i]);
      if v.Raise? {
        return Raise(v.message);
      }
      if v.value {
        found := true;
        break;
      }
      assert items[i..][1..] == items[i + 1..];
      i := i + 1;
    }
    return Ok(found);
  }
}
