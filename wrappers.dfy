/** Option and Result, the two wrappers used across the model for Python's
    `None` and for exceptions that a caller catches, and the filtering of a
    list through a partial conversion. */
module Wrappers {

  datatype Option<+T> = None | Some(value: T) {
    function GetOr(default: T): T {
      match this
      case Some(v) => v
      case None => default
    }
  }

  datatype Result<+T, +E> = Ok(value: T) | Err(error: E)

  /** The values `f` gives, in order, leaving out the elements it refuses. */
  function Kept<X, Y>(xs: seq<X>, f: X -> Option<Y>): (ys: seq<Y>)
    ensures |ys| <= |xs|
  {
    if xs == [] then []
    else
      var before := Kept(xs[..|xs| - 1], f);
      match f(xs[|xs| - 1])
      case None => before
      case Some(y) => before + [y]
  }

  /** Filtering works element by element, so it keeps the input order. */
  lemma {:induction false} KeptAppend<X, Y>(a: seq<X>, b: seq<X>, f: X -> Option<Y>)
    ensures Kept(a + b, f) == Kept(a, f) + Kept(b, f)
    decreases |b|
  {
    if b == [] {
      assert a + b == a;
    } else {
      var b' := b[..|b| - 1];
      KeptAppend(a, b', f);
      assert (a + b)[..|a + b| - 1] == a + b';
    }
  }

  /** Every value kept is one `f` gave for some element. */
  lemma {:induction false} KeptFrom<X, Y>(xs: seq<X>, f: X -> Option<Y>, i: nat)
    requires i < |Kept(xs, f)|
    ensures exists k :: 0 <= k < |xs| && f(xs[k]) == Some(Kept(xs, f)[i])
  {
    var init := xs[..|xs| - 1];
    var before := Kept(init, f);
    if i < |before| {
      KeptFrom(init, f, i);
      var k :| 0 <= k < |init| && f(init[k]) == Some(before[i]);
      assert xs[k] == init[k];
    } else {
      assert f(xs[|xs| - 1]) == Some(Kept(xs, f)[i]);
    }
  }

  /** The loop `for x in xs: y = f(x); if y: ys.append(y)`. */
  method KeepEach<X, Y>(xs: seq<X>, f: X -> Option<Y>) returns (ys: seq<Y>)
    ensures ys == Kept(xs, f)
  {
    ys := [];
    for i := 0 to |xs|
      invariant ys == Kept(xs[..i], f)
    {
      assert xs[..i + 1][..i] == xs[..i];
      var y := f(xs[i]);
      if y.Some? {
        ys := ys + [y.value];
      }
    }
    assert xs[..|xs|] == xs;
  }

  /** The lists `f` gives for the elements, one after the other. */
  function Concat<X, Y>(xs: seq<X>, f: X -> seq<Y>): seq<Y> {
    if xs == [] then [] else Concat(xs[..|xs| - 1], f) + f(xs[|xs| - 1])
  }

  /** Every value comes from the list of some element. */
  lemma {:induction false} ConcatFrom<X, Y>(xs: seq<X>, f: X -> seq<Y>, i: nat)
    requires i < |Concat(xs, f)|
    ensures exists k :: 0 <= k < |xs| && Concat(xs, f)[i] in f(xs[k])
  {
    var init := xs[..|xs| - 1];
    var before := Concat(init, f);
    if i < |before| {
      ConcatFrom(init, f, i);
      var k :| 0 <= k < |init| && before[i] in f(init[k]);
      assert xs[k] == init[k];
    } else {
      assert Concat(xs, f)[i] == f(xs[|xs| - 1])[i - |before|];
    }
  }

  /** Three elements' lists follow one another in their order. */
  lemma ConcatOfThree<X, Y>(a: X, b: X, c: X, f: X -> seq<Y>)
    ensures Concat([a, b, c], f) == f(a) + f(b) + f(c)
  {
    assert Concat([a], f) == f(a) by {
      assert [a][..0] == [];
      assert [] + f(a) == f(a);
    }
    assert Concat([a, b], f) == f(a) + f(b) by {
      assert [a, b][..1] == [a];
    }
    assert [a, b, c][..2] == [a, b];
  }

  /** `any(p(x) for x in xs)`, stopping at the first element that holds. */
  method AnyOf<X>(xs: seq<X>, p: X -> bool) returns (found: bool)
    ensures found <==> exists k :: 0 <= k < |xs| && p(xs[k])
  {
    for i := 0 to |xs|
      invariant forall k :: 0 <= k < i ==> !p(xs[k])
    {
      if p(xs[i]) {
        return true;
      }
    }
    return false;
  }
}
