/** Datatypes and sequence functions shared by the models. */
module Basics {

  datatype Option<+T> = None | Some(value: T)

  /** The elements of xs that satisfy p, in order. */
  function Select<T>(p: T -> bool, xs: seq<T>): seq<T> {
    if xs == [] then []
    else Select(p, xs[..|xs| - 1]) + (if p(xs[|xs| - 1]) then [xs[|xs| - 1]] else [])
  }

  lemma {:induction false} SelectMembers<T>(p: T -> bool, xs: seq<T>, x: T)
    ensures x in Select(p, xs) <==> x in xs && p(x)
    ensures |Select(p, xs)| <= |xs|
  {
    if xs != [] {
      SelectMembers(p, xs[..|xs| - 1], x);
      assert xs == xs[..|xs| - 1] + [xs[|xs| - 1]];
    }
  }

  lemma {:induction false} SelectConcat<T>(p: T -> bool, xs: seq<T>, ys: seq<T>)
    ensures Select(p, xs + ys) == Select(p, xs) + Select(p, ys)
  {
    if ys == [] {
      assert xs + ys == xs;
    } else {
      assert (xs + ys)[..|xs + ys| - 1] == xs + ys[..|ys| - 1];
      SelectConcat(p, xs, ys[..|ys| - 1]);
    }
  }

  lemma {:induction false} SelectNone<T>(p: T -> bool, xs: seq<T>)
    requires forall j :: 0 <= j < |xs| ==> !p(xs[j])
    ensures Select(p, xs) == []
  {
    if xs != [] {
      SelectNone(p, xs[..|xs| - 1]);
    }
  }

  lemma SelectSnoc<T>(p: T -> bool, xs: seq<T>, x: T)
    ensures Select(p, xs + [x]) == if p(x) then Select(p, xs) + [x] else Select(p, xs)
  {
    assert (xs + [x])[..|xs + [x]| - 1] == xs;
  }

  lemma Associative<T>(xs: seq<T>, ys: seq<T>, zs: seq<T>)
    ensures (xs + ys) + zs == xs + (ys + zs)
  {
  }

  lemma SplitAt<T>(xs: seq<T>, k: nat)
    requires k < |xs|
    ensures xs == xs[..k] + [xs[k]] + xs[k + 1..]
  {
  }

  lemma SelectSplit<T>(p: T -> bool, before: seq<T>, x: T, after: seq<T>)
    ensures Select(p, before + [x] + after) ==
            (if p(x) then Select(p, before) + [x] else Select(p, before)) + Select(p, after)
  {
    SelectConcat(p, before + [x], after);
    SelectSnoc(p, before, x);
  }

  /** Taking out an element that is not selected changes no selection. */
  lemma SelectSkip<T>(p: T -> bool, xs: seq<T>, k: nat)
    requires k < |xs| && !p(xs[k])
    ensures Select(p, xs[..k] + xs[k + 1..]) == Select(p, xs)
  {
    SplitAt(xs, k);
    SelectSplit(p, xs[..k], xs[k], xs[k + 1..]);
    SelectConcat(p, xs[..k], xs[k + 1..]);
  }

  /** Taking out the first selected element removes the front of the selection. */
  lemma SelectFirst<T>(p: T -> bool, before: seq<T>, x: T, after: seq<T>)
    requires p(x) && Select(p, before) == []
    ensures Select(p, before + [x] + after) == [x] + Select(p, before + after)
  {
    SelectSplit(p, before, x, after);
    SelectConcat(p, before, after);
    assert [] + [x] == [x] && [] + Select(p, after) == Select(p, after);
  }

  function Sum<T>(f: T -> nat, xs: seq<T>): nat {
    if xs == [] then 0 else Sum(f, xs[..|xs| - 1]) + f(xs[|xs| - 1])
  }

  lemma {:induction false} SumConcat<T>(f: T -> nat, xs: seq<T>, ys: seq<T>)
    ensures Sum(f, xs + ys) == Sum(f, xs) + Sum(f, ys)
  {
    if ys == [] {
      assert xs + ys == xs;
    } else {
      assert (xs + ys)[..|xs + ys| - 1] == xs + ys[..|ys| - 1];
      SumConcat(f, xs, ys[..|ys| - 1]);
    }
  }

  lemma SumSnoc<T>(f: T -> nat, xs: seq<T>, x: T)
    ensures Sum(f, xs + [x]) == Sum(f, xs) + f(x)
  {
    assert (xs + [x])[..|xs + [x]| - 1] == xs;
  }

  lemma SumSplit<T>(f: T -> nat, xs: seq<T>, k: nat)
    requires k < |xs|
    ensures Sum(f, xs) == Sum(f, xs[..k]) + f(xs[k]) + Sum(f, xs[k + 1..])
    ensures Sum(f, xs[..k] + xs[k + 1..]) == Sum(f, xs) - f(xs[k])
    ensures Sum(f, xs) >= f(xs[k])
  {
    SplitAt(xs, k);
    SumConcat(f, xs[..k] + [xs[k]], xs[k + 1..]);
    SumConcat(f, xs[..k], xs[k + 1..]);
    SumSnoc(f, xs[..k], xs[k]);
  }

  /** Replacing element k changes a sum by the difference of that element's weights. */
  lemma SumUpdate<T>(f: T -> nat, xs: seq<T>, k: nat, y: T)
    requires k < |xs|
    ensures Sum(f, xs[k := y]) == Sum(f, xs) - f(xs[k]) + f(y)
  {
    SumSplit(f, xs, k);
    SumSplit(f, xs[k := y], k);
    assert xs[k := y][..k] == xs[..k] && xs[k := y][k + 1..] == xs[k + 1..];
  }

  lemma {:induction false} SumZero<T>(f: T -> nat, xs: seq<T>)
    ensures Sum(f, xs) == 0 <==> forall k :: 0 <= k < |xs| ==> f(xs[k]) == 0
  {
    if xs != [] {
      SumZero(f, xs[..|xs| - 1]);
      assert forall k :: 0 <= k < |xs| - 1 ==> xs[k] == xs[..|xs| - 1][k];
    }
  }

  ghost predicate NoDuplicates<T>(xs: seq<T>) {
    forall i, j :: 0 <= i < j < |xs| ==> xs[i] != xs[j]
  }

  function Elements<T(==)>(xs: seq<T>): set<T> {
    set x | x in xs
  }

  lemma {:induction false} ElementsBound<T>(xs: seq<T>)
    ensures |Elements(xs)| <= |xs|
    ensures NoDuplicates(xs) ==> |Elements(xs)| == |xs|
  {
    if xs != [] {
      var init, last := xs[..|xs| - 1], xs[|xs| - 1];
      ElementsBound(init);
      assert Elements(xs) == Elements(init) + {last};
    }
  }

  lemma SubsetBound<T>(xs: set<T>, ys: set<T>)
    requires xs <= ys
    ensures |xs| <= |ys|
    decreases xs
  {
    if xs != {} {
      var x :| x in xs;
      SubsetBound(xs - {x}, ys - {x});
    }
  }
}
