/**
 The JavaScript idioms the configuration is written in: a value that is
 either present or the literal `false` (what `cond && value` evaluates to),
 `Array.prototype.filter`, and `.filter(Boolean)` over such values.
 */
module Js {

  /** A JavaScript value that is either `value` or the boolean `false`. */
  datatype OrFalse<T> = Is(value: T) | False

  /** `cond && v` for a truthy `v`: `v` when `cond` holds, `false` otherwise. */
  function When<T>(cond: bool, v: T): (r: OrFalse<T>)
    ensures r != False <==> cond
    ensures r != False ==> r.value == v
  {
    if cond then Is(v) else False
  }

  /** `xs.filter(p)`: the elements satisfying `p`, in their original order. */
  function Filter<T(!new)>(p: T -> bool, xs: seq<T>): (r: seq<T>)
    ensures |r| <= |xs|
    ensures forall x :: x in r <==> x in xs && p(x)
    ensures forall x :: multiset(r)[x] == if p(x) then multiset(xs)[x] else 0
  {
    if xs == [] then []
    else
      var rest := Filter(p, xs[1..]);
      assert xs == [xs[0]] + xs[1..];
      if p(xs[0]) then [xs[0]] + rest else rest
  }

  /** Filtering a concatenation filters each part and keeps their order. */
  lemma {:induction false} FilterAppend<T(!new)>(p: T -> bool, a: seq<T>, b: seq<T>)
    ensures Filter(p, a + b) == Filter(p, a) + Filter(p, b)
  {
    if a == [] {
      assert a + b == b;
    } else {
      assert (a + b)[1..] == a[1..] + b;
      FilterAppend(p, a[1..], b);
    }
  }

  /** `xs.filter(Boolean)` over values that are objects or `false`:
      every object is truthy, so exactly the `false` slots are dropped. */
  function Truthy<T(!new)>(xs: seq<OrFalse<T>>): (r: seq<T>)
    ensures |r| <= |xs|
    ensures forall v {:trigger v in r} :: v in r <==> Is(v) in xs
    ensures |r| == |xs| <==> False !in xs
  {
    if xs == [] then []
    else
      var rest := Truthy(xs[1..]);
      assert xs == [xs[0]] + xs[1..];
      match xs[0]
      case Is(v) => [v] + rest
      case False => rest
  }

  /** `.filter(Boolean)` keeps the order of the slots it keeps. */
  lemma {:induction false} TruthyAppend<T(!new)>(a: seq<OrFalse<T>>, b: seq<OrFalse<T>>)
    ensures Truthy(a + b) == Truthy(a) + Truthy(b)
  {
    if a == [] {
      assert a + b == b;
    } else {
      assert (a + b)[1..] == a[1..] + b;
      TruthyAppend(a[1..], b);
    }
  }
}
