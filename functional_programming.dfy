/**
 * The functional-programming study file: the hand-written list combinators
 * `myFilter` and `myMap` (loops that append to a fresh `mutableListOf`), and
 * the function-valued helpers `double`, `getMultiplier`, `processNumbers`,
 * `add`/`curryAdd` and `compose`.
 *
 * A Kotlin `List` is an immutable value here, a `seq`; the `mutableListOf`
 * each combinator fills is a local `seq` it appends to.
 */
module FunctionalProgramming {
  import opened KotlinCore

  /** The elements of `xs` that satisfy `p`, in their order in `xs`. */
  function Filter<T>(xs: seq<T>, p: T -> bool): seq<T>
  {
    if xs == [] then []
    else Filter(xs[..|xs| - 1], p) + (if p(xs[|xs| - 1]) then [xs[|xs| - 1]] else [])
  }

  /** The indices of the elements of `xs` that satisfy `p`, ascending. */
  function KeptIndices<T>(xs: seq<T>, p: T -> bool): seq<nat>
  {
    if xs == [] then []
    else KeptIndices(xs[..|xs| - 1], p) + (if p(xs[|xs| - 1]) then [|xs| - 1] else [])
  }

  /** `f` applied to each element of `xs`, in order. */
  function Map<T, R>(xs: seq<T>, f: T -> R): seq<R>
  {
    seq(|xs|, i requires 0 <= i < |xs| => f(xs[i]))
  }

  /**
   * `xs.myFilter(test)`: a loop over `xs` that appends each element
   * satisfying `test` to a new list.
   */
  method MyFilter<T>(xs: seq<T>, test: T -> bool) returns (result: seq<T>)
    ensures result == Filter(xs, test)
  {
    result := [];
    for i := 0 to |xs|
      invariant result == Filter(xs[..i], test)
    {
      assert xs[..i + 1][..i] == xs[..i];
      if test(xs[i]) {
        result := result + [xs[i]];
      }
    }
    assert xs[..|xs|] == xs;
  }

  /** `xs.myMap(transform)`: a loop over `xs` that appends `transform(item)` to a new list. */
  method MyMap<T, R>(xs: seq<T>, transform: T -> R) returns (result: seq<R>)
    ensures |result| == |xs|
    ensures forall i :: 0 <= i < |xs| ==> result[i] == transform(xs[i])
    ensures result == Map(xs, transform)
  {
    result := [];
    for i := 0 to |xs|
      invariant |result| == i
      invariant forall k :: 0 <= k < i ==> result[k] == transform(xs[k])
    {
      result := result + [transform(xs[i])];
    }
  }

  /**
   * The filter keeps exactly the elements that satisfy the test and in
   * their original order: its result is `xs` read at the ascending indices
   * where `p` holds, and at no other index.
   */
  lemma {:induction false} FilterIsOrderedSelection<T>(xs: seq<T>, p: T -> bool)
    ensures |KeptIndices(xs, p)| == |Filter(xs, p)|
    ensures forall k :: 0 <= k < |KeptIndices(xs, p)| ==>
      KeptIndices(xs, p)[k] < |xs| && Filter(xs, p)[k] == xs[KeptIndices(xs, p)[k]]
    ensures forall k, l :: 0 <= k < l < |KeptIndices(xs, p)| ==>
      KeptIndices(xs, p)[k] < KeptIndices(xs, p)[l]
    ensures forall i :: 0 <= i < |xs| ==> (p(xs[i]) <==> i in KeptIndices(xs, p))
  {
    if xs != [] {
      var n := |xs| - 1;
      var init := xs[..n];
      FilterIsOrderedSelection(init, p);
      var ks, fs := KeptIndices(xs, p), Filter(xs, p);
      assert KeptIndices(init, p) == ks[..|KeptIndices(init, p)|];
      assert Filter(init, p) == fs[..|Filter(init, p)|];
      forall i | 0 <= i < |xs|
        ensures p(xs[i]) <==> i in ks
      {
        if i < n {
          assert xs[i] == init[i];
          assert n !in KeptIndices(init, p);
        }
      }
    }
  }

  /** The filter is no longer than its input, and everything it keeps satisfies `p`. */
  lemma {:induction false} FilterBounds<T>(xs: seq<T>, p: T -> bool)
    ensures |Filter(xs, p)| <= |xs|
    ensures forall k :: 0 <= k < |Filter(xs, p)| ==> p(Filter(xs, p)[k])
  {
    if xs != [] {
      FilterBounds(xs[..|xs| - 1], p);
    }
  }

  /** Each value occurs in the filter as often as in `xs` if it satisfies `p`, and never otherwise. */
  lemma {:induction false} FilterCounts<T>(xs: seq<T>, p: T -> bool)
    ensures forall x :: multiset(Filter(xs, p))[x] == if p(x) then multiset(xs)[x] else 0
  {
    if xs != [] {
      var n := |xs| - 1;
      FilterCounts(xs[..n], p);
      assert xs == xs[..n] + [xs[n]];
      assert multiset(xs) == multiset(xs[..n]) + multiset{xs[n]};
    }
  }

  /** A test that holds of every element keeps the whole list. */
  lemma {:induction false} FilterAllTrue<T>(xs: seq<T>, p: T -> bool)
    requires forall i :: 0 <= i < |xs| ==> p(xs[i])
    ensures Filter(xs, p) == xs
  {
    if xs != [] {
      var n := |xs| - 1;
      FilterAllTrue(xs[..n], p);
      assert xs == xs[..n] + [xs[n]];
    }
  }

  /** `double(x)`: `x * 2` as an `Int`. */
  function Double(x: Int32): (r: Int32)
    ensures IntMin <= 2 * x <= IntMax ==> r == 2 * x
    ensures (2 * x - r) % TwoTo32 == 0
  {
    WrappingMul(x, 2)
  }

  /** `getMultiplier(factor)`: the closure `{ it * factor }`. */
  function GetMultiplier(factor: Int32): (m: Int32 -> Int32)
    ensures forall x: Int32 :: IntMin <= x * factor <= IntMax ==> m(x) == x * factor
    ensures forall x: Int32 :: (x * factor - m(x)) % TwoTo32 == 0
  {
    x => WrappingMul(x, factor)
  }

  /**
   * The closure multiplies by `factor`; `getMultiplier(2)` is `double`, and
   * `getMultiplier(3)(5)` is 15.
   */
  lemma GetMultiplierMultiplies(factor: Int32, x: Int32)
    ensures IntMin <= x * factor <= IntMax ==> GetMultiplier(factor)(x) == x * factor
    ensures GetMultiplier(2)(x) == Double(x)
    ensures GetMultiplier(3)(5) == 15
  {
  }

  /** `processNumbers(numbers, test, transform)`: `numbers.filter(test).map(transform)`. */
  function ProcessNumbers(numbers: seq<Int32>, test: Int32 -> bool, transform: Int32 -> Int32): (r: seq<Int32>)
    ensures |r| <= |numbers|
  {
    FilterBounds(numbers, test);
    Map(Filter(numbers, test), transform)
  }

  /**
   * What `processNumbers` returns: no more elements than it was given, and
   * the transforms of exactly the numbers that satisfy the test, read at
   * strictly ascending indices, so in input order.
   */
  lemma {:induction false} ProcessNumbersSelects(numbers: seq<Int32>, test: Int32 -> bool, transform: Int32 -> Int32)
    ensures |ProcessNumbers(numbers, test, transform)| <= |numbers|
    ensures |ProcessNumbers(numbers, test, transform)| == |KeptIndices(numbers, test)|
    ensures forall k :: 0 <= k < |KeptIndices(numbers, test)| ==>
      && KeptIndices(numbers, test)[k] < |numbers|
      && test(numbers[KeptIndices(numbers, test)[k]])
      && ProcessNumbers(numbers, test, transform)[k]
         == transform(numbers[KeptIndices(numbers, test)[k]])
    ensures forall k, l :: 0 <= k < l < |KeptIndices(numbers, test)| ==>
      KeptIndices(numbers, test)[k] < KeptIndices(numbers, test)[l]
    ensures forall i :: 0 <= i < |numbers| ==> (test(numbers[i]) <==> i in KeptIndices(numbers, test))
  {
    FilterBounds(numbers, test);
    FilterIsOrderedSelection(numbers, test);
  }

  /** `numbers.myFilter { it > 5 }.myMap { it * 2 }`: the hand-written pipeline of `main`. */
  method FilterThenMap(numbers: seq<Int32>, test: Int32 -> bool, transform: Int32 -> Int32)
    returns (result: seq<Int32>)
    ensures result == ProcessNumbers(numbers, test, transform)
  {
    var kept := MyFilter(numbers, test);
    result := MyMap(kept, transform);
  }

  /** On `1..10`, keeping numbers above 5 and doubling them gives `[12, 14, 16, 18, 20]`. */
  lemma ProcessNumbersExample()
    ensures ProcessNumbers([1, 2, 3, 4, 5, 6, 7, 8, 9, 10], x => x > 5, x => WrappingMul(x, 2))
      == [12, 14, 16, 18, 20]
  {
    var ns: seq<Int32> := [1, 2, 3, 4, 5, 6, 7, 8, 9, 10];
    var above5: Int32 -> bool := x => x > 5;
    var twice: Int32 -> Int32 := x => WrappingMul(x, 2);
    assert ns[..0] == [];
    FilterSnoc(ns, 0, above5);
    assert Filter(ns[..1], above5) == [];
    FilterSnoc(ns, 1, above5);
    assert Filter(ns[..2], above5) == [];
    FilterSnoc(ns, 2, above5);
    assert Filter(ns[..3], above5) == [];
    FilterSnoc(ns, 3, above5);
    assert Filter(ns[..4], above5) == [];
    FilterSnoc(ns, 4, above5);
    assert Filter(ns[..5], above5) == [];
    FilterSnoc(ns, 5, above5);
    assert Filter(ns[..6], above5) == [6];
    FilterSnoc(ns, 6, above5);
    assert Filter(ns[..7], above5) == [6, 7];
    FilterSnoc(ns, 7, above5);
    assert Filter(ns[..8], above5) == [6, 7, 8];
    FilterSnoc(ns, 8, above5);
    assert Filter(ns[..9], above5) == [6, 7, 8, 9];
    FilterSnoc(ns, 9, above5);
    assert Filter(ns[..10], above5) == [6, 7, 8, 9, 10];
    assert ns[..10] == ns;
    var kept: seq<Int32> := [6, 7, 8, 9, 10];
    assert Map(kept, twice) == [12, 14, 16, 18, 20] by {
      assert |Map(kept, twice)| == 5;
      assert forall i :: 0 <= i < 5 ==> Map(kept, twice)[i] == 2 * kept[i];
    }
    assert ProcessNumbers(ns, above5, twice) == Map(kept, twice);
  }

  /** Filtering one more element of `xs` appends it when it passes the test. */
  lemma FilterSnoc<T>(xs: seq<T>, k: nat, p: T -> bool)
    requires k < |xs|
    ensures Filter(xs[..k + 1], p) == Filter(xs[..k], p) + if p(xs[k]) then [xs[k]] else []
  {
    assert xs[..k + 1][..k] == xs[..k];
  }

  /** `add(a, b, c)`: `a + b + c` on `Int`, each addition wrapping. */
  function Add(a: Int32, b: Int32, c: Int32): (r: Int32)
    ensures IntMin <= a + b + c <= IntMax ==> r == a + b + c
    ensures (a + b + c - r) % TwoTo32 == 0
  {
    var ab := WrappingAdd(a, b);
    WrapCongruent(ab + c, a + b + c);
    WrappingAdd(ab, c)
  }

  /** `curryAdd(a)`: `{ b -> { c -> add(a, b, c) } }`. */
  function CurryAdd(a: Int32): (add: Int32 -> Int32 -> Int32)
    ensures forall b: Int32, c: Int32 :: IntMin <= a + b + c <= IntMax ==> add(b)(c) == a + b + c
  {
    b => c => Add(a, b, c)
  }

  /** Applying the curried form one argument at a time is `add(a, b, c)`, which is `a + b + c` when it fits. */
  lemma CurryAddAgrees(a: Int32, b: Int32, c: Int32)
    ensures CurryAdd(a)(b)(c) == Add(a, b, c)
    ensures IntMin <= a + b + c <= IntMax ==> CurryAdd(a)(b)(c) == a + b + c
  {
  }

  /** `compose(f, g)`: `{ x -> f(g(x)) }`. */
  function Compose<A, B, C>(f: B -> C, g: A -> B): A -> C
  {
    x => f(g(x))
  }

  /** Composition applies `g` first; it is associative and has the identity as a unit. */
  lemma ComposeLaws<A, B, C, D>(f: C -> D, g: B -> C, h: A -> B, x: A)
    ensures Compose(g, h)(x) == g(h(x))
    ensures Compose(f, Compose(g, h))(x) == Compose(Compose(f, g), h)(x)
    ensures Compose((y: B) => y, h)(x) == h(x) && Compose(h, (y: A) => y)(x) == h(x)
  {
  }
}
