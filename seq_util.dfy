/** The array built-ins the pages use (`filter`, `includes`, "append unless
    present"), with the facts about them the model needs, and `Math.max`. */
module SeqUtil {

  /** `Math.max(a, b)`. */
  function Max(a: int, b: int): (m: int)
    ensures m >= a && m >= b && (m == a || m == b)
  {
    if a >= b then a else b
  }

  /** No element occurs twice. */
  predicate Distinct<T(==)>(xs: seq<T>) {
    forall i, j :: 0 <= i < j < |xs| ==> xs[i] != xs[j]
  }

  /** `xs.filter(y => y !== x)`. */
  function RemoveAll<T(==,!new)>(xs: seq<T>, x: T): (r: seq<T>)
    ensures x !in r
    ensures forall y :: y != x ==> (y in r <==> y in xs)
    ensures |r| <= |xs|
    ensures x !in xs ==> r == xs
  {
    if xs == [] then []
    else if xs[0] == x then RemoveAll(xs[1..], x)
    else [xs[0]] + RemoveAll(xs[1..], x)
  }

  /** A one-element sequence loses its element exactly when it is `x`. */
  lemma RemoveAllSingle<T(!new)>(y: T, x: T)
    ensures RemoveAll([y], x) == if y == x then [] else [y]
  {
    assert [y][1..] == [];
  }

  /** Filtering distributes over concatenation, so it keeps the other elements
      in their order: with `RemoveAllSingle` this fixes the result entirely. */
  lemma {:induction false} RemoveAllConcat<T(!new)>(a: seq<T>, b: seq<T>, x: T)
    ensures RemoveAll(a + b, x) == RemoveAll(a, x) + RemoveAll(b, x)
  {
    if a == [] {
      assert a + b == b;
    } else {
      assert (a + b)[0] == a[0];
      assert (a + b)[1..] == a[1..] + b;
      RemoveAllConcat(a[1..], b, x);
    }
  }

  /** Removing every `x` from `xs + [x]` is the same as removing it from `xs`. */
  lemma {:induction false} RemoveAllAppended<T(!new)>(xs: seq<T>, x: T)
    ensures RemoveAll(xs + [x], x) == RemoveAll(xs, x)
  {
    if xs == [] {
      assert RemoveAll([x], x) == RemoveAll([x][1..], x);
    } else {
      assert (xs + [x])[1..] == xs[1..] + [x];
      RemoveAllAppended(xs[1..], x);
    }
  }

  /** Filtering keeps a duplicate-free sequence duplicate-free. */
  lemma {:induction false} RemoveAllDistinct<T(!new)>(xs: seq<T>, x: T)
    requires Distinct(xs)
    ensures Distinct(RemoveAll(xs, x))
  {
    if xs != [] {
      RemoveAllDistinct(xs[1..], x);
      if xs[0] != x {
        assert xs[0] !in xs[1..];
        var r := RemoveAll(xs[1..], x);
        assert xs[0] !in r;
        assert RemoveAll(xs, x) == [xs[0]] + r;
      }
    }
  }

  /** `xs.includes(x) ? xs : [...xs, x]`. */
  function AppendIfAbsent<T(==,!new)>(xs: seq<T>, x: T): (r: seq<T>)
    ensures x in r
    ensures forall y :: y in r <==> y in xs || y == x
    ensures |xs| <= |r| <= |xs| + 1 && r[..|xs|] == xs
    ensures x in xs ==> r == xs
    ensures x !in xs ==> r == xs + [x]
  {
    if x in xs then xs else xs + [x]
  }

  /** Applying the rule a second time changes nothing. */
  lemma AppendIfAbsentIdempotent<T(!new)>(xs: seq<T>, x: T)
    ensures AppendIfAbsent(AppendIfAbsent(xs, x), x) == AppendIfAbsent(xs, x)
  {
  }

  /** The rule keeps a duplicate-free sequence duplicate-free. */
  lemma AppendIfAbsentDistinct<T(!new)>(xs: seq<T>, x: T)
    requires Distinct(xs)
    ensures Distinct(AppendIfAbsent(xs, x))
  {
  }

  /** The number of occurrences of `x` in `xs`. */
  function Count<T(==)>(xs: seq<T>, x: T): (n: nat)
    ensures n <= |xs|
    ensures n == 0 <==> x !in xs
  {
    if xs == [] then 0
    else (if xs[0] == x then 1 else 0) + Count(xs[1..], x)
  }

  /** Appending one element adds one occurrence of it and none of anything else. */
  lemma {:induction false} CountAppend<T(!new)>(xs: seq<T>, y: T, x: T)
    ensures Count(xs + [y], x) == Count(xs, x) + (if y == x then 1 else 0)
  {
    if xs == [] {
      assert [y][1..] == [];
    } else {
      assert (xs + [y])[1..] == xs[1..] + [y];
      CountAppend(xs[1..], y, x);
    }
  }

  /** Filtering removes exactly the occurrences of `x`. */
  lemma {:induction false} RemoveAllLength<T(!new)>(xs: seq<T>, x: T)
    ensures |RemoveAll(xs, x)| + Count(xs, x) == |xs|
  {
    if xs != [] {
      RemoveAllLength(xs[1..], x);
    }
  }

  /** A duplicate-free sequence holds each value at most once. */
  lemma {:induction false} DistinctCount<T(!new)>(xs: seq<T>, x: T)
    requires Distinct(xs)
    ensures Count(xs, x) <= 1
  {
    if xs != [] {
      DistinctCount(xs[1..], x);
      if xs[0] == x {
        assert x !in xs[1..];
      }
    }
  }

  /** Pigeonhole: a duplicate-free sequence of values in [0, n) has at most n elements. */
  lemma {:induction false} DistinctBelowBound(xs: seq<int>, n: nat)
    requires Distinct(xs)
    requires forall y :: y in xs ==> 0 <= y < n
    ensures |xs| <= n
    decreases n
  {
    if n == 0 {
      assert xs == [] by {
        assert forall i :: 0 <= i < |xs| ==> xs[i] in xs;
      }
    } else {
      var ys := RemoveAll(xs, n - 1);
      RemoveAllDistinct(xs, n - 1);
      RemoveAllLength(xs, n - 1);
      DistinctCount(xs, n - 1);
      forall y | y in ys ensures 0 <= y < n - 1 {
        assert y != n - 1 && y in xs;
      }
      DistinctBelowBound(ys, n - 1);
      assert |ys| + 1 >= |xs|;
    }
  }
}
