/**
 * Reductions shared by the analyzers and scanners: filter-and-map of a list
 * (the `for ...: if ...: results.append(...)` loops), sums, the
 * `x / max(1, n)` guard, weighted means of sub-scores, and the
 * `sort(key=..., reverse=True)` followed by `[:10]` that every "worst
 * offenders" list goes through.
 */
module Stats {
  import opened Text

  /** The list built by appending `f(x).value` for each `x` in order where `f(x)` is `Some`. */
  function Collect<T, U>(xs: seq<T>, f: T -> Option<U>): seq<U> {
    if xs == [] then []
    else
      var last := f(xs[|xs| - 1]);
      Collect(xs[..|xs| - 1], f) + (if last.Some? then [last.value] else [])
  }

  /** The loop that appends in order builds exactly `Collect`, one element at a time. */
  lemma CollectStep<T, U>(xs: seq<T>, i: nat, f: T -> Option<U>)
    requires i < |xs|
    ensures Collect(xs[..i + 1], f) ==
            Collect(xs[..i], f) + (if f(xs[i]).Some? then [f(xs[i]).value] else [])
  {
    assert xs[..i + 1][..i] == xs[..i];
  }

  /** Collecting never produces more entries than there are inputs. */
  lemma {:induction false} CollectLength<T, U>(xs: seq<T>, f: T -> Option<U>)
    ensures |Collect(xs, f)| <= |xs|
  {
    if xs != [] {
      CollectLength(xs[..|xs| - 1], f);
    }
  }

  /** Every collected entry is the image of some input. */
  lemma {:induction false} CollectFrom<T, U>(xs: seq<T>, f: T -> Option<U>, k: nat)
    requires k < |Collect(xs, f)|
    ensures exists i :: 0 <= i < |xs| && f(xs[i]) == Some(Collect(xs, f)[k])
  {
    var init := xs[..|xs| - 1];
    if k < |Collect(init, f)| {
      CollectFrom(init, f, k);
      var i :| 0 <= i < |init| && f(init[i]) == Some(Collect(init, f)[k]);
      assert xs[i] == init[i];
    } else {
      assert f(xs[|xs| - 1]) == Some(Collect(xs, f)[k]);
    }
  }

  /** Every input that `f` maps to a value contributes that value. */
  lemma {:induction false} CollectTo<T, U>(xs: seq<T>, f: T -> Option<U>, i: nat)
    requires i < |xs| && f(xs[i]).Some?
    ensures f(xs[i]).value in Collect(xs, f)
  {
    var init := xs[..|xs| - 1];
    if i < |xs| - 1 {
      assert init[i] == xs[i];
      CollectTo(init, f, i);
    }
  }

  /** Collecting a concatenation collects each part. */
  lemma {:induction false} CollectAppend<T, U>(xs: seq<T>, ys: seq<T>, f: T -> Option<U>)
    ensures Collect(xs + ys, f) == Collect(xs, f) + Collect(ys, f)
    decreases |ys|
  {
    if ys == [] {
      assert xs + ys == xs;
    } else {
      var init := ys[..|ys| - 1];
      assert (xs + ys)[..|xs + ys| - 1] == xs + init;
      CollectAppend(xs, init, f);
    }
  }

  /** `sum(f(x) for x in xs)` over integers. */
  function Sum<T>(xs: seq<T>, f: T -> int): int {
    if xs == [] then 0 else Sum(xs[..|xs| - 1], f) + f(xs[|xs| - 1])
  }

  lemma SumStep<T>(xs: seq<T>, i: nat, f: T -> int)
    requires i < |xs|
    ensures Sum(xs[..i + 1], f) == Sum(xs[..i], f) + f(xs[i])
  {
    assert xs[..i + 1][..i] == xs[..i];
  }

  /** A running total extended by the next term is the total of one more element. */
  lemma SumNext<T>(xs: seq<T>, i: nat, f: T -> int, total: int, term: int)
    requires i < |xs| && total == Sum(xs[..i], f) && term == f(xs[i])
    ensures total + term == Sum(xs[..i + 1], f)
  {
    SumStep(xs, i, f);
  }

  /** An integer sum of terms each in [lo, hi] lies in [lo * n, hi * n]. */
  lemma {:induction false} SumBounds<T>(xs: seq<T>, f: T -> int, lo: int, hi: int)
    requires forall i :: 0 <= i < |xs| ==> lo <= f(xs[i]) <= hi
    ensures lo * |xs| <= Sum(xs, f) <= hi * |xs|
  {
    if xs != [] {
      SumBounds(xs[..|xs| - 1], f, lo, hi);
      assert lo <= f(xs[|xs| - 1]) <= hi;
    }
  }

  /** A sum of terms each at least lo is at least lo * n. */
  lemma {:induction false} SumAtLeast<T>(xs: seq<T>, f: T -> int, lo: int)
    requires forall i :: 0 <= i < |xs| ==> lo <= f(xs[i])
    ensures lo * |xs| <= Sum(xs, f)
  {
    if xs != [] {
      SumAtLeast(xs[..|xs| - 1], f, lo);
      assert lo <= f(xs[|xs| - 1]);
    }
  }

  /** `sum(f(x) for x in xs)` over reals. */
  function SumReal<T>(xs: seq<T>, f: T -> real): real {
    if xs == [] then 0.0 else SumReal(xs[..|xs| - 1], f) + f(xs[|xs| - 1])
  }

  lemma SumRealStep<T>(xs: seq<T>, i: nat, f: T -> real)
    requires i < |xs|
    ensures SumReal(xs[..i + 1], f) == SumReal(xs[..i], f) + f(xs[i])
  {
    assert xs[..i + 1][..i] == xs[..i];
  }

  /** A real sum of terms each in [lo, hi] lies in [lo * n, hi * n]. */
  lemma {:induction false} SumRealBounds<T>(xs: seq<T>, f: T -> real, lo: real, hi: real)
    requires forall i :: 0 <= i < |xs| ==> lo <= f(xs[i]) <= hi
    ensures lo * |xs| as real <= SumReal(xs, f) <= hi * |xs| as real
  {
    if xs != [] {
      SumRealBounds(xs[..|xs| - 1], f, lo, hi);
      assert f(xs[|xs| - 1]) >= lo;
    }
  }

  /** A real sum of terms each at least lo is at least lo * n. */
  lemma {:induction false} SumRealAtLeast<T>(xs: seq<T>, f: T -> real, lo: real)
    requires forall i :: 0 <= i < |xs| ==> lo <= f(xs[i])
    ensures lo * |xs| as real <= SumReal(xs, f)
  {
    if xs != [] {
      SumRealAtLeast(xs[..|xs| - 1], f, lo);
      assert f(xs[|xs| - 1]) >= lo;
    }
  }

  /** Python's `max(1, n)`. */
  function AtLeastOne(n: int): (r: int)
    ensures r >= 1 && r >= n
    ensures n >= 1 ==> r == n
  {
    if n < 1 then 1 else n
  }

  /** With at least one item, the shares add back up to `x`. */
  lemma RatioTimes(x: real, n: int)
    requires n >= 1
    ensures Ratio(x, n) * n as real == x
  {
  }

  /** `x / max(1, n)`: the per-item share of `x`, never a division by zero. */
  function Ratio(x: real, n: int): (r: real)
    ensures n < 1 ==> r == x
    ensures 0.0 <= x <= n as real ==> 0.0 <= r <= 1.0
    ensures x >= 0.0 ==> r >= 0.0
  {
    var d := AtLeastOne(n) as real;
    var r := x / d;
    assert r * d == x;
    assert 0.0 <= x <= n as real ==> r <= 1.0 by {
      if 0.0 <= x <= n as real { QuotientBetween(x, d, 0.0, 1.0); }
    }
    r
  }

  /** The share of `n` equal parts of `c` is `c`. */
  lemma RatioOfMultiple(c: real, n: int)
    requires n >= 1
    ensures Ratio(c * n as real, n) == c
  {
    var d := n as real;
    assert AtLeastOne(n) as real == d;
    assert (c * d) / d == c;
  }

  /** A share of `x` over `n >= 1` parts is at least `c` when `x` is at least `c * n`. */
  lemma RatioAtLeast(x: real, n: int, c: real)
    requires n >= 1 && x >= c * n as real
    ensures Ratio(x, n) >= c
  {
    var d := n as real;
    var r := Ratio(x, n);
    assert r * d == x;
    if r < c {
      assert (c - r) * d > 0.0;
    }
  }

  /** The mean of `n` values in [0, 1] is in [0, 1]. */
  lemma SumRealRatioInRange(total: real, n: int)
    requires 0.0 <= total <= n as real
    ensures 0.0 <= Ratio(total, n) <= 1.0
  {
  }

  function Min2(a: real, b: real): real { if a <= b then a else b }

  function Max2(a: real, b: real): real { if a <= b then b else a }

  lemma ScaleBetween(x: real, w: real, lo: real, hi: real)
    requires w >= 0.0 && lo <= x <= hi
    ensures lo * w <= x * w <= hi * w
  {
    assert (x - lo) * w >= 0.0;
    assert (hi - x) * w >= 0.0;
  }

  lemma QuotientBetween(d: real, t: real, lo: real, hi: real)
    requires t > 0.0 && lo * t <= d <= hi * t
    ensures lo <= d / t <= hi
  {
    var q := d / t;
    assert q * t == d;
  }

  /** Weighting one value twice and dividing by the total weight gives the value back. */
  lemma MeanOfSame(a: real, b: real, wa: real, wb: real)
    requires a == b && wa + wb != 0.0
    ensures (a * wa + b * wb) / (wa + wb) == a
  {
    var t := wa + wb;
    var q := (a * wa + b * wb) / t;
    assert q * t == a * wa + a * wb;
    assert (q - a) * t == 0.0;
  }

  /** Termwise inequalities add up (stated over plain variables, so that products stay opaque). */
  lemma AddLe4(x1: real, y1: real, x2: real, y2: real, x3: real, y3: real, x4: real, y4: real)
    requires x1 <= y1 && x2 <= y2 && x3 <= y3 && x4 <= y4
    ensures x1 + x2 + x3 + x4 <= y1 + y2 + y3 + y4
  {
  }

  /**
   * `(a * wa + b * wb) / (wa + wb)`: with non-negative weights it lies
   * between the two values.
   */
  function WeightedMean2(a: real, wa: real, b: real, wb: real): (r: real)
    requires wa + wb != 0.0
    ensures wa >= 0.0 && wb >= 0.0 ==> Min2(a, b) <= r <= Max2(a, b)
    ensures a == b ==> r == a
  {
    var r := (a * wa + b * wb) / (wa + wb);
    assert a == b ==> r == a by {
      if a == b { MeanOfSame(a, b, wa, wb); }
    }
    assert wa >= 0.0 && wb >= 0.0 ==> Min2(a, b) <= r <= Max2(a, b) by {
      if wa >= 0.0 && wb >= 0.0 {
        var lo, hi := Min2(a, b), Max2(a, b);
        ScaleBetween(a, wa, lo, hi);
        ScaleBetween(b, wb, lo, hi);
        QuotientBetween(a * wa + b * wb, wa + wb, lo, hi);
      }
    }
    r
  }

  /** Lower bound of four values. */
  function Min4(a: real, b: real, c: real, d: real): real { Min2(Min2(a, b), Min2(c, d)) }

  /** Upper bound of four values. */
  function Max4(a: real, b: real, c: real, d: real): real { Max2(Max2(a, b), Max2(c, d)) }

  lemma WeightedSum4Between(a: real, wa: real, b: real, wb: real, c: real, wc: real, d: real, wd: real, lo: real, hi: real)
    requires wa >= 0.0 && wb >= 0.0 && wc >= 0.0 && wd >= 0.0
    requires lo <= a <= hi && lo <= b <= hi && lo <= c <= hi && lo <= d <= hi
    ensures lo * (wa + wb + wc + wd) <= a * wa + b * wb + c * wc + d * wd <= hi * (wa + wb + wc + wd)
  {
    ScaleBetween(a, wa, lo, hi);
    ScaleBetween(b, wb, lo, hi);
    ScaleBetween(c, wc, lo, hi);
    ScaleBetween(d, wd, lo, hi);
    AddLe4(lo * wa, a * wa, lo * wb, b * wb, lo * wc, c * wc, lo * wd, d * wd);
    AddLe4(a * wa, hi * wa, b * wb, hi * wb, c * wc, hi * wc, d * wd, hi * wd);
    assert lo * (wa + wb + wc + wd) == lo * wa + lo * wb + lo * wc + lo * wd;
    assert hi * (wa + wb + wc + wd) == hi * wa + hi * wb + hi * wc + hi * wd;
  }

  /**
   * `(a * wa + b * wb + c * wc + d * wd) / (wa + wb + wc + wd)`: with
   * non-negative weights it lies between the smallest and largest value.
   */
  function WeightedMean4(a: real, wa: real, b: real, wb: real, c: real, wc: real, d: real, wd: real): (r: real)
    requires wa + wb + wc + wd != 0.0
    ensures wa >= 0.0 && wb >= 0.0 && wc >= 0.0 && wd >= 0.0 ==> Min4(a, b, c, d) <= r <= Max4(a, b, c, d)
  {
    var r := (a * wa + b * wb + c * wc + d * wd) / (wa + wb + wc + wd);
    assert wa >= 0.0 && wb >= 0.0 && wc >= 0.0 && wd >= 0.0 ==> Min4(a, b, c, d) <= r <= Max4(a, b, c, d) by {
      if wa >= 0.0 && wb >= 0.0 && wc >= 0.0 && wd >= 0.0 {
        var lo, hi := Min4(a, b, c, d), Max4(a, b, c, d);
        WeightedSum4Between(a, wa, b, wb, c, wc, d, wd, lo, hi);
        QuotientBetween(a * wa + b * wb + c * wc + d * wd, wa + wb + wc + wd, lo, hi);
      }
    }
    r
  }

  /** Ordered by non-increasing key, as `sort(key=key, reverse=True)` leaves a list. */
  ghost predicate SortedDesc<T>(xs: seq<T>, key: T -> real) {
    forall i, j :: 0 <= i < j < |xs| ==> key(xs[j]) <= key(xs[i])
  }

  /** Insert `x` before the first element whose key does not exceed its own. */
  function InsertDesc<T>(x: T, ys: seq<T>, key: T -> real): seq<T> {
    if ys == [] || key(ys[0]) <= key(x) then [x] + ys
    else [ys[0]] + InsertDesc(x, ys[1..], key)
  }

  /**
   * Python's stable `sorted(xs, key=key, reverse=True)`: an element that
   * comes earlier in `xs` is inserted in front of the later ones of equal key.
   */
  function SortDesc<T>(xs: seq<T>, key: T -> real): seq<T> {
    if xs == [] then [] else InsertDesc(xs[0], SortDesc(xs[1..], key), key)
  }

  lemma {:induction false} InsertDescPerm<T>(x: T, ys: seq<T>, key: T -> real)
    ensures multiset(InsertDesc(x, ys, key)) == multiset(ys) + multiset{x}
    ensures |InsertDesc(x, ys, key)| == |ys| + 1
    decreases |ys|
  {
    if ys != [] && key(x) < key(ys[0]) {
      InsertDescPerm(x, ys[1..], key);
      assert ys == [ys[0]] + ys[1..];
    }
  }

  /** Inserting a value keyed at most `b` into a list keyed at most `b` keeps every key at most `b`. */
  lemma {:induction false} InsertDescBounded<T>(x: T, ys: seq<T>, key: T -> real, b: real)
    requires key(x) <= b
    requires forall i :: 0 <= i < |ys| ==> key(ys[i]) <= b
    ensures forall i :: 0 <= i < |InsertDesc(x, ys, key)| ==> key(InsertDesc(x, ys, key)[i]) <= b
    decreases |ys|
  {
    if ys != [] && key(x) < key(ys[0]) {
      InsertDescBounded(x, ys[1..], key, b);
    }
  }

  lemma {:induction false} InsertDescSorted<T>(x: T, ys: seq<T>, key: T -> real)
    requires SortedDesc(ys, key)
    ensures SortedDesc(InsertDesc(x, ys, key), key)
    decreases |ys|
  {
    if ys != [] && key(x) < key(ys[0]) {
      var rest := InsertDesc(x, ys[1..], key);
      InsertDescSorted(x, ys[1..], key);
      InsertDescBounded(x, ys[1..], key, key(ys[0]));
      var r := [ys[0]] + rest;
      assert r == InsertDesc(x, ys, key);
      forall i, j | 0 <= i < j < |r| ensures key(r[j]) <= key(r[i]) {
        assert r[j] == rest[j - 1];
        if i > 0 { assert r[i] == rest[i - 1]; }
      }
    }
  }

  /** Sorting yields an ordered permutation of the input. */
  lemma SortDescProps<T>(xs: seq<T>, key: T -> real)
    ensures SortedDesc(SortDesc(xs, key), key)
    ensures multiset(SortDesc(xs, key)) == multiset(xs)
    ensures |SortDesc(xs, key)| == |xs|
  {
    SortDescPerm(xs, key);
    SortDescSorted(xs, key);
  }

  lemma {:induction false} SortDescPerm<T>(xs: seq<T>, key: T -> real)
    ensures multiset(SortDesc(xs, key)) == multiset(xs)
    ensures |SortDesc(xs, key)| == |xs|
  {
    if xs != [] {
      SortDescPerm(xs[1..], key);
      InsertDescPerm(xs[0], SortDesc(xs[1..], key), key);
      HeadAndTail(xs);
    }
  }

  lemma {:induction false} SortDescSorted<T>(xs: seq<T>, key: T -> real)
    ensures SortedDesc(SortDesc(xs, key), key)
  {
    if xs != [] {
      SortDescSorted(xs[1..], key);
      InsertDescSorted(xs[0], SortDesc(xs[1..], key), key);
    }
  }

  /** `xs[:n]` */
  function Top<T>(xs: seq<T>, n: nat): (r: seq<T>)
    ensures |r| == if |xs| < n then |xs| else n
    ensures r == xs[..|r|]
  {
    if |xs| < n then xs else xs[..n]
  }

  /**
   * `sorted(xs, key=key, reverse=True)[:n]`: at most `n` entries, ordered,
   * each taken from `xs`, and no left-out entry has a larger key than a kept one.
   */
  lemma TopOfSorted<T>(xs: seq<T>, key: T -> real, n: nat)
    ensures var r := Top(SortDesc(xs, key), n);
      && |r| == (if |xs| < n then |xs| else n)
      && SortedDesc(r, key)
      && multiset(r) <= multiset(xs)
      && forall i, j :: 0 <= i < |r| <= j < |SortDesc(xs, key)| ==> key(SortDesc(xs, key)[j]) <= key(r[i])
  {
    var s := SortDesc(xs, key);
    SortDescProps(xs, key);
    var r := Top(s, n);
    assert s == r + s[|r|..];
    assert multiset(s) == multiset(r) + multiset(s[|r|..]);
  }
}
