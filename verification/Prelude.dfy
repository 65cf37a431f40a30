/** Shared vocabulary: optional values and sums over table rows. */
module Prelude {

  datatype Option<+T> = None | Some(value: T)

  function Max(a: int, b: int): int { if a < b then b else a }

  function Min(a: int, b: int): int { if a < b then a else b }

  /** SUM(f) over a table, rows in creation order. */
  ghost function SumOf<T>(rows: seq<T>, f: T -> int): int {
    if rows == [] then 0 else SumOf(rows[..|rows| - 1], f) + f(rows[|rows| - 1])
  }

  lemma SumAppend<T>(rows: seq<T>, row: T, f: T -> int)
    ensures SumOf(rows + [row], f) == SumOf(rows, f) + f(row)
  {
    assert (rows + [row])[..|rows|] == rows;
  }

  lemma {:induction false} SumConcat<T>(xs: seq<T>, ys: seq<T>, f: T -> int)
    ensures SumOf(xs + ys, f) == SumOf(xs, f) + SumOf(ys, f)
  {
    if ys == [] {
      assert xs + ys == xs;
    } else {
      var init, last := ys[..|ys| - 1], ys[|ys| - 1];
      SumConcat(xs, init, f);
      assert xs + ys == (xs + init) + [last];
      SumAppend(xs + init, last, f);
    }
  }

  /** Two tables of the same length whose rows weigh the same have the same sum. */
  lemma {:induction false} SumPointwise<S, T>(xs: seq<S>, f: S -> int, ys: seq<T>, g: T -> int)
    requires |xs| == |ys|
    requires forall i :: 0 <= i < |xs| ==> f(xs[i]) == g(ys[i])
    ensures SumOf(xs, f) == SumOf(ys, g)
  {
    if xs != [] {
      SumPointwise(xs[..|xs| - 1], f, ys[..|ys| - 1], g);
    }
  }

  lemma {:induction false} SumUpdate<T>(rows: seq<T>, i: nat, row: T, f: T -> int)
    requires i < |rows|
    ensures SumOf(rows[i := row], f) == SumOf(rows, f) - f(rows[i]) + f(row)
  {
    var n := |rows| - 1;
    if i == n {
      assert rows[i := row][..n] == rows[..n];
    } else {
      assert rows[i := row][..n] == rows[..n][i := row];
      SumUpdate(rows[..n], i, row, f);
    }
  }

  lemma {:induction false} SumRemove<T>(rows: seq<T>, i: nat, f: T -> int)
    requires i < |rows|
    ensures SumOf(rows[..i] + rows[i + 1..], f) == SumOf(rows, f) - f(rows[i])
  {
    SumConcat(rows[..i], rows[i + 1..], f);
    SumAppend(rows[..i], rows[i], f);
    SumConcat(rows[..i] + [rows[i]], rows[i + 1..], f);
    assert (rows[..i] + [rows[i]]) + rows[i + 1..] == rows;
  }

  lemma {:induction false} SumBounds<T>(rows: seq<T>, f: T -> int, lo: int, hi: int)
    requires forall i :: 0 <= i < |rows| ==> lo <= f(rows[i]) <= hi
    ensures |rows| * lo <= SumOf(rows, f) <= |rows| * hi
  {
    if rows != [] {
      SumBounds(rows[..|rows| - 1], f, lo, hi);
      assert |rows| * lo == (|rows| - 1) * lo + lo;
      assert |rows| * hi == (|rows| - 1) * hi + hi;
    }
  }

  lemma {:induction false} SumNonNegative<T>(rows: seq<T>, f: T -> int)
    requires forall i :: 0 <= i < |rows| ==> 0 <= f(rows[i])
    ensures 0 <= SumOf(rows, f)
    ensures forall i :: 0 <= i < |rows| ==> f(rows[i]) <= SumOf(rows, f)
  {
    if rows != [] {
      SumNonNegative(rows[..|rows| - 1], f);
    }
  }

  lemma {:induction false} SumPositiveHasWitness<T>(rows: seq<T>, f: T -> int) returns (i: nat)
    requires 0 < SumOf(rows, f)
    ensures i < |rows| && 0 < f(rows[i])
  {
    var n := |rows| - 1;
    if 0 < f(rows[n]) {
      i := n;
    } else {
      i := SumPositiveHasWitness(rows[..n], f);
    }
  }

  /** Sum of f(0), ..., f(n - 1). */
  ghost function SumTo(n: nat, f: nat -> int): int {
    if n == 0 then 0 else SumTo(n - 1, f) + f(n - 1)
  }

  lemma {:induction false} SumToAdd(n: nat, f: nat -> int, g: nat -> int, h: nat -> int)
    requires forall i: nat :: i < n ==> f(i) == g(i) + h(i)
    ensures SumTo(n, f) == SumTo(n, g) + SumTo(n, h)
  {
    if n > 0 {
      SumToAdd(n - 1, f, g, h);
    }
  }

  lemma {:induction false} SumToSpike(n: nat, f: nat -> int, k: nat)
    requires forall i: nat :: i < n && i != k ==> f(i) == 0
    ensures SumTo(n, f) == if k < n then f(k) else 0
  {
    if n > 0 {
      SumToSpike(n - 1, f, k);
    }
  }
}
