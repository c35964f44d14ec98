/** A frame is a sequence of rows. This module holds the row-level operations
    both dashboards apply to their frames: boolean masks, column extraction,
    column sums and the distinct values of a column. */
module Frames {

  /** `a` is `b` with zero or more rows left out and the rest in their order. */
  ghost predicate IsSubsequence<T>(a: seq<T>, b: seq<T>)
    decreases |b|
  {
    if b == [] then a == []
    else (a != [] && a[0] == b[0] && IsSubsequence(a[1..], b[1..])) || IsSubsequence(a, b[1..])
  }

  /** Number of times `x` occurs in `xs`. */
  function Occurrences<T(==)>(xs: seq<T>, x: T): (n: nat)
    ensures n <= |xs|
    ensures n > 0 <==> x in xs
  {
    if xs == [] then 0
    else (if xs[0] == x then 1 else 0) + Occurrences(xs[1..], x)
  }

  /** No value occurs twice. */
  predicate NoDuplicates<T(==)>(xs: seq<T>) {
    forall i, j :: 0 <= i < j < |xs| ==> xs[i] != xs[j]
  }

  /** The rows of `rows` for which `p` holds, in their original order:
      the frame indexed by a boolean mask, `df[mask]`. */
  function Keep<T(!new)>(rows: seq<T>, p: T -> bool): (r: seq<T>)
    ensures |r| <= |rows|
    ensures forall x :: x in r <==> x in rows && p(x)
  {
    if rows == [] then []
    else if p(rows[0]) then [rows[0]] + Keep(rows[1..], p)
    else Keep(rows[1..], p)
  }

  lemma {:induction false} KeepIsSubsequence<T(!new)>(rows: seq<T>, p: T -> bool)
    ensures IsSubsequence(Keep(rows, p), rows)
  {
    if rows != [] {
      KeepIsSubsequence(rows[1..], p);
      var r := Keep(rows, p);
      if p(rows[0]) {
        assert r[1..] == Keep(rows[1..], p);
      }
    }
  }

  /** A mask keeps every copy of a row it admits and no copy of one it rejects;
      with IsSubsequence this determines the result. */
  lemma {:induction false} KeepOccurrences<T(!new)>(rows: seq<T>, p: T -> bool, x: T)
    ensures Occurrences(Keep(rows, p), x) == if p(x) then Occurrences(rows, x) else 0
  {
    if rows != [] {
      KeepOccurrences(rows[1..], p, x);
      if p(rows[0]) {
        assert Keep(rows, p)[1..] == Keep(rows[1..], p);
      }
    }
  }

  /** Every copy of a row the mask admits survives it, and no copy of a row
      it rejects. */
  lemma KeepCopies<T(!new)>(rows: seq<T>, p: T -> bool)
    ensures forall x :: Occurrences(Keep(rows, p), x) == if p(x) then Occurrences(rows, x) else 0
  {
    forall x ensures Occurrences(Keep(rows, p), x) == if p(x) then Occurrences(rows, x) else 0 {
      KeepOccurrences(rows, p, x);
    }
  }

  /** Two masks that agree on the rows give the same frame. */
  lemma {:induction false} KeepAgree<T(!new)>(rows: seq<T>, p: T -> bool, q: T -> bool)
    requires forall x :: x in rows ==> p(x) == q(x)
    ensures Keep(rows, p) == Keep(rows, q)
  {
    if rows != [] {
      KeepAgree(rows[1..], p, q);
    }
  }

  /** Applying mask `q` to the frame mask `p` produced is one mask `both`
      that admits exactly the rows both admit. */
  lemma {:induction false} KeepThenKeep<T(!new)>(rows: seq<T>, p: T -> bool, q: T -> bool, both: T -> bool)
    requires forall x :: x in rows ==> both(x) == (p(x) && q(x))
    ensures Keep(Keep(rows, p), q) == Keep(rows, both)
  {
    if rows != [] {
      KeepThenKeep(rows[1..], p, q, both);
    }
  }

  /** A mask that admits every row leaves the frame unchanged. */
  lemma {:induction false} KeepEverything<T(!new)>(rows: seq<T>, p: T -> bool)
    requires forall x :: x in rows ==> p(x)
    ensures Keep(rows, p) == rows
  {
    if rows != [] {
      KeepEverything(rows[1..], p);
    }
  }

  /** A mask that admits no row leaves an empty frame. */
  lemma {:induction false} KeepNothing<T(!new)>(rows: seq<T>, p: T -> bool)
    requires forall x :: x in rows ==> !p(x)
    ensures Keep(rows, p) == []
  {
    if rows != [] {
      KeepNothing(rows[1..], p);
    }
  }

  /** A mask keeps all the rows exactly when it admits all of them. */
  lemma {:induction false} KeepAllIff<T(!new)>(rows: seq<T>, p: T -> bool)
    ensures |Keep(rows, p)| == |rows| <==> forall x :: x in rows ==> p(x)
  {
    if rows != [] {
      KeepAllIff(rows[1..], p);
      if !p(rows[0]) {
        assert |Keep(rows, p)| <= |rows[1..]|;
      }
    }
  }

  /** The column `f` of a frame: `df[f]`. */
  function Column<T, V>(rows: seq<T>, f: T -> V): (c: seq<V>)
    ensures |c| == |rows|
    ensures forall i :: 0 <= i < |rows| ==> c[i] == f(rows[i])
  {
    if rows == [] then [] else [f(rows[0])] + Column(rows[1..], f)
  }

  /** The sum of column `f`: `df[f].sum()`, which is 0 on an empty frame. */
  function SumOf<T>(rows: seq<T>, f: T -> int): int {
    if rows == [] then 0 else f(rows[0]) + SumOf(rows[1..], f)
  }

  /** A column whose values lie in [lo, hi] sums to between `lo` and `hi` times its length. */
  lemma {:induction false} SumOfBounds<T>(rows: seq<T>, f: T -> int, lo: int, hi: int)
    requires forall i :: 0 <= i < |rows| ==> lo <= f(rows[i]) <= hi
    ensures lo * |rows| <= SumOf(rows, f) <= hi * |rows|
  {
    if rows != [] {
      var rest := rows[1..];
      assert forall i :: 0 <= i < |rest| ==> rest[i] == rows[i + 1];
      SumOfBounds(rest, f, lo, hi);
      LinearStep(lo, |rest|);
      LinearStep(hi, |rest|);
    }
  }

  lemma LinearStep(a: int, n: nat)
    ensures a * (n + 1) == a * n + a
  {
  }

  /** A duplicate-free sequence holds each value at most once. */
  lemma {:induction false} NoDuplicatesOnce<T>(xs: seq<T>, x: T)
    requires NoDuplicates(xs)
    ensures multiset(xs)[x] <= 1
  {
    if xs != [] {
      assert xs == [xs[0]] + xs[1..];
      assert NoDuplicates(xs[1..]);
      NoDuplicatesOnce(xs[1..], x);
      if xs[0] == x {
        assert x !in xs[1..];
      }
    }
  }

  /** A reordering of a duplicate-free sequence is duplicate-free. */
  lemma PermutationKeepsNoDuplicates<T>(a: seq<T>, b: seq<T>)
    requires multiset(a) == multiset(b)
    requires NoDuplicates(a)
    ensures NoDuplicates(b)
  {
    forall i, j | 0 <= i < j < |b| ensures b[i] != b[j] {
      if b[i] == b[j] {
        assert b == b[..j] + b[j..];
        assert b[i] in b[..j] && b[j] in b[j..];
        assert multiset(b)[b[i]] == multiset(b[..j])[b[i]] + multiset(b[j..])[b[i]];
        NoDuplicatesOnce(a, b[i]);
      }
    }
  }

  /** A reordering of a frame has the same values in each column. */
  lemma PermutationKeepsColumnValues<T, V>(a: seq<T>, b: seq<T>, f: T -> V)
    requires multiset(a) == multiset(b)
    ensures forall v :: v in Column(a, f) <==> v in Column(b, f)
  {
    forall v | v in Column(a, f) ensures v in Column(b, f) {
      var i :| 0 <= i < |a| && Column(a, f)[i] == v;
      assert a[i] in multiset(b);
      var j :| 0 <= j < |b| && b[j] == a[i];
      assert Column(b, f)[j] == v;
    }
    forall v | v in Column(b, f) ensures v in Column(a, f) {
      var j :| 0 <= j < |b| && Column(b, f)[j] == v;
      assert b[j] in multiset(a);
      var i :| 0 <= i < |a| && a[i] == b[j];
      assert Column(a, f)[i] == v;
    }
  }

  /** A reordering of a frame whose column `f` has no duplicates keeps that
      column free of duplicates. */
  lemma PermutationKeepsDistinctColumn<T, V>(a: seq<T>, b: seq<T>, f: T -> V)
    requires multiset(a) == multiset(b)
    requires NoDuplicates(Column(a, f))
    ensures NoDuplicates(Column(b, f))
  {
    assert NoDuplicates(a) by {
      forall i, j | 0 <= i < j < |a| ensures a[i] != a[j] {
        assert Column(a, f)[i] != Column(a, f)[j];
      }
    }
    PermutationKeepsNoDuplicates(a, b);
    forall i, j | 0 <= i < j < |b| ensures Column(b, f)[i] != Column(b, f)[j] {
      assert b[i] in multiset(a) && b[j] in multiset(a);
      var p :| 0 <= p < |a| && a[p] == b[i];
      var q :| 0 <= q < |a| && a[q] == b[j];
      assert p != q;
      assert Column(a, f)[p] != Column(a, f)[q];
    }
  }

  /** The position of the first `x` in `xs`, or `|xs|` when there is none. */
  function FirstAt<T(==)>(xs: seq<T>, x: T): (i: nat)
    ensures i <= |xs|
    ensures i < |xs| <==> x in xs
    ensures i < |xs| ==> xs[i] == x
    ensures forall j :: 0 <= j < i ==> xs[j] != x
  {
    if xs == [] then 0
    else if xs[0] == x then 0
    else 1 + FirstAt(xs[1..], x)
  }

  /** Appending a value moves no first position, and a value new to the
      sequence is first found at the end. */
  lemma FirstAtAppend<T>(xs: seq<T>, y: T, x: T)
    ensures x in xs ==> FirstAt(xs + [y], x) == FirstAt(xs, x)
    ensures x == y && y !in xs ==> FirstAt(xs + [y], x) == |xs|
  {
    var k := FirstAt(xs + [y], x);
    if x in xs {
      var i := FirstAt(xs, x);
      assert (xs + [y])[i] == x;
      assert k < |xs| ==> xs[k] == x;
    }
  }

  /** The distinct values of `xs` in order of first appearance: `Series.unique()`. */
  function Distinct<T(==,!new)>(xs: seq<T>): (d: seq<T>)
    ensures NoDuplicates(d)
    ensures forall x :: x in d <==> x in xs
    ensures |d| <= |xs|
  {
    if xs == [] then []
    else
      var d := Distinct(xs[..|xs| - 1]);
      var last := xs[|xs| - 1];
      assert xs == xs[..|xs| - 1] + [last];
      if last in d then d else d + [last]
  }

  /** Values listed in order of first appearance in `init` stay so in
      `init + [last]`, and so does the list with `last` appended when it is new. */
  lemma FirstAppearanceStep<T>(init: seq<T>, last: T, d0: seq<T>, d: seq<T>)
    requires forall x :: x in d0 ==> x in init
    requires forall a, b :: 0 <= a < b < |d0| ==> FirstAt(init, d0[a]) < FirstAt(init, d0[b])
    requires d == if last in init then d0 else d0 + [last]
    ensures forall i, j :: 0 <= i < j < |d| ==> FirstAt(init + [last], d[i]) < FirstAt(init + [last], d[j])
  {
    forall i, j | 0 <= i < j < |d| ensures FirstAt(init + [last], d[i]) < FirstAt(init + [last], d[j]) {
      assert d[i] == d0[i] && d[i] in init;
      FirstAtAppend(init, last, d[i]);
      FirstAtAppend(init, last, d[j]);
      if j < |d0| {
        assert d[j] == d0[j] && d[j] in init;
      } else {
        assert d[j] == last && last !in init;
      }
    }
  }

  /** `unique()` lists the values in order of first appearance. */
  lemma {:induction false} DistinctInFirstAppearanceOrder<T(!new)>(xs: seq<T>, d: seq<T>)
    requires d == Distinct(xs)
    ensures forall i, j :: 0 <= i < j < |d| ==> FirstAt(xs, d[i]) < FirstAt(xs, d[j])
  {
    if xs != [] {
      var init, last := xs[..|xs| - 1], xs[|xs| - 1];
      assert xs == init + [last];
      var d0 := Distinct(init);
      DistinctInFirstAppearanceOrder(init, d0);
      FirstAppearanceStep(init, last, d0, d);
    }
  }

  /** The rows whose timestamp `at` lies in the closed window [lo, hi]:
      `df[(df[at] >= lo) & (df[at] <= hi)]`. An inverted window keeps nothing. */
  function Between<T(!new)>(rows: seq<T>, at: T -> int, lo: int, hi: int): (r: seq<T>)
    ensures forall x :: x in r <==> x in rows && lo <= at(x) <= hi
    ensures forall x :: Occurrences(r, x) == if lo <= at(x) <= hi then Occurrences(rows, x) else 0
    ensures IsSubsequence(r, rows)
    ensures lo > hi ==> r == []
  {
    var inWindow := (x: T) => lo <= at(x) <= hi;
    KeepIsSubsequence(rows, inWindow);
    KeepCopies(rows, inWindow);
    var r := Keep(rows, inWindow);
    if lo > hi then
      KeepNothing(rows, inWindow);
      r
    else r
  }

  /** What one multiselect admits: everything when nothing is selected,
      otherwise exactly the selected values. */
  predicate Admits<V(==)>(selected: seq<V>, v: V) {
    selected == [] || v in selected
  }

  /** The mask `df[field].isin(selected)`. */
  function IsIn<T, V(==)>(field: T -> V, selected: seq<V>): T -> bool {
    x => field(x) in selected
  }

  /** One filter step, `if selected: df = df[df[field].isin(selected)]`, applied
      to the frame mask `before` produced, gives the frame of the mask `after`
      that adds the multiselect to `before`. */
  lemma NarrowStep<T(!new), V>(rows: seq<T>, before: T -> bool, field: T -> V, selected: seq<V>, after: T -> bool)
    requires forall x :: after(x) == (before(x) && Admits(selected, field(x)))
    ensures (if selected == [] then Keep(rows, before) else Keep(Keep(rows, before), IsIn(field, selected)))
         == Keep(rows, after)
  {
    if selected == [] {
      KeepAgree(rows, before, after);
    } else {
      KeepThenKeep(rows, before, IsIn(field, selected), after);
    }
  }
}
