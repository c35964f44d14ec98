/** Grouped reductions over a frame: `groupby(key)[col].sum()`, `value_counts()`,
    sorting a grouped result by its values, `head(n)` and `idxmax()`.
    A grouped result is a sequence of (group key, reduced value) entries. */
module Groups {
  import opened Frames

  /** The group keys of a grouped result, in its order. */
  function KeysOf<K>(t: seq<(K, int)>): (ks: seq<K>)
    ensures |ks| == |t|
    ensures forall i :: 0 <= i < |t| ==> ks[i] == t[i].0
  {
    if t == [] then [] else [t[0].0] + KeysOf(t[1..])
  }

  /** The sum of the reduced values of a grouped result. */
  function Total<K>(t: seq<(K, int)>): int {
    if t == [] then 0 else t[0].1 + Total(t[1..])
  }

  /** Every group key occurs once. */
  predicate DistinctKeys<K(==)>(t: seq<(K, int)>) {
    forall i, j :: 0 <= i < j < |t| ==> t[i].0 != t[j].0
  }

  /** The values are listed largest first. */
  predicate NonIncreasing<K>(t: seq<(K, int)>) {
    forall i, j :: 0 <= i < j < |t| ==> t[i].1 >= t[j].1
  }

  lemma KeysOfContains<K>(t: seq<(K, int)>, k: K)
    ensures k in KeysOf(t) <==> exists e :: e in t && e.0 == k
  {
    if k in KeysOf(t) {
      var i :| 0 <= i < |t| && KeysOf(t)[i] == k;
      assert t[i] in t;
    }
  }

  /** The sum of `val` over the rows whose key is `k`: the group `k` of
      `groupby(key)[val].sum()`. */
  function SumWhere<T, K(==)>(rows: seq<T>, key: T -> K, k: K, val: T -> int): int {
    if rows == [] then 0
    else (if key(rows[0]) == k then val(rows[0]) else 0) + SumWhere(rows[1..], key, k, val)
  }

  /** Every row weighs 1: summing it counts rows. */
  function One<T>(x: T): int {
    1
  }

  /** The groups `ks` of `groupby(key)[val].sum()`, listed in the order of `ks`. */
  function GroupTotals<T, K(==)>(ks: seq<K>, rows: seq<T>, key: T -> K, val: T -> int): (t: seq<(K, int)>)
    ensures KeysOf(t) == ks
    ensures forall i :: 0 <= i < |t| ==> t[i].1 == SumWhere(rows, key, ks[i], val)
  {
    if ks == [] then []
    else [(ks[0], SumWhere(rows, key, ks[0], val))] + GroupTotals(ks[1..], rows, key, val)
  }

  /** The row count of group `k` is the number of times `k` occurs in the key column. */
  lemma {:induction false} CountIsOccurrences<T, K>(rows: seq<T>, key: T -> K, k: K)
    ensures SumWhere(rows, key, k, One) == Occurrences(Column(rows, key), k)
  {
    if rows != [] {
      CountIsOccurrences(rows[1..], key, k);
      assert Column(rows, key)[1..] == Column(rows[1..], key);
    }
  }

  /** A key that occurs has a count of at least one. */
  lemma CountPositive<T, K>(rows: seq<T>, key: T -> K, k: K)
    requires k in Column(rows, key)
    ensures SumWhere(rows, key, k, One) >= 1
  {
    CountIsOccurrences(rows, key, k);
  }

  lemma {:induction false} TotalsOfNoRows<T, K>(ks: seq<K>, key: T -> K, val: T -> int)
    ensures Total(GroupTotals(ks, [], key, val)) == 0
  {
    if ks != [] {
      TotalsOfNoRows(ks[1..], key, val);
    }
  }

  /** The first row adds its value to the total of its own group, if that group is listed. */
  lemma {:induction false} TotalsAddRow<T, K>(ks: seq<K>, rows: seq<T>, key: T -> K, val: T -> int)
    requires NoDuplicates(ks)
    requires rows != []
    ensures Total(GroupTotals(ks, rows, key, val))
         == Total(GroupTotals(ks, rows[1..], key, val)) + (if key(rows[0]) in ks then val(rows[0]) else 0)
  {
    if ks != [] {
      TotalsAddRow(ks[1..], rows, key, val);
      assert key(rows[0]) == ks[0] ==> key(rows[0]) !in ks[1..];
      assert key(rows[0]) in ks <==> key(rows[0]) == ks[0] || key(rows[0]) in ks[1..];
    }
  }

  /** Group totals over distinct keys that cover every row add up to the column total. */
  lemma {:induction false} TotalsCover<T, K>(ks: seq<K>, rows: seq<T>, key: T -> K, val: T -> int)
    requires NoDuplicates(ks)
    requires forall i :: 0 <= i < |rows| ==> key(rows[i]) in ks
    ensures Total(GroupTotals(ks, rows, key, val)) == SumOf(rows, val)
  {
    if rows == [] {
      TotalsOfNoRows(ks, key, val);
    } else {
      assert forall i :: 0 <= i < |rows[1..]| ==> rows[1..][i] == rows[i + 1];
      TotalsCover(ks, rows[1..], key, val);
      TotalsAddRow(ks, rows, key, val);
    }
  }

  /** Counting the rows of each key, over a duplicate-free list of exactly
      the keys that occur: each count is that key's number of rows, at least
      one, and the counts add up to the number of rows. */
  lemma CountsOverKeys<T, K(!new)>(ks: seq<K>, rows: seq<T>, key: T -> K)
    requires NoDuplicates(ks)
    requires forall k :: k in ks <==> k in Column(rows, key)
    ensures var t := GroupTotals(ks, rows, key, One);
      && (forall i :: 0 <= i < |t| ==> t[i].1 == Occurrences(Column(rows, key), t[i].0) && t[i].1 >= 1)
      && Total(t) == |rows|
  {
    var t := GroupTotals(ks, rows, key, One);
    forall i | 0 <= i < |t|
      ensures t[i].1 == Occurrences(Column(rows, key), t[i].0) && t[i].1 >= 1
    {
      assert t[i].0 == KeysOf(t)[i] == ks[i];
      CountIsOccurrences(rows, key, ks[i]);
    }
    assert forall i :: 0 <= i < |rows| ==> key(rows[i]) in ks by {
      forall i | 0 <= i < |rows| ensures key(rows[i]) in ks {
        assert Column(rows, key)[i] in Column(rows, key);
      }
    }
    TotalsCover(ks, rows, key, One);
    SumOfOnes(rows);
  }

  lemma {:induction false} SumOfOnes<T>(rows: seq<T>)
    ensures SumOf(rows, One) == |rows|
  {
    if rows != [] {
      SumOfOnes(rows[1..]);
    }
  }

  /** The groups of `groupby(key)[val].sum()` in order of first appearance. */
  function Grouped<T, K(==,!new)>(rows: seq<T>, key: T -> K, val: T -> int): (g: seq<(K, int)>)
    ensures |g| <= |rows|
  {
    GroupTotals(Distinct(Column(rows, key)), rows, key, val)
  }

  /** One entry per distinct key; each is its group's sum; together they add
      up to the column total. */
  lemma GroupedFacts<T, K(!new)>(rows: seq<T>, key: T -> K, val: T -> int)
    ensures var g := Grouped(rows, key, val);
      && DistinctKeys(g)
      && (forall k :: k in KeysOf(g) <==> k in Column(rows, key))
      && (forall e :: e in g ==> e.1 == SumWhere(rows, key, e.0, val))
      && Total(g) == SumOf(rows, val)
  {
    var col := Column(rows, key);
    var ks := Distinct(col);
    var g := GroupTotals(ks, rows, key, val);
    assert Grouped(rows, key, val) == g;
    forall i, j | 0 <= i < j < |g| ensures g[i].0 != g[j].0 {
      assert KeysOf(g)[i] == ks[i] && KeysOf(g)[j] == ks[j];
    }
    forall i | 0 <= i < |rows| ensures key(rows[i]) in ks {
      assert col[i] in col;
    }
    TotalsCover(ks, rows, key, val);
    forall e | e in g ensures e.1 == SumWhere(rows, key, e.0, val) {
      var i :| 0 <= i < |g| && g[i] == e;
    }
  }

  // ---------------------------------------------------------------------------
  // Sorting a grouped result

  /** `t` is listed by non-decreasing `rank`. */
  ghost predicate Ordered<E>(t: seq<E>, rank: E -> int) {
    forall i, j :: 0 <= i < j < |t| ==> rank(t[i]) <= rank(t[j])
  }

  /** `e` placed in front of the first entry that does not rank below it. */
  function Insert<E>(e: E, t: seq<E>, rank: E -> int): (r: seq<E>)
    ensures multiset(r) == multiset(t) + multiset{e}
    ensures |r| == |t| + 1
    ensures r[0] == e || (t != [] && r[0] == t[0])
  {
    if t == [] then [e]
    else if rank(e) <= rank(t[0]) then [e] + t
    else
      assert t == [t[0]] + t[1..];
      [t[0]] + Insert(e, t[1..], rank)
  }

  lemma OrderedTail<E>(t: seq<E>, rank: E -> int)
    requires t != [] && Ordered(t, rank)
    ensures Ordered(t[1..], rank)
  {
    forall i, j | 0 <= i < j < |t[1..]| ensures rank(t[1..][i]) <= rank(t[1..][j]) {
      assert t[1..][i] == t[i + 1] && t[1..][j] == t[j + 1];
    }
  }

  /** Inserting into an ordered list keeps it ordered. */
  lemma {:induction false} InsertOrdered<E>(e: E, t: seq<E>, rank: E -> int)
    requires Ordered(t, rank)
    ensures Ordered(Insert(e, t, rank), rank)
  {
    if t != [] && rank(e) > rank(t[0]) {
      OrderedTail(t, rank);
      InsertOrdered(e, t[1..], rank);
      var rest := Insert(e, t[1..], rank);
      assert rank(t[0]) <= rank(rest[0]) by {
        if rest[0] != e {
          assert rest[0] == t[1];
        }
      }
      var r := Insert(e, t, rank);
      assert r == [t[0]] + rest;
      forall i, j | 0 <= i < j < |r| ensures rank(r[i]) <= rank(r[j]) {
        assert r[j] == rest[j - 1];
        if i > 0 {
          assert r[i] == rest[i - 1];
        }
      }
    }
  }

  /** A stable sort of `t` by `rank`: a permutation of `t` listed by non-decreasing rank. */
  function SortBy<E>(t: seq<E>, rank: E -> int): (r: seq<E>)
    ensures Ordered(r, rank)
    ensures multiset(r) == multiset(t)
    ensures |r| == |t|
  {
    if t == [] then []
    else
      assert t == [t[0]] + t[1..];
      var rest := SortBy(t[1..], rank);
      InsertOrdered(t[0], rest, rank);
      Insert(t[0], rest, rank)
  }

  /** Sorting keeps the values of every column, and keeps a column free of
      duplicates if it was. */
  lemma SortByKeepsColumn<E(!new), V>(t: seq<E>, rank: E -> int, f: E -> V)
    ensures forall v :: v in Column(SortBy(t, rank), f) <==> v in Column(t, f)
    ensures NoDuplicates(Column(t, f)) ==> NoDuplicates(Column(SortBy(t, rank), f))
  {
    PermutationKeepsColumnValues(t, SortBy(t, rank), f);
    if NoDuplicates(Column(t, f)) {
      PermutationKeepsDistinctColumn(t, SortBy(t, rank), f);
    }
  }

  /** Sort key that lists larger values first. */
  function Descending<K>(e: (K, int)): int {
    -e.1
  }

  /** `sort_values(ascending=False)` on a grouped result. */
  function SortDesc<K(!new)>(t: seq<(K, int)>): (r: seq<(K, int)>)
    ensures NonIncreasing(r)
    ensures multiset(r) == multiset(t)
  {
    SortBy(t, Descending)
  }

  lemma {:induction false} InsertTotal<K>(e: (K, int), t: seq<(K, int)>)
    ensures Total(Insert(e, t, Descending)) == e.1 + Total(t)
  {
    if t != [] && Descending(e) > Descending(t[0]) {
      InsertTotal(e, t[1..]);
      assert Insert(e, t, Descending) == [t[0]] + Insert(e, t[1..], Descending);
    }
  }

  /** With distinct keys no entry occurs twice. */
  lemma {:induction false} DistinctKeysOnce<K>(t: seq<(K, int)>, x: (K, int))
    requires DistinctKeys(t)
    ensures multiset(t)[x] <= 1
  {
    if t != [] {
      assert t == [t[0]] + t[1..];
      assert DistinctKeys(t[1..]);
      DistinctKeysOnce(t[1..], x);
      if t[0] == x {
        assert x !in t[1..];
      }
    }
  }

  /** A permutation of a grouped result with distinct keys has distinct keys. */
  lemma PermutationKeepsDistinctKeys<K>(a: seq<(K, int)>, b: seq<(K, int)>)
    requires multiset(a) == multiset(b)
    requires DistinctKeys(a)
    ensures DistinctKeys(b)
  {
    forall i, j | 0 <= i < j < |b| ensures b[i].0 != b[j].0 {
      if b[i] == b[j] {
        assert b == b[..j] + b[j..];
        assert b[i] in b[..j] && b[j] in b[j..];
        assert multiset(b)[b[i]] == multiset(b[..j])[b[i]] + multiset(b[j..])[b[i]];
        DistinctKeysOnce(a, b[i]);
      } else {
        assert b[i] in multiset(a) && b[j] in multiset(a);
      }
    }
  }

  /** Sorting a grouped result by value keeps its keys distinct, its total, and its entries. */
  lemma {:induction false} SortDescKeeps<K(!new)>(t: seq<(K, int)>)
    ensures Total(SortDesc(t)) == Total(t)
    ensures DistinctKeys(t) ==> DistinctKeys(SortDesc(t))
    ensures forall e :: e in SortDesc(t) <==> e in t
  {
    assert forall e :: e in SortDesc(t) <==> e in multiset(t);
    if DistinctKeys(t) {
      PermutationKeepsDistinctKeys(t, SortDesc(t));
    }
    if t != [] {
      SortDescKeeps(t[1..]);
      var rest := SortBy(t[1..], Descending);
      assert SortDesc(t) == Insert(t[0], rest, Descending);
      InsertTotal(t[0], rest);
    }
  }

  // ---------------------------------------------------------------------------
  // The grouped results the dashboards show

  /** `df[key].value_counts()`: each distinct value with its number of rows,
      most frequent first. */
  function ValueCounts<T, K(==,!new)>(rows: seq<T>, key: T -> K): (t: seq<(K, int)>)
    ensures |t| <= |rows|
    ensures NonIncreasing(t)
  {
    var g := Grouped(rows, key, One);
    assert |multiset(SortDesc(g))| == |multiset(g)|;
    SortDesc(g)
  }

  /** `df.groupby(key)[val].sum().sort_values(ascending=False)`. */
  function SumsDescending<T, K(==,!new)>(rows: seq<T>, key: T -> K, val: T -> int): (t: seq<(K, int)>)
    ensures |t| <= |rows|
    ensures NonIncreasing(t)
  {
    var g := Grouped(rows, key, val);
    assert |multiset(SortDesc(g))| == |multiset(g)|;
    SortDesc(g)
  }

  /** Row counts depend on the key column alone: two frames whose key columns
      agree have the same counts over any keys. */
  lemma CountsByColumn<T, U, K>(ks: seq<K>, a: seq<T>, keyA: T -> K, b: seq<U>, keyB: U -> K)
    requires Column(a, keyA) == Column(b, keyB)
    ensures GroupTotals(ks, a, keyA, One) == GroupTotals(ks, b, keyB, One)
  {
    var ta, tb := GroupTotals(ks, a, keyA, One), GroupTotals(ks, b, keyB, One);
    forall i | 0 <= i < |ks| ensures ta[i] == tb[i] {
      CountIsOccurrences(a, keyA, ks[i]);
      CountIsOccurrences(b, keyB, ks[i]);
      assert KeysOf(ta)[i] == KeysOf(tb)[i];
    }
  }

  /** `value_counts()` depends on the key column alone. */
  lemma ValueCountsByColumn<T, U, K(!new)>(a: seq<T>, keyA: T -> K, b: seq<U>, keyB: U -> K)
    requires Column(a, keyA) == Column(b, keyB)
    ensures ValueCounts(a, keyA) == ValueCounts(b, keyB)
  {
    CountsByColumn(Distinct(Column(a, keyA)), a, keyA, b, keyB);
  }

  /** A sum table has one entry per distinct key holding that group's sum, the
      sums add up to the column total, and they are listed largest first. */
  lemma SumsDescendingFacts<T, K(!new)>(rows: seq<T>, key: T -> K, val: T -> int)
    ensures var t := SumsDescending(rows, key, val);
      && DistinctKeys(t)
      && NonIncreasing(t)
      && (forall k :: k in KeysOf(t) <==> k in Column(rows, key))
      && (forall e :: e in t ==> e.1 == SumWhere(rows, key, e.0, val))
      && Total(t) == SumOf(rows, val)
  {
    var g := Grouped(rows, key, val);
    GroupedFacts(rows, key, val);
    SortDescKeeps(g);
    forall k ensures k in KeysOf(SortDesc(g)) <==> k in KeysOf(g) {
      KeysOfContains(g, k);
      KeysOfContains(SortDesc(g), k);
    }
  }

  /** A count table has one entry per distinct value holding its number of
      rows (at least one), the counts add up to the row count, and they are
      listed most frequent first. */
  lemma ValueCountsFacts<T, K(!new)>(rows: seq<T>, key: T -> K)
    ensures var t := ValueCounts(rows, key);
      && DistinctKeys(t)
      && NonIncreasing(t)
      && (forall k :: k in KeysOf(t) <==> k in Column(rows, key))
      && (forall e :: e in t ==> e.1 == Occurrences(Column(rows, key), e.0) && e.1 >= 1)
      && Total(t) == |rows|
  {
    var t := ValueCounts(rows, key);
    SumsDescendingFacts(rows, key, One);
    SumOfOnes(rows);
    forall e | e in t ensures e.1 == Occurrences(Column(rows, key), e.0) && e.1 >= 1 {
      CountIsOccurrences(rows, key, e.0);
      KeysOfContains(t, e.0);
    }
  }

  /** `head(n)`: the first `n` entries, or all of them when there are fewer. */
  function Top<K>(t: seq<(K, int)>, n: nat): (h: seq<(K, int)>)
    ensures |h| <= n && |h| <= |t|
    ensures |h| == n || h == t
    ensures forall i :: 0 <= i < |h| ==> h[i] == t[i]
  {
    if |t| <= n then t else t[..n]
  }

  /** The head of a table listed largest first holds its largest values:
      no entry left out exceeds an entry kept. */
  lemma TopHoldsLargest<K>(t: seq<(K, int)>, n: nat)
    requires NonIncreasing(t)
    ensures NonIncreasing(Top(t, n))
    ensures forall i, j :: 0 <= i < |Top(t, n)| <= j < |t| ==> Top(t, n)[i].1 >= t[j].1
  {
  }

  /** The head of a table with distinct keys has distinct keys. */
  lemma TopKeepsDistinctKeys<K>(t: seq<(K, int)>, n: nat)
    requires DistinctKeys(t)
    ensures DistinctKeys(Top(t, n))
  {
    var h := Top(t, n);
    forall i, j | 0 <= i < j < |h| ensures h[i].0 != h[j].0 {
      assert h[i] == t[i] && h[j] == t[j];
    }
  }

  /** The head either is full or holds every key of the table. */
  lemma TopCovers<K>(t: seq<(K, int)>, n: nat)
    ensures |Top(t, n)| == n || KeysOf(Top(t, n)) == KeysOf(t)
  {
  }

  /** The head of a count table of `col` keeps the table's facts, and holds
      every value of `col` unless it is full. */
  lemma TopOfCounts<K>(t: seq<(K, int)>, col: seq<K>, n: nat)
    requires DistinctKeys(t) && NonIncreasing(t)
    requires forall k :: k in KeysOf(t) <==> k in col
    requires forall e :: e in t ==> e.1 == Occurrences(col, e.0)
    ensures var top := Top(t, n);
      && DistinctKeys(top)
      && NonIncreasing(top)
      && (|top| == n || forall s :: s in col ==> s in KeysOf(top))
      && (forall e :: e in top ==> e.0 in col && e.1 == Occurrences(col, e.0))
  {
    var top := Top(t, n);
    TopHoldsLargest(t, n);
    TopKeepsDistinctKeys(t, n);
    TopCovers(t, n);
    forall e | e in top ensures e.0 in col && e.1 == Occurrences(col, e.0) {
      var i :| 0 <= i < |top| && top[i] == e;
      assert t[i] in t;
      assert e.0 == KeysOf(t)[i];
    }
  }

  /** `value_counts().head(n)`: at most `n` distinct values, largest count
      first, each with its number of rows; when fewer than `n` are listed,
      every value is. */
  lemma TopCountsFacts<T, K(!new)>(rows: seq<T>, key: T -> K, n: nat)
    ensures var top, col := Top(ValueCounts(rows, key), n), Column(rows, key);
      && |top| <= n
      && DistinctKeys(top)
      && NonIncreasing(top)
      && (|top| == n || forall s :: s in col ==> s in KeysOf(top))
      && (forall e :: e in top ==> e.0 in col && e.1 == Occurrences(col, e.0))
  {
    ValueCountsFacts(rows, key);
    TopOfCounts(ValueCounts(rows, key), Column(rows, key), n);
  }

  /** No value left out of `value_counts().head(n)` occurs more often than a
      value kept. */
  lemma TopLeavesOutFewer<T, K(!new)>(rows: seq<T>, key: T -> K, n: nat)
    ensures var top, col := Top(ValueCounts(rows, key), n), Column(rows, key);
      forall s, e :: s in col && s !in KeysOf(top) && e in top ==> Occurrences(col, s) <= e.1
  {
    var t, col := ValueCounts(rows, key), Column(rows, key);
    var top := Top(t, n);
    ValueCountsFacts(rows, key);
    TopHoldsLargest(t, n);
    forall s, e | s in col && s !in KeysOf(top) && e in top ensures Occurrences(col, s) <= e.1 {
      KeysOfContains(t, s);
      var f :| f in t && f.0 == s;
      var j :| 0 <= j < |t| && t[j] == f;
      var i :| 0 <= i < |top| && top[i] == e;
      assert j >= |top|;
      assert top[i].1 >= t[j].1 == Occurrences(col, s);
    }
  }

  /** `idxmax()`: the position of the first entry holding the largest value. */
  function FirstMax<K>(t: seq<(K, int)>): (m: nat)
    requires t != []
    ensures m < |t|
    ensures forall j :: 0 <= j < |t| ==> t[j].1 <= t[m].1
    ensures forall j :: 0 <= j < m ==> t[j].1 < t[m].1
  {
    if |t| == 1 then 0
    else
      var m := FirstMax(t[1..]) + 1;
      if t[0].1 >= t[m].1 then 0 else m
  }

  // ---------------------------------------------------------------------------
  // Shares of a whole

  function SumReals(s: seq<real>): real {
    if s == [] then 0.0 else s[0] + SumReals(s[1..])
  }

  /** Each value as a percentage of `whole`: `t[col] / whole * 100`. */
  function Percentages<K>(t: seq<(K, int)>, whole: int): (p: seq<real>)
    requires whole != 0
    ensures |p| == |t|
  {
    if t == [] then [] else [(t[0].1 as real) / (whole as real) * 100.0] + Percentages(t[1..], whole)
  }

  /** The percentages add up to the table's total as a percentage of `whole`. */
  lemma {:induction false} PercentagesSum<K>(t: seq<(K, int)>, whole: int)
    requires whole != 0
    ensures SumReals(Percentages(t, whole)) == (Total(t) as real) / (whole as real) * 100.0
  {
    if t != [] {
      PercentagesSum(t[1..], whole);
      var w := whole as real;
      assert (t[0].1 as real) / w * 100.0 + (Total(t[1..]) as real) / w * 100.0
          == ((t[0].1 + Total(t[1..])) as real) / w * 100.0;
    }
  }

  /** Each value as a percentage of the table's total: the shares add up to 100. */
  lemma PercentagesOfTotal<K>(t: seq<(K, int)>)
    requires Total(t) != 0
    ensures SumReals(Percentages(t, Total(t))) == 100.0
  {
    PercentagesSum(t, Total(t));
    var w := Total(t) as real;
    assert w / w == 1.0;
  }

  /** A part of a whole, in percent, lies between 0 and 100 and reaches each
      end exactly when the part is empty or the whole. */
  lemma ShareOfWhole(part: nat, whole: nat)
    requires 0 < whole && part <= whole
    ensures var p := (part as real) / (whole as real) * 100.0;
      && 0.0 <= p <= 100.0
      && (p == 100.0 <==> part == whole)
      && (p == 0.0 <==> part == 0)
  {
    var w := whole as real;
    var q := (part as real) / w;
    assert q * w == part as real;
    ScaleOrder(q, w);
  }

  /** Scaling by a positive factor keeps a value on the same side of 0 and 1. */
  lemma ScaleOrder(q: real, w: real)
    requires w > 0.0
    ensures q < 0.0 ==> q * w < 0.0
    ensures q == 0.0 ==> q * w == 0.0
    ensures 0.0 < q ==> 0.0 < q * w
    ensures q < 1.0 ==> q * w < w
    ensures q == 1.0 ==> q * w == w
    ensures q > 1.0 ==> q * w > w
  {
    if q < 1.0 {
      assert (1.0 - q) * w > 0.0;
    }
    if q > 1.0 {
      assert (q - 1.0) * w > 0.0;
    }
  }

  /** The mean of `n` values that sum to `total`: the value that, taken `n`
      times, makes the total. */
  function Mean(total: int, n: int): (m: real)
    requires n > 0
    ensures m * (n as real) == total as real
  {
    (total as real) / (n as real)
  }

  /** The mean of `n` values that sum to `total` lies between their bounds. */
  lemma MeanWithin(total: int, n: nat, lo: int, hi: int)
    requires n > 0
    requires lo * n <= total <= hi * n
    ensures lo as real <= Mean(total, n) <= hi as real
  {
    var m := Mean(total, n);
    assert (m - lo as real) * (n as real) >= 0.0;
    assert (hi as real - m) * (n as real) >= 0.0;
  }
}
