/** Python's ordering of strings and `sorted(set_of_values)`: the order in which
    the dashboards list filter options and month labels. */
module Order {
  import opened Frames

  /** Python's `a < b` on strings: the first differing character decides, by
      code point, and a proper prefix comes first. */
  predicate StrBelow(a: string, b: string) {
    if a == [] then b != []
    else if b == [] then false
    else if a[0] != b[0] then a[0] < b[0]
    else StrBelow(a[1..], b[1..])
  }

  lemma {:induction false} StrBelowIrreflexive(a: string)
    ensures !StrBelow(a, a)
  {
    if a != [] {
      StrBelowIrreflexive(a[1..]);
    }
  }

  lemma {:induction false} StrBelowTransitive(a: string, b: string, c: string)
    requires StrBelow(a, b) && StrBelow(b, c)
    ensures StrBelow(a, c)
  {
    if a != [] && b != [] && c != [] && a[0] == b[0] && b[0] == c[0] {
      StrBelowTransitive(a[1..], b[1..], c[1..]);
    }
  }

  /** Any two different strings are ordered one way or the other. */
  lemma {:induction false} StrBelowTotal(a: string, b: string)
    ensures a == b || StrBelow(a, b) || StrBelow(b, a)
  {
    if a != [] && b != [] && a[0] == b[0] {
      StrBelowTotal(a[1..], b[1..]);
      if a[1..] == b[1..] {
        assert a == [a[0]] + a[1..] && b == [b[0]] + b[1..];
      }
    }
  }

  /** Two different strings of one length decide the order of anything
      written after them. */
  lemma {:induction false} StrBelowPrefix(a: string, b: string, s: string, t: string)
    requires |a| == |b| && a != b
    ensures StrBelow(a + s, b + t) <==> StrBelow(a, b)
  {
    assert (a + s)[0] == a[0] && (b + t)[0] == b[0];
    if a[0] == b[0] {
      assert a[1..] != b[1..] by {
        assert a == [a[0]] + a[1..] && b == [b[0]] + b[1..];
      }
      assert (a + s)[1..] == a[1..] + s && (b + t)[1..] == b[1..] + t;
      StrBelowPrefix(a[1..], b[1..], s, t);
    }
  }

  /** Each string comes strictly before the next. */
  ghost predicate StrictlyAscending(xs: seq<string>) {
    forall i, j :: 0 <= i < j < |xs| ==> StrBelow(xs[i], xs[j])
  }

  lemma AscendingHasNoDuplicates(xs: seq<string>)
    requires StrictlyAscending(xs)
    ensures NoDuplicates(xs)
  {
    forall i, j | 0 <= i < j < |xs| ensures xs[i] != xs[j] {
      StrBelowIrreflexive(xs[i]);
    }
  }

  /** `x` added to the ascending, duplicate-free list `s` at its place, unless it is there already. */
  function InsertString(x: string, s: seq<string>): (r: seq<string>)
    requires StrictlyAscending(s)
    ensures forall y :: y in r <==> y == x || y in s
    ensures r != [] && (r[0] == x || (s != [] && r[0] == s[0]))
    ensures StrictlyAscending(r)
  {
    if s == [] then [x]
    else if x == s[0] then s
    else if StrBelow(x, s[0]) then
      assert StrictlyAscending([x] + s) by {
        forall j | 0 <= j < |s| ensures StrBelow(x, s[j]) {
          if j > 0 {
            StrBelowTransitive(x, s[0], s[j]);
          }
        }
      }
      [x] + s
    else
      assert StrictlyAscending(s[1..]) by {
        forall i, j | 0 <= i < j < |s[1..]| ensures StrBelow(s[1..][i], s[1..][j]) {
          assert s[1..][i] == s[i + 1] && s[1..][j] == s[j + 1];
        }
      }
      var rest := InsertString(x, s[1..]);
      StrBelowTotal(x, s[0]);
      assert StrictlyAscending([s[0]] + rest) by {
        assert StrBelow(s[0], rest[0]);
        forall j | 0 < j < |rest| ensures StrBelow(s[0], rest[j]) {
          StrBelowTransitive(s[0], rest[0], rest[j]);
        }
      }
      assert s == [s[0]] + s[1..];
      [s[0]] + rest
  }

  /** `sorted(column.unique())` for a string column. */
  function SortedUniqueStrings(xs: seq<string>): (r: seq<string>)
    ensures StrictlyAscending(r)
    ensures forall y :: y in r <==> y in xs
  {
    if xs == [] then []
    else
      assert xs == [xs[0]] + xs[1..];
      InsertString(xs[0], SortedUniqueStrings(xs[1..]))
  }

  /** Each integer is smaller than the next. */
  predicate StrictlyIncreasing(xs: seq<int>) {
    forall i, j :: 0 <= i < j < |xs| ==> xs[i] < xs[j]
  }

  /** `x` added to the increasing list `s` at its place, unless it is there already. */
  function InsertInt(x: int, s: seq<int>): (r: seq<int>)
    requires StrictlyIncreasing(s)
    ensures forall y :: y in r <==> y == x || y in s
    ensures r != [] && (r[0] == x || (s != [] && r[0] == s[0]))
    ensures StrictlyIncreasing(r)
  {
    if s == [] then [x]
    else if x == s[0] then s
    else if x < s[0] then [x] + s
    else
      assert s == [s[0]] + s[1..];
      [s[0]] + InsertInt(x, s[1..])
  }

  /** `sorted(column.unique())` for an integer column. */
  function SortedUniqueInts(xs: seq<int>): (r: seq<int>)
    ensures StrictlyIncreasing(r)
    ensures forall y :: y in r <==> y in xs
  {
    if xs == [] then []
    else
      assert xs == [xs[0]] + xs[1..];
      InsertInt(xs[0], SortedUniqueInts(xs[1..]))
  }
}
