/** Text building: `str.join`, `str(int)` and the filter description both
    dashboards put in the title of their average metric. */
module Text {

  /** `sep.join(parts)`. */
  function Join(sep: string, parts: seq<string>): (j: string)
    ensures parts == [] ==> j == ""
    ensures parts != [] ==> parts[0] <= j
    ensures parts != [] ==> var last := parts[|parts| - 1]; |last| <= |j| && j[|j| - |last|..] == last
  {
    if parts == [] then ""
    else if |parts| == 1 then parts[0]
    else
      var rest := Join(sep, parts[1..]);
      var j := parts[0] + sep + rest;
      assert j[|parts[0] + sep|..] == rest;
      j
  }

  function Digit(d: nat): char
    requires d < 10
  {
    "0123456789"[d]
  }

  /** `str(n)` for a non-negative integer. */
  function DecimalNat(n: nat): (s: string)
    ensures s != []
    ensures forall i :: 0 <= i < |s| ==> '0' <= s[i] <= '9'
  {
    if n < 10 then [Digit(n)] else DecimalNat(n / 10) + [Digit(n % 10)]
  }

  /** `str(i)` for an integer. */
  function Decimal(i: int): (s: string)
    ensures s != []
  {
    if i < 0 then "-" + DecimalNat(-i) else DecimalNat(i)
  }

  /** `map(str, xs)`. */
  function Decimals(xs: seq<int>): (r: seq<string>)
    ensures |r| == |xs|
  {
    if xs == [] then [] else [Decimal(xs[0])] + Decimals(xs[1..])
  }

  /** What one multiselect adds to the description: nothing when it is empty,
      otherwise its values joined by ", " and one trailing space. */
  function Segment(selected: seq<string>): (s: string)
    ensures s == "" <==> selected == []
    ensures selected != [] ==> selected[0] <= s && s[|s| - 1] == ' '
  {
    if selected == [] then "" else Join(", ", selected) + " "
  }

  /** The segments of all the described multiselects, in order: the
      description as it stands after the last of them. */
  function Segments(selections: seq<seq<string>>): string {
    if selections == [] then ""
    else Segments(selections[..|selections| - 1]) + Segment(selections[|selections| - 1])
  }

  /** Describing one more multiselect appends its segment. */
  lemma SegmentsAppend(selections: seq<seq<string>>, last: seq<string>)
    ensures Segments(selections + [last]) == Segments(selections) + Segment(last)
  {
    assert (selections + [last])[..|selections|] == selections;
  }

  /** One step of building the description, `if selected: description +=
      ", ".join(selected) + " "`: the description of the multiselects `done`
      grows into that of `done` followed by `selected`. */
  method AddSegment(description: string, done: seq<seq<string>>, selected: seq<string>)
      returns (extended: string)
    requires description == Segments(done)
    ensures extended == Segments(done + [selected])
  {
    extended := description;
    if selected != [] {
      extended := extended + (Join(", ", selected) + " ");
    }
    SegmentsAppend(done, selected);
  }

  /** No described multiselect has a value selected. */
  predicate NothingSelected(selections: seq<seq<string>>) {
    forall i :: 0 <= i < |selections| ==> selections[i] == []
  }

  /** The filter description: the segments, or "All Data" when they are empty. */
  function Describe(selections: seq<seq<string>>): string {
    var s := Segments(selections);
    if s == "" then "All Data" else s
  }

  /** The segments are empty exactly when nothing is selected. */
  lemma {:induction false} SegmentsEmpty(selections: seq<seq<string>>)
    ensures Segments(selections) == "" <==> NothingSelected(selections)
  {
    if selections != [] {
      var n := |selections| - 1;
      SegmentsEmpty(selections[..n]);
      NothingSelectedSplit(selections);
      assert |Segments(selections)| == |Segments(selections[..n])| + |Segment(selections[n])|;
    }
  }

  /** Nothing is selected in a list exactly when nothing is selected in all
      but its last multiselect and nothing in the last. */
  lemma NothingSelectedSplit(selections: seq<seq<string>>)
    requires selections != []
    ensures var n := |selections| - 1;
      NothingSelected(selections) <==> NothingSelected(selections[..n]) && selections[n] == []
  {
    var n := |selections| - 1;
    var init := selections[..n];
    if NothingSelected(init) && selections[n] == [] {
      forall i | 0 <= i < |selections| ensures selections[i] == [] {
        if i < n {
          assert selections[i] == init[i];
        }
      }
    }
  }

  /** Non-empty segments end with the space the last non-empty segment adds. */
  lemma {:induction false} SegmentsEndWithSpace(selections: seq<seq<string>>)
    ensures Segments(selections) != "" ==> Segments(selections)[|Segments(selections)| - 1] == ' '
  {
    if selections != [] {
      var n := |selections| - 1;
      SegmentsEndWithSpace(selections[..n]);
      var before, added := Segments(selections[..n]), Segment(selections[n]);
      if added != "" {
        assert added[|added| - 1] == ' ';
        assert (before + added)[|before + added| - 1] == added[|added| - 1];
      }
    }
  }

  /** The description is "All Data" exactly when nothing is selected: a
      selection can never be described as "All Data", since its segment ends
      with a space. Otherwise it is the segments. */
  lemma DescribeAllDataIff(selections: seq<seq<string>>)
    ensures Describe(selections) == "All Data" <==> NothingSelected(selections)
    ensures !NothingSelected(selections) ==> Describe(selections) == Segments(selections)
  {
    SegmentsEmpty(selections);
    SegmentsEndWithSpace(selections);
  }
}
