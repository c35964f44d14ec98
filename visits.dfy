/** The service provider visits dashboard (Visits.py): the visits created
    between two picked dates, narrowed by four sidebar multiselects,
    summarised by headline counts and by count tables over months, visit
    types, specialisations, days and (visit type, month) pairs. */
module Visits {
  import opened Frames
  import opened Groups
  import opened Order
  import opened Text
  import opened Calendar

  /** One row of the visits file, with the columns the dashboard reads. */
  datatype Visit = Visit(
    visitDate: int,          // visit_date, visit_created_on as a point in time
    day: int,                // the calendar day visit_created_on falls on
    createdYear: Year,       // the year of visit_created_on
    createdMonth: Month,     // the month of visit_created_on
    year: int,               // year
    quarter: int,            // quarter
    monthName: string,       // MonthName
    visitType: string,       // visit_type
    dayOrNight: string,      // DayOrNight
    specialisation: string)  // attending_doctor_specialisation

  function VisitDateOf(v: Visit): int { v.visitDate }
  function DayOf(v: Visit): int { v.day }
  function YearOf(v: Visit): int { v.year }
  function QuarterOf(v: Visit): int { v.quarter }
  function MonthNameOf(v: Visit): string { v.monthName }
  function TypeOf(v: Visit): string { v.visitType }
  function SpecialisationOf(v: Visit): string { v.specialisation }

  // ---------------------------------------------------------------------------
  // Sidebar

  /** The values picked in the four multiselects, each in the order picked. */
  datatype Selection = Selection(
    years: seq<int>,
    months: seq<string>,
    quarters: seq<int>,
    visitTypes: seq<string>)

  /** What the four multiselects offer. */
  datatype Options = Options(
    years: seq<int>,
    months: seq<string>,
    quarters: seq<int>,
    visitTypes: seq<string>)

  /** The options offered for the visits in the date window: every year,
      month name and quarter that occurs, sorted, and every visit type that
      occurs, once each in order of first appearance. */
  function SidebarOptions(df: seq<Visit>): (o: Options)
    ensures StrictlyIncreasing(o.years) && forall y :: y in o.years <==> y in Column(df, YearOf)
    ensures StrictlyAscending(o.months) && forall m :: m in o.months <==> m in Column(df, MonthNameOf)
    ensures StrictlyIncreasing(o.quarters) && forall q :: q in o.quarters <==> q in Column(df, QuarterOf)
    ensures NoDuplicates(o.visitTypes) && forall t :: t in o.visitTypes <==> t in Column(df, TypeOf)
  {
    Options(
      SortedUniqueInts(Column(df, YearOf)),
      SortedUniqueStrings(Column(df, MonthNameOf)),
      SortedUniqueInts(Column(df, QuarterOf)),
      Distinct(Column(df, TypeOf)))
  }

  // ---------------------------------------------------------------------------
  // Filtering

  /** The first `k` multiselects, in the order the dashboard applies them
      (year, quarter, month, visit type), all admit `v`. */
  predicate PassesFirst(v: Visit, sel: Selection, k: nat) {
    && (k >= 1 ==> Admits(sel.years, v.year))
    && (k >= 2 ==> Admits(sel.quarters, v.quarter))
    && (k >= 3 ==> Admits(sel.months, v.monthName))
    && (k >= 4 ==> Admits(sel.visitTypes, v.visitType))
  }

  /** Every multiselect admits `v`. */
  predicate Passes(v: Visit, sel: Selection) {
    PassesFirst(v, sel, 4)
  }

  /** The mask of the first `k` multiselects. */
  function Stage(sel: Selection, k: nat): Visit -> bool {
    v => PassesFirst(v, sel, k)
  }

  /** Each stage adds one multiselect to the one before. */
  lemma StagesAdd(sel: Selection)
    ensures forall v :: Stage(sel, 1)(v) == (Stage(sel, 0)(v) && Admits(sel.years, YearOf(v)))
    ensures forall v :: Stage(sel, 2)(v) == (Stage(sel, 1)(v) && Admits(sel.quarters, QuarterOf(v)))
    ensures forall v :: Stage(sel, 3)(v) == (Stage(sel, 2)(v) && Admits(sel.months, MonthNameOf(v)))
    ensures forall v :: Stage(sel, 4)(v) == (Stage(sel, 3)(v) && Admits(sel.visitTypes, TypeOf(v)))
  {
  }

  /** The visits every multiselect admits, in their original order. */
  function Filtered(df: seq<Visit>, sel: Selection): seq<Visit> {
    Keep(df, Stage(sel, 4))
  }

  /** The frame left by the filters holds exactly the visits every
      multiselect admits, every copy of each, in their original order. */
  lemma FilteredFacts(df: seq<Visit>, sel: Selection)
    ensures forall v :: v in Filtered(df, sel) <==> v in df && Passes(v, sel)
    ensures forall v :: Occurrences(Filtered(df, sel), v) == if Passes(v, sel) then Occurrences(df, v) else 0
    ensures IsSubsequence(Filtered(df, sel), df)
  {
    KeepIsSubsequence(df, Stage(sel, 4));
    KeepCopies(df, Stage(sel, 4));
  }

  /** The four filter steps, one after the other: each non-empty multiselect
      keeps the rows whose field is among its values. Together they keep
      the visits every multiselect admits, and with nothing selected the
      frame is unchanged. */
  method ApplyFilters(df: seq<Visit>, sel: Selection) returns (filtered: seq<Visit>)
    ensures filtered == Filtered(df, sel)
    ensures sel == Selection([], [], [], []) ==> filtered == df
  {
    StagesAdd(sel);
    filtered := df;
    KeepEverything(df, Stage(sel, 0));
    if sel.years != [] {
      filtered := Keep(filtered, IsIn(YearOf, sel.years));
    }
    NarrowStep(df, Stage(sel, 0), YearOf, sel.years, Stage(sel, 1));
    assert filtered == Keep(df, Stage(sel, 1));
    if sel.quarters != [] {
      filtered := Keep(filtered, IsIn(QuarterOf, sel.quarters));
    }
    NarrowStep(df, Stage(sel, 1), QuarterOf, sel.quarters, Stage(sel, 2));
    assert filtered == Keep(df, Stage(sel, 2));
    if sel.months != [] {
      filtered := Keep(filtered, IsIn(MonthNameOf, sel.months));
    }
    NarrowStep(df, Stage(sel, 2), MonthNameOf, sel.months, Stage(sel, 3));
    assert filtered == Keep(df, Stage(sel, 3));
    if sel.visitTypes != [] {
      filtered := Keep(filtered, IsIn(TypeOf, sel.visitTypes));
    }
    NarrowStep(df, Stage(sel, 3), TypeOf, sel.visitTypes, Stage(sel, 4));
    if sel == Selection([], [], [], []) {
      KeepEverything(df, Stage(sel, 4));
    }
  }

  /** The multiselects the description covers, in the order it lists them
      (year, quarter, month, visit type), numbers written with `str`. */
  function Described(sel: Selection): (d: seq<seq<string>>)
    ensures |d| == 4
  {
    [Decimals(sel.years), Decimals(sel.quarters), sel.months, sel.visitTypes]
  }

  /** The described multiselects are all empty exactly when nothing is picked. */
  lemma DescribedNothing(sel: Selection)
    ensures NothingSelected(Described(sel)) <==>
      sel.years == [] && sel.quarters == [] && sel.months == [] && sel.visitTypes == []
  {
    var d := Described(sel);
    assert d[0] == Decimals(sel.years) && d[1] == Decimals(sel.quarters);
    assert d[2] == sel.months && d[3] == sel.visitTypes;
  }

  /** The description before its fallback: the segment of each described
      multiselect, appended in order. */
  method AppendSegments(years: seq<string>, quarters: seq<string>, months: seq<string>, visitTypes: seq<string>) returns (segments: string)
    ensures segments == Segments([years, quarters, months, visitTypes])
  {
    var done: seq<seq<string>> := [];
    segments := "";
    segments := AddSegment(segments, done, years);
    done := done + [years];
    segments := AddSegment(segments, done, quarters);
    done := done + [quarters];
    segments := AddSegment(segments, done, months);
    done := done + [months];
    segments := AddSegment(segments, done, visitTypes);
    done := done + [visitTypes];
    assert done[0] == years && done[1] == quarters && done[2] == months && done[3] == visitTypes;
    assert done == [years, quarters, months, visitTypes];
  }

  /** The title of the average metric: the picked years, quarters, months and
      visit types, each list joined by ", " and followed by a space, or
      "All Data" when nothing is picked. */
  method BuildDescription(sel: Selection) returns (description: string)
    ensures description == Describe(Described(sel))
    ensures description == "All Data" <==>
      sel.years == [] && sel.quarters == [] && sel.months == [] && sel.visitTypes == []
  {
    description := AppendSegments(Decimals(sel.years), Decimals(sel.quarters), sel.months, sel.visitTypes);
    var described := Described(sel);
    if description == "" {
      description := "All Data";
    }
    DescribeAllDataIff(described);
    DescribedNothing(sel);
  }

  // ---------------------------------------------------------------------------
  // Headline counts

  /** The (year, quarter) period of a visit. */
  function Period(v: Visit): (int, int) {
    (v.year, v.quarter)
  }

  /** A non-empty frame has at least one (year, quarter) period and at most
      one per visit; the per-period counts add up to the number of visits. */
  lemma PeriodGroups(rows: seq<Visit>)
    requires rows != []
    ensures var g := Grouped(rows, Period, One);
      && 1 <= |g| == |Distinct(Column(rows, Period))| <= |rows|
      && Total(g) == |rows|
  {
    var g := Grouped(rows, Period, One);
    var periods := Distinct(Column(rows, Period));
    GroupedFacts(rows, Period, One);
    SumOfOnes(rows);
    assert |g| == |KeysOf(g)| == |periods|;
    assert Column(rows, Period)[0] in periods;
  }

  /** `groupby(['year', 'quarter'])['visit_id'].count().mean()`, with the
      dashboard's fallback 0 for an empty frame and for an empty grouping.
      The fallback is taken exactly when no visit is left; otherwise the
      average is the number of visits over the number of distinct (year,
      quarter) periods, so at least 1 and at most the number of visits. */
  function AverageVisits(rows: seq<Visit>): (a: real)
    ensures a == 0.0 <==> rows == []
    ensures rows != [] ==>
      && a == Mean(|rows|, |Distinct(Column(rows, Period))|)
      && 1.0 <= a <= |rows| as real
  {
    if rows == [] then 0.0
    else
      var perPeriod := Grouped(rows, Period, One);
      PeriodGroups(rows);
      var n, d := |rows|, |perPeriod|;
      AtMostProduct(n, d);
      MeanWithin(n, d, 1, n);
      if perPeriod == [] then 0.0 else Mean(Total(perPeriod), |perPeriod|)
  }

  lemma {:induction false} AtMostProduct(n: nat, d: nat)
    requires d >= 1
    ensures n <= n * d
  {
    if d > 1 {
      AtMostProduct(n, d - 1);
      LinearStep(n, d - 1);
    }
  }

  predicate IsDay(v: Visit) {
    v.dayOrNight == "Day"
  }

  predicate IsNight(v: Visit) {
    v.dayOrNight == "Night"
  }

  /** Day and night visits together are at most all visits, and exactly all
      of them when every visit is marked "Day" or "Night". */
  lemma {:induction false} DayAndNightVisits(rows: seq<Visit>)
    ensures |Keep(rows, IsDay)| + |Keep(rows, IsNight)| <= |rows|
    ensures |Keep(rows, IsDay)| + |Keep(rows, IsNight)| == |rows| <==>
      forall v :: v in rows ==> IsDay(v) || IsNight(v)
  {
    if rows != [] {
      var rest := rows[1..];
      DayAndNightVisits(rest);
      assert forall v :: v in rows <==> v == rows[0] || v in rest;
      assert "Day" != "Night";
    }
  }

  // ---------------------------------------------------------------------------
  // Month labels

  /** The label `strftime('%b %Y')` writes for the month a visit was created in. */
  function LabelOf(v: Visit): string {
    Label(v.createdYear, v.createdMonth)
  }

  /** A visit whose MonthName is its creation month's label. */
  function Relabelled(v: Visit): Visit {
    v.(monthName := LabelOf(v))
  }

  /** The frame with its MonthName column rewritten. */
  function Relabel(rows: seq<Visit>): (r: seq<Visit>)
    ensures |r| == |rows|
  {
    seq(|rows|, i requires 0 <= i < |rows| => Relabelled(rows[i]))
  }

  /** Every MonthName is the label of its visit's creation month. */
  predicate Labelled(rows: seq<Visit>) {
    forall v :: v in rows ==> v.monthName == LabelOf(v)
  }

  /** `filtered_data['MonthName'] = filtered_data['visit_created_on'].dt.strftime('%b %Y')`:
      the column is overwritten in place, one row at a time. */
  method AddMonthLabels(frame: array<Visit>)
    modifies frame
    ensures frame[..] == Relabel(old(frame[..]))
  {
    for i := 0 to frame.Length
      invariant forall j :: 0 <= j < i ==> frame[j] == Relabelled(old(frame[j]))
      invariant forall j :: i <= j < frame.Length ==> frame[j] == old(frame[j])
    {
      frame[i] := Relabelled(frame[i]);
    }
  }

  /** The filtered frame loaded into an array and relabelled there. */
  method RelabelCopy(rows: seq<Visit>) returns (labelled: seq<Visit>)
    ensures labelled == Relabel(rows)
  {
    var frame := new Visit[|rows|](i requires 0 <= i < |rows| => rows[i]);
    assert frame[..] == rows;
    AddMonthLabels(frame);
    labelled := frame[..];
  }

  /** Rewriting the labels leaves a labelled frame whose MonthName column is
      the creation-month labels. */
  lemma RelabelLabels(rows: seq<Visit>)
    ensures Labelled(Relabel(rows))
    ensures Column(Relabel(rows), MonthNameOf) == Column(rows, LabelOf)
  {
    var r := Relabel(rows);
    forall v | v in r ensures v.monthName == LabelOf(v) {
      var i :| 0 <= i < |r| && r[i] == v;
    }
  }

  /** Rewriting the labels changes a frame exactly when some label is wrong. */
  lemma RelabelFixesLabelled(rows: seq<Visit>)
    ensures Relabel(rows) == rows <==> Labelled(rows)
  {
    if Labelled(rows) {
      forall i | 0 <= i < |rows| ensures Relabel(rows)[i] == rows[i] {
        assert rows[i] in rows;
      }
    }
    if Relabel(rows) == rows {
      RelabelLabels(rows);
    }
  }

  /** Rewriting the labels twice is rewriting them once. */
  lemma RelabelIdempotent(rows: seq<Visit>)
    ensures Relabel(Relabel(rows)) == Relabel(rows)
  {
    RelabelLabels(rows);
    RelabelFixesLabelled(Relabel(rows));
  }

  /** Relabelling keeps the columns the count tables read. */
  lemma RelabelKeepsColumns(rows: seq<Visit>)
    ensures Column(Relabel(rows), TypeOf) == Column(rows, TypeOf)
    ensures Column(Relabel(rows), SpecialisationOf) == Column(rows, SpecialisationOf)
    ensures Column(Relabel(rows), DayOf) == Column(rows, DayOf)
    ensures Column(Relabel(rows), TypeAndMonth) == Column(rows, TypeAndMonth)
  {
  }

  // ---------------------------------------------------------------------------
  // Visits by month

  /** `MonthName.value_counts().sort_index()`: one entry per label, in string
      order, holding the number of visits with that label. */
  function VisitsByMonth(rows: seq<Visit>): (t: seq<(string, int)>)
    ensures StrictlyAscending(KeysOf(t))
    ensures forall m :: m in KeysOf(t) <==> m in Column(rows, MonthNameOf)
  {
    GroupTotals(SortedUniqueStrings(Column(rows, MonthNameOf)), rows, MonthNameOf, One)
  }

  /** The month table lists every label that occurs, once, in string order
      (so "Apr 2024" before "Jan 2024"), counts its visits, and the counts add
      up to the number of visits. */
  lemma VisitsByMonthFacts(rows: seq<Visit>)
    ensures var t := VisitsByMonth(rows);
      && StrictlyAscending(KeysOf(t))
      && (forall m :: m in KeysOf(t) <==> m in Column(rows, MonthNameOf))
      && (forall i :: 0 <= i < |t| ==> t[i].1 == Occurrences(Column(rows, MonthNameOf), t[i].0) && t[i].1 >= 1)
      && Total(t) == |rows|
  {
    var ks := SortedUniqueStrings(Column(rows, MonthNameOf));
    AscendingHasNoDuplicates(ks);
    CountsOverKeys(ks, rows, MonthNameOf);
  }

  /** `visits_by_month.idxmax()`: the first label, in string order, with the
      most visits. The dashboard only gets here with visits left. */
  function MaxMonth(rows: seq<Visit>): (m: string)
    requires rows != []
    ensures m in Column(rows, MonthNameOf)
  {
    var t := VisitsByMonth(rows);
    VisitsByMonthFacts(rows);
    assert Column(rows, MonthNameOf)[0] in KeysOf(t);
    var k := FirstMax(t);
    assert KeysOf(t)[k] == t[k].0;
    t[k].0
  }

  /** The busiest month is a label that occurs; no label has more visits;
      and every label that sorts before it has strictly fewer. */
  lemma MaxMonthFacts(rows: seq<Visit>)
    requires rows != []
    ensures var m, col := MaxMonth(rows), Column(rows, MonthNameOf);
      && m in col
      && (forall l :: l in col ==> Occurrences(col, l) <= Occurrences(col, m))
      && (forall l :: l in col && StrBelow(l, m) ==> Occurrences(col, l) < Occurrences(col, m))
  {
    var t, col := VisitsByMonth(rows), Column(rows, MonthNameOf);
    VisitsByMonthFacts(rows);
    assert col[0] in KeysOf(t);
    var k := FirstMax(t);
    var m := t[k].0;
    assert KeysOf(t)[k] == m;
    forall l | l in col
      ensures Occurrences(col, l) <= Occurrences(col, m)
      ensures StrBelow(l, m) ==> Occurrences(col, l) < Occurrences(col, m)
    {
      var j :| 0 <= j < |t| && KeysOf(t)[j] == l;
      if StrBelow(l, m) && j >= k {
        if j == k {
          StrBelowIrreflexive(l);
        } else {
          assert StrBelow(m, l);
          StrBelowTransitive(l, m, l);
          StrBelowIrreflexive(l);
        }
      }
    }
  }

  /** `pd.to_datetime(max_month).strftime('%b %Y')`: when the busiest month
      parses, a label of that same month. */
  function MaxMonthStr(rows: seq<Visit>): (s: Option<string>)
    requires rows != []
    ensures s == None <==> ParseLabel(MaxMonth(rows)) == None
    ensures s != None ==> ParseLabel(s.value) == ParseLabel(MaxMonth(rows))
  {
    Reformat(MaxMonth(rows))
  }

  /** Once every MonthName is a "%b %Y" label, parsing and writing the busiest
      month again gives the same label. */
  lemma MaxMonthStrFacts(rows: seq<Visit>)
    requires rows != []
    requires Labelled(rows)
    ensures MaxMonthStr(rows) == Some(MaxMonth(rows))
  {
    MaxMonthFacts(rows);
    var m := MaxMonth(rows);
    var i :| 0 <= i < |rows| && Column(rows, MonthNameOf)[i] == m;
    assert rows[i] in rows;
    ReformatLabel(rows[i].createdYear, rows[i].createdMonth);
  }

  // ---------------------------------------------------------------------------
  // Visit types, specialisations and days

  /** `attending_doctor_specialisation.value_counts().head(10)`. */
  function TopSpecialisations(rows: seq<Visit>): (t: seq<(string, int)>)
    ensures |t| <= 10 && |t| <= |rows|
    ensures NonIncreasing(t)
  {
    Top(ValueCounts(rows, SpecialisationOf), 10)
  }

  /** At most ten distinct specialisations, largest first, each with its
      number of visits; all of them when fewer than ten are listed; and no
      specialisation left out has more visits than one listed. */
  lemma TopSpecialisationsFacts(rows: seq<Visit>)
    ensures var top, col := TopSpecialisations(rows), Column(rows, SpecialisationOf);
      && |top| <= 10
      && DistinctKeys(top)
      && NonIncreasing(top)
      && (|top| == 10 || forall s :: s in col ==> s in KeysOf(top))
      && (forall e :: e in top ==> e.0 in col && e.1 == Occurrences(col, e.0))
      && (forall s, e :: s in col && s !in KeysOf(top) && e in top ==> Occurrences(col, s) <= e.1)
  {
    TopCountsFacts(rows, SpecialisationOf, 10);
    TopLeavesOutFewer(rows, SpecialisationOf, 10);
  }

  /** `groupby(visit_created_on.dt.to_period('D')).size()`: one entry per
      day, in date order, holding the number of visits that day. */
  function DailyVisits(rows: seq<Visit>): (t: seq<(int, int)>)
    ensures StrictlyIncreasing(KeysOf(t))
    ensures forall d :: d in KeysOf(t) <==> d in Column(rows, DayOf)
  {
    GroupTotals(SortedUniqueInts(Column(rows, DayOf)), rows, DayOf, One)
  }

  /** The daily table lists every day with a visit, once, in date order,
      counts its visits, and the counts add up to the number of visits. */
  lemma DailyVisitsFacts(rows: seq<Visit>)
    ensures var t := DailyVisits(rows);
      && StrictlyIncreasing(KeysOf(t))
      && (forall d :: d in KeysOf(t) <==> d in Column(rows, DayOf))
      && (forall i :: 0 <= i < |t| ==> t[i].1 == Occurrences(Column(rows, DayOf), t[i].0) && t[i].1 >= 1)
      && Total(t) == |rows|
  {
    var ks := SortedUniqueInts(Column(rows, DayOf));
    assert NoDuplicates(ks);
    CountsOverKeys(ks, rows, DayOf);
  }

  // ---------------------------------------------------------------------------
  // Summary pivot

  /** A visit's visit type and `dt.month_name()` of its creation date. */
  function TypeAndMonth(v: Visit): (string, string) {
    (v.visitType, MonthName(v.createdMonth))
  }

  /** `pivot_table(values='visit_id', index='visit_type', columns='month',
      aggfunc='count')`: a cell for each (visit type, month) pair that occurs,
      holding its number of visits. A pair that never occurs has no cell. */
  function Pivot(rows: seq<Visit>): (p: map<(string, string), int>)
    ensures forall k :: k in p <==> k in Column(rows, TypeAndMonth)
    ensures forall k :: k in p ==> p[k] >= 1
  {
    var col := Column(rows, TypeAndMonth);
    assert forall k :: k in col ==> SumWhere(rows, TypeAndMonth, k, One) >= 1 by {
      forall k | k in col ensures SumWhere(rows, TypeAndMonth, k, One) >= 1 {
        CountPositive(rows, TypeAndMonth, k);
      }
    }
    map k | k in col :: SumWhere(rows, TypeAndMonth, k, One)
  }

  /** The pivot depends on the (visit type, month) column alone. */
  lemma PivotByColumn(a: seq<Visit>, b: seq<Visit>)
    requires Column(a, TypeAndMonth) == Column(b, TypeAndMonth)
    ensures Pivot(a) == Pivot(b)
  {
    forall k | k in Column(a, TypeAndMonth) ensures Pivot(a)[k] == Pivot(b)[k] {
      CountIsOccurrences(a, TypeAndMonth, k);
      CountIsOccurrences(b, TypeAndMonth, k);
    }
  }

  /** The pivot has a cell exactly for the pairs that occur, each counting the
      visits of its pair; listed once each, the cells add up to the number of
      visits. */
  lemma PivotFacts(rows: seq<Visit>)
    ensures var p, col := Pivot(rows), Column(rows, TypeAndMonth);
      && (forall k :: k in p <==> k in col)
      && (forall k :: k in p ==> p[k] == Occurrences(col, k) && p[k] >= 1)
    ensures var p, cells := Pivot(rows), Grouped(rows, TypeAndMonth, One);
      && DistinctKeys(cells)
      && (forall k :: k in p <==> k in KeysOf(cells))
      && (forall e :: e in cells ==> e.0 in p && p[e.0] == e.1)
      && Total(cells) == |rows|
  {
    var p, col := Pivot(rows), Column(rows, TypeAndMonth);
    forall k | k in p ensures p[k] == Occurrences(col, k) && p[k] >= 1 {
      CountIsOccurrences(rows, TypeAndMonth, k);
    }
    GroupedFacts(rows, TypeAndMonth, One);
    SumOfOnes(rows);
  }

  // ---------------------------------------------------------------------------
  // The tables of the relabelled frame

  /** After the labels are rewritten, the month table counts the visits of
      each creation-month label, in string order, and every visit; and the
      busiest month is the creation-month label of some visit, printed back
      unchanged. */
  lemma RelabelledMonths(shown: seq<Visit>)
    requires shown != []
    ensures var labelled := Relabel(shown);
      && VisitsByMonth(labelled) == GroupTotals(SortedUniqueStrings(Column(shown, LabelOf)), shown, LabelOf, One)
      && Total(VisitsByMonth(labelled)) == |shown|
      && MaxMonth(labelled) in Column(shown, LabelOf)
      && MaxMonthStr(labelled) == Some(MaxMonth(labelled))
  {
    var labelled := Relabel(shown);
    RelabelLabels(shown);
    CountsByColumn(SortedUniqueStrings(Column(shown, LabelOf)), labelled, MonthNameOf, shown, LabelOf);
    VisitsByMonthFacts(labelled);
    MaxMonthFacts(labelled);
    MaxMonthStrFacts(labelled);
  }

  /** Rewriting the labels changes none of the visit type, specialisation,
      day and pivot tables: they are those of the frame as filtered. */
  lemma RelabelledCounts(shown: seq<Visit>)
    ensures var labelled := Relabel(shown);
      && ValueCounts(labelled, TypeOf) == ValueCounts(shown, TypeOf)
      && TopSpecialisations(labelled) == TopSpecialisations(shown)
      && DailyVisits(labelled) == DailyVisits(shown)
      && Pivot(labelled) == Pivot(shown)
  {
    var labelled := Relabel(shown);
    RelabelKeepsColumns(shown);
    ValueCountsByColumn(labelled, TypeOf, shown, TypeOf);
    ValueCountsByColumn(labelled, SpecialisationOf, shown, SpecialisationOf);
    CountsByColumn(SortedUniqueInts(Column(shown, DayOf)), labelled, DayOf, shown, DayOf);
    PivotByColumn(labelled, shown);
  }

  // ---------------------------------------------------------------------------
  // The whole dashboard

  /** What the dashboard shows: an error when no visit is left, otherwise the
      counts and tables of the remaining visits. */
  datatype Report =
    | NoData
    | Report(
        description: string,
        totalVisits: int,
        dayVisits: int,
        nightVisits: int,
        averageVisits: real,
        visitsByMonth: seq<(string, int)>,
        maxMonth: string,
        maxMonthStr: string,
        visitTypes: seq<(string, int)>,
        topSpecialisations: seq<(string, int)>,
        dailyVisits: seq<(int, int)>,
        pivot: map<(string, string), int>)

  /** One run of the dashboard for the picked dates and multiselects. It
      reports no data exactly when no visit in the window passes the
      filters; otherwise the counts describe the remaining visits, the
      busiest month is counted over creation-month labels and printed back
      unchanged, and the count tables add up to the number of visits. */
  method Dashboard(df: seq<Visit>, date1: int, date2: int, sel: Selection) returns (report: Report)
    ensures report.NoData? <==> Filtered(Between(df, VisitDateOf, date1, date2), sel) == []
    ensures date1 > date2 ==> report.NoData?
    ensures report.Report? ==>
      var shown := Filtered(Between(df, VisitDateOf, date1, date2), sel);
      && report.totalVisits == |shown| >= 1
      && report.dayVisits == |Keep(shown, IsDay)|
      && report.nightVisits == |Keep(shown, IsNight)|
      && report.dayVisits + report.nightVisits <= report.totalVisits
      && report.averageVisits == Mean(|shown|, |Distinct(Column(shown, Period))|)
      && 1.0 <= report.averageVisits <= report.totalVisits as real
      && report.averageVisits == AverageVisits(shown)
      && report.description == Describe(Described(sel))
      && (report.description == "All Data" <==>
            sel.years == [] && sel.quarters == [] && sel.months == [] && sel.visitTypes == [])
      && report.visitsByMonth == VisitsByMonth(Relabel(shown))
      && Total(report.visitsByMonth) == report.totalVisits
      && report.maxMonth == MaxMonth(Relabel(shown))
      && report.maxMonth in Column(shown, LabelOf)
      && report.maxMonthStr == report.maxMonth
      && report.visitTypes == ValueCounts(shown, TypeOf)
      && report.topSpecialisations == TopSpecialisations(shown)
      && report.dailyVisits == DailyVisits(shown)
      && report.pivot == Pivot(shown)
      && Total(report.visitTypes) == report.totalVisits && NonIncreasing(report.visitTypes)
      && |report.topSpecialisations| <= 10 && NonIncreasing(report.topSpecialisations)
      && Total(report.dailyVisits) == report.totalVisits
      && (forall k :: k in report.pivot <==> k in Column(shown, TypeAndMonth))
  {
    var windowed := Between(df, VisitDateOf, date1, date2);
    var filtered := ApplyFilters(windowed, sel);
    var averageVisits := AverageVisits(filtered);
    var description := BuildDescription(sel);
    if filtered == [] {
      return NoData;
    }
    var totalVisits := |filtered|;
    var dayVisits := |Keep(filtered, IsDay)|;
    var nightVisits := |Keep(filtered, IsNight)|;
    DayAndNightVisits(filtered);

    var labelled := RelabelCopy(filtered);
    RelabelledMonths(filtered);
    RelabelledCounts(filtered);
    ValueCountsFacts(filtered, TypeOf);
    DailyVisitsFacts(filtered);

    var visitsByMonth := VisitsByMonth(labelled);
    var maxMonth := MaxMonth(labelled);
    var maxMonthStr := MaxMonthStr(labelled).value;
    var visitTypes := ValueCounts(labelled, TypeOf);
    var topSpecialisations := TopSpecialisations(labelled);
    var dailyVisits := DailyVisits(labelled);
    var pivot := Pivot(labelled);
    report := Report(description, totalVisits, dayVisits, nightVisits, averageVisits,
                     visitsByMonth, maxMonth, maxMonthStr, visitTypes, topSpecialisations,
                     dailyVisits, pivot);
  }
}
