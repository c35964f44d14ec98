/** The claims dashboard (Claims.py): the claims created between two picked
    dates, narrowed by six sidebar multiselects, summarised by headline
    metrics and by grouped tables. */
module Claims {
  import opened Frames
  import opened Groups
  import opened Order
  import opened Text
  import opened Calendar

  /** One row of the claims workbook, with the columns the dashboard reads. */
  datatype Claim = Claim(
    created: int,         // Claim Created Date, as a point in time
    year: int,            // Year
    month: string,        // Month, a month name such as "March"
    status: string,       // Claim Status
    source: string,       // Source, shown as the provider type
    employer: string,     // Employer Name
    provider: string,     // Provider Name
    claimType: string,    // Claim Type
    amount: int,          // Claim Amount
    approvedAmount: int)  // Approved Claim Amount

  function CreatedOf(c: Claim): int { c.created }
  function YearOf(c: Claim): int { c.year }
  function MonthOf(c: Claim): string { c.month }
  function StatusOf(c: Claim): string { c.status }
  function SourceOf(c: Claim): string { c.source }
  function EmployerOf(c: Claim): string { c.employer }
  function ProviderOf(c: Claim): string { c.provider }
  function TypeOf(c: Claim): string { c.claimType }
  function AmountOf(c: Claim): int { c.amount }
  function ApprovedAmountOf(c: Claim): int { c.approvedAmount }

  // ---------------------------------------------------------------------------
  // Sidebar

  /** The values picked in the six multiselects, each in the order picked. */
  datatype Selection = Selection(
    years: seq<int>,
    months: seq<string>,
    statuses: seq<string>,
    sources: seq<string>,
    employers: seq<string>,
    providers: seq<string>)

  /** What the six multiselects offer. */
  datatype Options = Options(
    years: seq<int>,
    months: seq<string>,
    statuses: seq<string>,
    sources: seq<string>,
    employers: seq<string>,
    providers: seq<string>)

  /** The options offered for the claims in the date window: every year and
      month that occurs, sorted, and every status, provider type, employer and
      provider that occurs, once each in order of first appearance. */
  function SidebarOptions(df: seq<Claim>): (o: Options)
    ensures StrictlyIncreasing(o.years) && forall y :: y in o.years <==> y in Column(df, YearOf)
    ensures StrictlyAscending(o.months) && forall m :: m in o.months <==> m in Column(df, MonthOf)
    ensures NoDuplicates(o.statuses) && forall s :: s in o.statuses <==> s in Column(df, StatusOf)
    ensures NoDuplicates(o.sources) && forall s :: s in o.sources <==> s in Column(df, SourceOf)
    ensures NoDuplicates(o.employers) && forall e :: e in o.employers <==> e in Column(df, EmployerOf)
    ensures NoDuplicates(o.providers) && forall p :: p in o.providers <==> p in Column(df, ProviderOf)
  {
    Options(
      SortedUniqueInts(Column(df, YearOf)),
      SortedUniqueStrings(Column(df, MonthOf)),
      Distinct(Column(df, StatusOf)),
      Distinct(Column(df, SourceOf)),
      Distinct(Column(df, EmployerOf)),
      Distinct(Column(df, ProviderOf)))
  }

  // ---------------------------------------------------------------------------
  // Filtering

  /** The first `k` multiselects, in the order the dashboard applies them
      (year, month, status, provider type, employer, provider), all admit `c`. */
  predicate PassesFirst(c: Claim, sel: Selection, k: nat) {
    && (k >= 1 ==> Admits(sel.years, c.year))
    && (k >= 2 ==> Admits(sel.months, c.month))
    && (k >= 3 ==> Admits(sel.statuses, c.status))
    && (k >= 4 ==> Admits(sel.sources, c.source))
    && (k >= 5 ==> Admits(sel.employers, c.employer))
    && (k >= 6 ==> Admits(sel.providers, c.provider))
  }

  /** Every multiselect admits `c`. */
  predicate Passes(c: Claim, sel: Selection) {
    PassesFirst(c, sel, 6)
  }

  /** The mask of the first `k` multiselects. */
  function Stage(sel: Selection, k: nat): Claim -> bool {
    c => PassesFirst(c, sel, k)
  }

  /** Each stage adds one multiselect to the one before. */
  lemma StagesAdd(sel: Selection)
    ensures forall c :: Stage(sel, 1)(c) == (Stage(sel, 0)(c) && Admits(sel.years, YearOf(c)))
    ensures forall c :: Stage(sel, 2)(c) == (Stage(sel, 1)(c) && Admits(sel.months, MonthOf(c)))
    ensures forall c :: Stage(sel, 3)(c) == (Stage(sel, 2)(c) && Admits(sel.statuses, StatusOf(c)))
    ensures forall c :: Stage(sel, 4)(c) == (Stage(sel, 3)(c) && Admits(sel.sources, SourceOf(c)))
    ensures forall c :: Stage(sel, 5)(c) == (Stage(sel, 4)(c) && Admits(sel.employers, EmployerOf(c)))
    ensures forall c :: Stage(sel, 6)(c) == (Stage(sel, 5)(c) && Admits(sel.providers, ProviderOf(c)))
  {
  }

  /** The claims every multiselect admits, in their original order. */
  function Filtered(df: seq<Claim>, sel: Selection): seq<Claim> {
    Keep(df, Stage(sel, 6))
  }

  /** The frame left by the filters holds exactly the claims every
      multiselect admits, every copy of each, in their original order. */
  lemma FilteredFacts(df: seq<Claim>, sel: Selection)
    ensures forall c :: c in Filtered(df, sel) <==> c in df && Passes(c, sel)
    ensures forall c :: Occurrences(Filtered(df, sel), c) == if Passes(c, sel) then Occurrences(df, c) else 0
    ensures IsSubsequence(Filtered(df, sel), df)
  {
    KeepIsSubsequence(df, Stage(sel, 6));
    KeepCopies(df, Stage(sel, 6));
  }

  /** The six filter steps, one after the other: each non-empty multiselect
      keeps the rows whose field is among its values. Together they keep
      the claims every multiselect admits, and with nothing selected the
      frame is unchanged. */
  method ApplyFilters(df: seq<Claim>, sel: Selection) returns (filtered: seq<Claim>)
    ensures filtered == Filtered(df, sel)
    ensures sel == Selection([], [], [], [], [], []) ==> filtered == df
  {
    StagesAdd(sel);
    filtered := df;
    KeepEverything(df, Stage(sel, 0));
    if sel.years != [] {
      filtered := Keep(filtered, IsIn(YearOf, sel.years));
    }
    NarrowStep(df, Stage(sel, 0), YearOf, sel.years, Stage(sel, 1));
    assert filtered == Keep(df, Stage(sel, 1));
    if sel.months != [] {
      filtered := Keep(filtered, IsIn(MonthOf, sel.months));
    }
    NarrowStep(df, Stage(sel, 1), MonthOf, sel.months, Stage(sel, 2));
    assert filtered == Keep(df, Stage(sel, 2));
    if sel.statuses != [] {
      filtered := Keep(filtered, IsIn(StatusOf, sel.statuses));
    }
    NarrowStep(df, Stage(sel, 2), StatusOf, sel.statuses, Stage(sel, 3));
    assert filtered == Keep(df, Stage(sel, 3));
    if sel.sources != [] {
      filtered := Keep(filtered, IsIn(SourceOf, sel.sources));
    }
    NarrowStep(df, Stage(sel, 3), SourceOf, sel.sources, Stage(sel, 4));
    assert filtered == Keep(df, Stage(sel, 4));
    if sel.employers != [] {
      filtered := Keep(filtered, IsIn(EmployerOf, sel.employers));
    }
    NarrowStep(df, Stage(sel, 4), EmployerOf, sel.employers, Stage(sel, 5));
    assert filtered == Keep(df, Stage(sel, 5));
    if sel.providers != [] {
      filtered := Keep(filtered, IsIn(ProviderOf, sel.providers));
    }
    NarrowStep(df, Stage(sel, 5), ProviderOf, sel.providers, Stage(sel, 6));
    if sel == Selection([], [], [], [], [], []) {
      KeepEverything(df, Stage(sel, 6));
    }
  }

  /** The multiselects the description covers, in the order it lists them
      (year, month, status), years written with `str`. */
  function Described(sel: Selection): (d: seq<seq<string>>)
    ensures |d| == 3
  {
    [Decimals(sel.years), sel.months, sel.statuses]
  }

  /** The described multiselects are all empty exactly when no year, month or
      status is picked. */
  lemma DescribedNothing(sel: Selection)
    ensures NothingSelected(Described(sel)) <==> sel.years == [] && sel.months == [] && sel.statuses == []
  {
    var d := Described(sel);
    assert d[0] == Decimals(sel.years) && d[1] == sel.months && d[2] == sel.statuses;
  }

  /** The description before its fallback: the segment of each described
      multiselect, appended in order. */
  method AppendSegments(years: seq<string>, months: seq<string>, statuses: seq<string>) returns (segments: string)
    ensures segments == Segments([years, months, statuses])
  {
    var done: seq<seq<string>> := [];
    segments := "";
    segments := AddSegment(segments, done, years);
    done := done + [years];
    segments := AddSegment(segments, done, months);
    done := done + [months];
    segments := AddSegment(segments, done, statuses);
    done := done + [statuses];
    assert done[0] == years && done[1] == months && done[2] == statuses;
    assert done == [years, months, statuses];
  }

  /** The title of the average metric: the picked years, months and statuses,
      each list joined by ", " and followed by a space, or "All Data" when
      none of the three has a value picked. The provider type, employer and
      provider picks are not described. */
  method BuildDescription(sel: Selection) returns (description: string)
    ensures description == Describe(Described(sel))
    ensures description == "All Data" <==> sel.years == [] && sel.months == [] && sel.statuses == []
  {
    description := AppendSegments(Decimals(sel.years), sel.months, sel.statuses);
    var described := Described(sel);
    if description == "" {
      description := "All Data";
    }
    DescribeAllDataIff(described);
    DescribedNothing(sel);
  }

  // ---------------------------------------------------------------------------
  // Headline metrics

  predicate IsApproved(c: Claim) {
    c.status == "Approved"
  }

  /** The share of claims whose status is exactly "Approved", in percent: it
      is 100 exactly when every claim is approved and 0 exactly when none is. */
  function ApprovalPercentage(rows: seq<Claim>): (p: real)
    requires rows != []
    ensures 0.0 <= p <= 100.0
    ensures p == 100.0 <==> forall c :: c in rows ==> IsApproved(c)
    ensures p == 0.0 <==> forall c :: c in rows ==> !IsApproved(c)
  {
    var approved := Keep(rows, IsApproved);
    KeepAllIff(rows, IsApproved);
    assert approved == [] <==> forall c :: c in rows ==> !IsApproved(c) by {
      if approved != [] {
        assert approved[0] in approved;
      }
    }
    ShareOfWhole(|approved|, |rows|);
    (|approved| as real) / (|rows| as real) * 100.0
  }

  /** The claimed total over the number of claims, and 0 when there are no claims. */
  function AverageClaimAmount(rows: seq<Claim>): (a: real)
    ensures rows != [] ==> a * (|rows| as real) == SumOf(rows, AmountOf) as real
    ensures rows == [] ==> a == 0.0
  {
    if |rows| > 0 then Mean(SumOf(rows, AmountOf), |rows|) else 0.0
  }

  /** The average claim lies between the smallest and the largest claim amount. */
  lemma AverageWithinAmounts(rows: seq<Claim>, lo: int, hi: int)
    requires rows != []
    requires forall c :: c in rows ==> lo <= c.amount <= hi
    ensures lo as real <= AverageClaimAmount(rows) <= hi as real
  {
    assert forall i :: 0 <= i < |rows| ==> rows[i] in rows;
    SumOfBounds(rows, AmountOf, lo, hi);
    MeanWithin(SumOf(rows, AmountOf), |rows|, lo, hi);
  }

  // ---------------------------------------------------------------------------
  // Claim types

  /** Each claim type's share of all claims, in percent, in the order of
      `value_counts()`; the shares add up to 100. */
  function ClaimTypePercentages(rows: seq<Claim>): (p: seq<real>)
    requires rows != []
    ensures |p| == |ValueCounts(rows, TypeOf)|
    ensures SumReals(p) == 100.0
  {
    var t := ValueCounts(rows, TypeOf);
    ValueCountsFacts(rows, TypeOf);
    PercentagesOfTotal(t);
    Percentages(t, Total(t))
  }

  // ---------------------------------------------------------------------------
  // Average claim amount by month and claim type

  /** One row of the month-by-type table. Its month is a category of
      `months_order`, or None (NaN) for a name outside the calendar. */
  datatype MonthTypeRow = MonthTypeRow(month: Option<string>, claimType: string, averageAmount: real, claims: int)

  function MonthAndType(c: Claim): (string, string) {
    (c.month, c.claimType)
  }

  /** `pd.Categorical(name, categories=months_order)`: a calendar month name
      is kept, any other name becomes NaN. */
  function Categorised(name: string): (c: Option<string>)
    ensures c == None <==> name !in MonthsOrder
    ensures c != None ==> c.value == name
  {
    if name in MonthsOrder then Some(name) else None
  }

  /** The row of the (month, claim type) pair `k`, which occurs in `rows`:
      its categorised month, its claim type, its number of claims and their
      mean amount. */
  function GroupRow(rows: seq<Claim>, k: (string, string)): (r: MonthTypeRow)
    requires k in Column(rows, MonthAndType)
    ensures r.month == Categorised(k.0) && r.claimType == k.1
    ensures r.claims >= 1
  {
    var n := SumWhere(rows, MonthAndType, k, One);
    CountPositive(rows, MonthAndType, k);
    MonthTypeRow(Categorised(k.0), k.1, Mean(SumWhere(rows, MonthAndType, k, AmountOf), n), n)
  }

  /** One row per pair, in the order of `keys`. */
  function GroupRows(rows: seq<Claim>, keys: seq<(string, string)>): (t: seq<MonthTypeRow>)
    requires forall k :: k in keys ==> k in Column(rows, MonthAndType)
    ensures |t| == |keys|
    ensures forall i :: 0 <= i < |t| ==> t[i] == GroupRow(rows, keys[i])
  {
    if keys == [] then [] else [GroupRow(rows, keys[0])] + GroupRows(rows, keys[1..])
  }

  /** A row's place under `sort_values('Month')`: its month's place in the
      calendar, and NaN last. */
  function MonthRank(r: MonthTypeRow): int {
    match r.month
    case None => 12
    case Some(name) => CalendarRank(name)
  }

  /** `groupby(['Month', 'Claim Type'])` with the mean amount and the claim
      count, its months made categories of `months_order`, sorted by month. */
  function ClaimsByMonthType(rows: seq<Claim>): (t: seq<MonthTypeRow>)
    ensures |t| <= |rows|
  {
    var keys := Distinct(Column(rows, MonthAndType));
    SortBy(GroupRows(rows, keys), MonthRank)
  }

  /** A row counts the claims of its pair. */
  lemma GroupRowCount(rows: seq<Claim>, k: (string, string))
    requires k in Column(rows, MonthAndType)
    ensures GroupRow(rows, k).claims == Occurrences(Column(rows, MonthAndType), k)
  {
    CountIsOccurrences(rows, MonthAndType, k);
  }

  /** A row holds the mean amount of its pair's claims. */
  lemma GroupRowMean(rows: seq<Claim>, k: (string, string))
    requires k in Column(rows, MonthAndType)
    ensures GroupRow(rows, k).claims >= 1
    ensures GroupRow(rows, k).averageAmount == Mean(SumWhere(rows, MonthAndType, k, AmountOf), GroupRow(rows, k).claims)
  {
  }

  /** Row `a` may precede row `b` in the month-by-type table. */
  predicate MonthNotAfter(a: MonthTypeRow, b: MonthTypeRow) {
    if a.month == None then b.month == None
    else b.month == None || CalendarRank(a.month.value) <= CalendarRank(b.month.value)
  }

  /** Rows whose months are categories, listed by non-decreasing rank, run
      through the calendar with the NaN months last. */
  lemma SortedMonths(t: seq<MonthTypeRow>)
    requires Ordered(t, MonthRank)
    requires forall r :: r in t ==> r.month != None ==> CalendarRank(r.month.value) < 12
    ensures forall i, j :: 0 <= i < j < |t| ==> MonthNotAfter(t[i], t[j])
  {
    forall i, j | 0 <= i < j < |t| ensures MonthNotAfter(t[i], t[j]) {
      assert t[i] in t && t[j] in t;
      assert MonthRank(t[i]) <= MonthRank(t[j]);
    }
  }

  /** Every row of the month-by-type table is the row of a pair that occurs. */
  lemma RowsOfPairs(rows: seq<Claim>)
    ensures forall r :: r in ClaimsByMonthType(rows) ==>
      exists k :: k in Column(rows, MonthAndType) && r == GroupRow(rows, k)
  {
    var col := Column(rows, MonthAndType);
    var keys := Distinct(col);
    var unsorted := GroupRows(rows, keys);
    forall r | r in ClaimsByMonthType(rows) ensures exists k :: k in col && r == GroupRow(rows, k) {
      assert r in multiset(unsorted);
      var i :| 0 <= i < |unsorted| && unsorted[i] == r;
      assert keys[i] in col && r == GroupRow(rows, keys[i]);
    }
  }

  /** The month-by-type table runs January to December, and the rows whose
      month is NaN come last. */
  lemma ClaimsByMonthTypeOrder(rows: seq<Claim>)
    ensures var t := ClaimsByMonthType(rows);
      forall i, j :: 0 <= i < j < |t| ==> MonthNotAfter(t[i], t[j])
  {
    var t := ClaimsByMonthType(rows);
    RowsOfPairs(rows);
    forall r | r in t ensures r.month != None ==> CalendarRank(r.month.value) < 12 {
      var k :| k in Column(rows, MonthAndType) && r == GroupRow(rows, k);
    }
    SortedMonths(t);
  }

  /** The month-by-type table holds one row for each (month, claim type) pair
      that occurs, and no other. */
  lemma ClaimsByMonthTypeGroups(rows: seq<Claim>)
    ensures var t, col := ClaimsByMonthType(rows), Column(rows, MonthAndType);
      && |t| == |Distinct(col)|
      && (forall k :: k in col ==> GroupRow(rows, k) in t)
  {
    var col := Column(rows, MonthAndType);
    var keys := Distinct(col);
    var unsorted := GroupRows(rows, keys);
    var t := ClaimsByMonthType(rows);
    assert |multiset(t)| == |multiset(unsorted)|;
    forall k | k in col ensures GroupRow(rows, k) in t {
      var i :| 0 <= i < |keys| && keys[i] == k;
      assert unsorted[i] in multiset(unsorted);
    }
  }

  /** Each row of the month-by-type table is the row of a pair that occurs:
      it counts that pair's claims and holds their mean amount. */
  lemma ClaimsByMonthTypeRows(rows: seq<Claim>)
    ensures var col := Column(rows, MonthAndType);
      forall r :: r in ClaimsByMonthType(rows) ==> exists k :: (
        && k in col && r == GroupRow(rows, k)
        && r.month == Categorised(k.0) && r.claimType == k.1
        && r.claims == Occurrences(col, k)
        && r.averageAmount == Mean(SumWhere(rows, MonthAndType, k, AmountOf), r.claims))
  {
    var col := Column(rows, MonthAndType);
    RowsOfPairs(rows);
    forall r | r in ClaimsByMonthType(rows)
      ensures exists k :: (
        && k in col && r == GroupRow(rows, k)
        && r.month == Categorised(k.0) && r.claimType == k.1
        && r.claims == Occurrences(col, k)
        && r.averageAmount == Mean(SumWhere(rows, MonthAndType, k, AmountOf), r.claims))
    {
      var k :| k in col && r == GroupRow(rows, k);
      GroupRowCount(rows, k);
      GroupRowMean(rows, k);
    }
  }

  // ---------------------------------------------------------------------------
  // The whole dashboard

  /** What the dashboard shows: an error when no claim is left, otherwise the
      metrics and tables of the remaining claims. */
  datatype Report =
    | NoData
    | Report(
        description: string,
        totalClaimedAmount: int,
        totalClaims: int,
        approvedClaimAmount: int,
        approvalPercentage: real,
        averageClaimAmount: real,
        claimTypes: seq<(string, int)>,
        claimTypePercentages: seq<real>,
        claimSources: seq<(string, int)>,
        claimsByMonthType: seq<MonthTypeRow>,
        providerClaims: seq<(string, int)>,
        employerClaims: seq<(string, int)>)

  /** One run of the dashboard for the picked dates and multiselects. It
      reports no data exactly when no claim in the window passes the
      filters; otherwise every metric and table is computed from the
      remaining claims, the average is never the fallback 0 of an empty
      frame, the count tables add up to the number of claims and the amount
      tables to the claimed total. */
  method Dashboard(df: seq<Claim>, date1: int, date2: int, sel: Selection) returns (report: Report)
    ensures report.NoData? <==> Filtered(Between(df, CreatedOf, date1, date2), sel) == []
    ensures date1 > date2 ==> report.NoData?
    ensures report.Report? ==>
      var shown := Filtered(Between(df, CreatedOf, date1, date2), sel);
      && report.totalClaims == |shown| >= 1
      && report.totalClaimedAmount == SumOf(shown, AmountOf)
      && report.approvedClaimAmount == SumOf(shown, ApprovedAmountOf)
      && report.averageClaimAmount == Mean(report.totalClaimedAmount, report.totalClaims)
      && 0.0 <= report.approvalPercentage <= 100.0
      && report.approvalPercentage == ApprovalPercentage(shown)
      && report.description == Describe(Described(sel))
      && (report.description == "All Data" <==> sel.years == [] && sel.months == [] && sel.statuses == [])
      && report.claimTypes == ValueCounts(shown, TypeOf)
      && report.claimTypePercentages == ClaimTypePercentages(shown)
      && report.claimSources == ValueCounts(shown, SourceOf)
      && report.claimsByMonthType == ClaimsByMonthType(shown)
      && report.providerClaims == SumsDescending(shown, ProviderOf, AmountOf)
      && report.employerClaims == SumsDescending(shown, EmployerOf, AmountOf)
      && Total(report.claimTypes) == report.totalClaims && NonIncreasing(report.claimTypes)
      && SumReals(report.claimTypePercentages) == 100.0
      && Total(report.claimSources) == report.totalClaims && NonIncreasing(report.claimSources)
      && Total(report.providerClaims) == report.totalClaimedAmount && NonIncreasing(report.providerClaims)
      && Total(report.employerClaims) == report.totalClaimedAmount && NonIncreasing(report.employerClaims)
  {
    var windowed := Between(df, CreatedOf, date1, date2);
    var filtered := ApplyFilters(windowed, sel);
    if filtered == [] {
      return NoData;
    }
    var description := BuildDescription(sel);
    var totalClaimedAmount := SumOf(filtered, AmountOf);
    var totalClaims := |filtered|;
    var approvedClaimAmount := SumOf(filtered, ApprovedAmountOf);
    var approvalPercentage := ApprovalPercentage(filtered);
    var averageClaimAmount := AverageClaimAmount(filtered);
    var claimTypes := ValueCounts(filtered, TypeOf);
    ValueCountsFacts(filtered, TypeOf);
    var claimTypePercentages := ClaimTypePercentages(filtered);
    var claimSources := ValueCounts(filtered, SourceOf);
    ValueCountsFacts(filtered, SourceOf);
    var claimsByMonthType := ClaimsByMonthType(filtered);
    var providerClaims := SumsDescending(filtered, ProviderOf, AmountOf);
    SumsDescendingFacts(filtered, ProviderOf, AmountOf);
    var employerClaims := SumsDescending(filtered, EmployerOf, AmountOf);
    SumsDescendingFacts(filtered, EmployerOf, AmountOf);
    report := Report(description, totalClaimedAmount, totalClaims, approvedClaimAmount,
                     approvalPercentage, averageClaimAmount, claimTypes, claimTypePercentages,
                     claimSources, claimsByMonthType, providerClaims, employerClaims);
  }
}
