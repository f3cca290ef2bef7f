/** The analytics screen: sign-ups and registrations counted per date bucket,
    registrations counted per category (top six, coloured), per-program
    labels and counts, the mock revenue series and the CSV export. */
module AdminAnalytics {
  import opened Wrappers
  import opened Strings
  import opened Dicts
  import opened Sorting
  import opened Lists
  import opened Tallies
  import Csv

  /** The range dropdown. */
  datatype TimeRange = Days7 | Days30 | Days90 | Year1

  /** One point of a series: a bucket label and how many rows fell in it. */
  datatype Point = Point(date: string, count: nat)

  function Points(d: Dict<nat>): (r: seq<Point>)
    ensures |r| == |d| && forall i :: 0 <= i < |d| ==> r[i] == Point(d[i].0, d[i].1)
  {
    seq(|d|, i requires 0 <= i < |d| => Point(d[i].0, d[i].1))
  }

  function PointsSum(ps: seq<Point>): nat {
    if ps == [] then 0 else ps[0].count + PointsSum(ps[1..])
  }

  lemma {:induction false} PointsSumIsSum(d: Dict<nat>)
    ensures PointsSum(Points(d)) == Sum(d)
  {
    if d != [] {
      PointsSumIsSum(d[1..]);
      assert Points(d)[1..] == Points(d[1..]);
    }
  }

  /** The bucket key of each row: `bucket(range, createdAt)` stands for the
      locale-formatted day, week start or month of the row's date. */
  function BucketKeys(createdAt: seq<string>, range: TimeRange, bucket: (TimeRange, string) -> string): (r: seq<string>)
    ensures |r| == |createdAt| && forall i :: 0 <= i < |createdAt| ==> r[i] == bucket(range, createdAt[i])
  {
    seq(|createdAt|, i requires 0 <= i < |createdAt| => bucket(range, createdAt[i]))
  }

  /** `processTimeSeriesData`: count the rows per bucket, in first-seen order. */
  method ProcessTimeSeriesData(createdAt: seq<string>, range: TimeRange, bucket: (TimeRange, string) -> string)
    returns (series: seq<Point>)
    ensures series == Points(Tally(BucketKeys(createdAt, range, bucket)))
  {
    var counts := TallyKeys(BucketKeys(createdAt, range, bucket));
    series := Points(counts);
  }

  /** The bucket counts add up to the number of rows, and each bucket holds
      exactly the rows whose key it is. */
  lemma TimeSeriesTotals(createdAt: seq<string>, range: TimeRange, bucket: (TimeRange, string) -> string, key: string)
    ensures PointsSum(Points(Tally(BucketKeys(createdAt, range, bucket)))) == |createdAt|
    ensures Lookup(Tally(BucketKeys(createdAt, range, bucket)), key).GetOr(0)
              == Occurrences(BucketKeys(createdAt, range, bucket), key)
  {
    var keys := BucketKeys(createdAt, range, bucket);
    TallySum(keys);
    PointsSumIsSum(Tally(keys));
    TallyCount(keys, key);
  }

  // ---------------------------------------------------------------------------
  // Categories
  // ---------------------------------------------------------------------------

  const CategoryColors: seq<string> := ["#3b82f6", "#10b981", "#f59e0b", "#ef4444", "#8b5cf6", "#06b6d4"]

  datatype CategoryPoint = CategoryPoint(name: string, value: nat, color: string)

  /** The entries with their colours, fixed by first-appearance position. */
  function Colored(d: Dict<nat>): (r: seq<CategoryPoint>)
    ensures |r| == |d|
    ensures forall i :: 0 <= i < |d| ==> r[i] == CategoryPoint(d[i].0, d[i].1, CategoryColors[i % 6])
  {
    seq(|d|, i requires 0 <= i < |d| => CategoryPoint(d[i].0, d[i].1, CategoryColors[i % 6]))
  }

  function ByValue(p: CategoryPoint): int { p.value }

  /** `processCategoryData`: count, colour, sort by count (largest first,
      ties in first-seen order), keep six. */
  method ProcessCategoryData(categories: seq<string>) returns (top: seq<CategoryPoint>)
    ensures top == Take(SortDesc(Colored(Tally(categories)), ByValue), 6)
  {
    var counts := TallyKeys(categories);
    top := Take(SortDesc(Colored(counts), ByValue), 6);
  }

  /** The six most counted categories (all of them when there are fewer),
      largest count first, each carrying the colour its category got from its
      first-appearance position, and none of the dropped categories counted
      more than a kept one. */
  lemma TopCategories(categories: seq<string>)
    ensures var all := SortDesc(Colored(Tally(categories)), ByValue);
            var top := Take(all, 6);
            && |top| == (if |Tally(categories)| <= 6 then |Tally(categories)| else 6)
            && top == all[..|top|]
            && SortedDesc(top, ByValue)
            && (forall p | p in top :: exists i :: 0 <= i < |Tally(categories)| && p == Colored(Tally(categories))[i])
            && (forall i, j | 0 <= i < |top| <= j < |all| :: top[i].value >= all[j].value)
  {
    var colored := Colored(Tally(categories));
    var all := SortDesc(colored, ByValue);
    var top := Take(all, 6);
    assert |multiset(all)| == |multiset(colored)|;
    TakeSorted(all, 6, ByValue);
    forall p | p in top ensures exists i :: 0 <= i < |colored| && p == colored[i] {
      assert p in multiset(all);
      assert p in multiset(colored);
      assert p in colored;
    }
    forall i, j | 0 <= i < |top| <= j < |all| ensures top[i].value >= all[j].value {
      assert top[i] == all[i];
      assert ByValue(all[i]) >= ByValue(all[j]);
    }
  }

  /** Categories with the same count keep their first-seen order through the
      sort. */
  lemma CategoryTiesInFirstSeenOrder(categories: seq<string>, count: int)
    ensures Filter(SortDesc(Colored(Tally(categories)), ByValue), KeyIs(ByValue, count)) ==
              Filter(Colored(Tally(categories)), KeyIs(ByValue, count))
  {
    SortStable(Colored(Tally(categories)), ByValue, count);
  }

  /** Before truncation the category counts add up to the number of
      registrations. */
  lemma CategoryTotals(categories: seq<string>)
    ensures Sum(Tally(categories)) == |categories|
  {
    TallySum(categories);
  }

  // ---------------------------------------------------------------------------
  // Programs
  // ---------------------------------------------------------------------------

  /** A program row with its nested counts (`None`: the count is missing). */
  datatype ProgramRow = ProgramRow(name: string, applications: Option<nat>, enrollments: Option<nat>)

  datatype ProgramStat = ProgramStat(name: string, applications: nat, enrollments: nat)

  /** `name.substring(0, 15) + (name.length > 15 ? '...' : '')`, with the
      length and the cut counted in UTF-16 code units. */
  function ProgramLabel(name: string): (r: string)
    ensures JsLength(name) <= 15 ==> r == name
    ensures JsLength(name) > 15 ==>
              && 4 <= |r| < |name| + 3 && r[..|r| - 3] == name[..|r| - 3] && r[|r| - 3..] == "..."
              && 14 <= JsLength(r[..|r| - 3]) <= 15
    ensures (forall k :: 0 <= k < |name| ==> name[k] as int <= 0xFFFF) && |name| > 15 ==>
              r == name[..15] + "..."
  {
    if JsLength(name) > 15 then
      JsPrefixBmpWhenBmp(name);
      var p := JsPrefix(name, 15);
      assert p != name;
      assert |p| < |name|;
      assert (p + "...")[..|p|] == p;
      p + "..."
    else name
  }

  lemma JsPrefixBmpWhenBmp(name: string)
    ensures (forall k :: 0 <= k < |name| ==> name[k] as int <= 0xFFFF) && |name| > 15 ==>
              JsPrefix(name, 15) == name[..15]
  {
    if (forall k :: 0 <= k < |name| ==> name[k] as int <= 0xFFFF) && |name| > 15 {
      JsPrefixBmp(name, 15);
    }
  }

  /** `count || 0`: a missing count is 0. */
  function ProgramStatOf(p: ProgramRow): (s: ProgramStat)
    ensures s.applications == (if p.applications.Some? then p.applications.value else 0)
    ensures s.enrollments == (if p.enrollments.Some? then p.enrollments.value else 0)
  {
    ProgramStat(ProgramLabel(p.name), p.applications.GetOr(0), p.enrollments.GetOr(0))
  }

  function ProgramStats(ps: seq<ProgramRow>): (r: seq<ProgramStat>)
    ensures |r| == |ps| && forall i :: 0 <= i < |ps| ==> r[i] == ProgramStatOf(ps[i])
  {
    seq(|ps|, i requires 0 <= i < |ps| => ProgramStatOf(ps[i]))
  }

  // ---------------------------------------------------------------------------
  // Mock revenue and export
  // ---------------------------------------------------------------------------

  function MockPeriods(range: TimeRange): nat {
    match range
    case Days7 => 7
    case Days30 => 30
    case Days90 => 12
    case Year1 => 12
  }

  /** A mock point: how many days (short ranges) or months back it lies. */
  datatype MockPoint = MockPoint(back: nat, inDays: bool)

  /** `generateMockRevenueData` without its random amounts: one point per
      period, oldest first, the last one today. */
  method GenerateMockRevenueData(range: TimeRange) returns (data: seq<MockPoint>)
    ensures |data| == MockPeriods(range)
    ensures forall i :: 0 <= i < |data| ==>
              data[i] == MockPoint(MockPeriods(range) - 1 - i, range == Days7 || range == Days30)
  {
    var periods := MockPeriods(range);
    data := [];
    var i := 0;
    while i < periods
      invariant 0 <= i <= periods && |data| == i
      invariant forall j :: 0 <= j < i ==> data[j] == MockPoint(periods - 1 - j, range == Days7 || range == Days30)
    {
      data := data + [MockPoint(periods - 1 - i, range == Days7 || range == Days30)];
      i := i + 1;
    }
  }

  const AnalyticsHeader: seq<string> := ["Metric", "Value", "Date"]

  function SeriesRows(metric: string, ps: seq<Point>): (r: seq<seq<string>>)
    ensures |r| == |ps| && forall i :: 0 <= i < |ps| ==> r[i] == [metric, NatToString(ps[i].count), ps[i].date]
  {
    seq(|ps|, i requires 0 <= i < |ps| => [metric, NatToString(ps[i].count), ps[i].date])
  }

  /** `exportAnalytics`: the header, the sign-up rows, then the registration rows. */
  function ExportRows(userGrowth: seq<Point>, registrationTrends: seq<Point>): (rows: seq<seq<string>>)
    ensures |rows| == 1 + |userGrowth| + |registrationTrends| && rows[0] == AnalyticsHeader
    ensures forall i :: 0 <= i < |userGrowth| ==>
              rows[1 + i] == ["User Signups", NatToString(userGrowth[i].count), userGrowth[i].date]
    ensures forall j :: 0 <= j < |registrationTrends| ==>
              rows[1 + |userGrowth| + j] ==
                ["Business Registrations", NatToString(registrationTrends[j].count), registrationTrends[j].date]
  {
    [AnalyticsHeader] + SeriesRows("User Signups", userGrowth) + SeriesRows("Business Registrations", registrationTrends)
  }

  /** The export has one row per point after the header, sign-ups first,
      and every row has three columns. */
  lemma ExportShape(u: seq<Point>, t: seq<Point>)
    ensures var rows := ExportRows(u, t);
            && |rows| == 1 + |u| + |t| && rows[0] == AnalyticsHeader
            && rows[1..1 + |u|] == SeriesRows("User Signups", u)
            && rows[1 + |u|..] == SeriesRows("Business Registrations", t)
            && (forall i :: 0 <= i < |rows| ==> |rows[i]| == 3)
  {
    var rows := ExportRows(u, t);
    var a, b := SeriesRows("User Signups", u), SeriesRows("Business Registrations", t);
    var head: seq<seq<string>> := [AnalyticsHeader];
    assert rows == (head + a) + b;
    assert rows[1..1 + |u|] == a;
    assert rows[1 + |u|..] == b;
    forall i | 0 <= i < |rows| ensures |rows[i]| == 3 {
      if 1 <= i < 1 + |u| {
        assert rows[i] == a[i - 1];
      } else if i >= 1 + |u| {
        assert rows[i] == b[i - 1 - |u|];
      }
    }
  }

  /** The fixed texts of the export hold no separator. */
  lemma LabelsPlain()
    ensures Csv.PlainRows([AnalyticsHeader])
    ensures Csv.PlainField("User Signups") && Csv.PlainField("Business Registrations")
  {
    var texts := ["Metric", "Value", "Date", "User Signups", "Business Registrations"];
    forall j | 0 <= j < 5 ensures Csv.PlainField(texts[j]) {
      var f := texts[j];
      forall k | 0 <= k < |f| ensures f[k] != ',' && f[k] != '\n' {
        assert 'A' <= f[k] <= 'z' || f[k] == ' ';
      }
    }
    assert Csv.PlainField(texts[3]) && Csv.PlainField(texts[4]);
    assert AnalyticsHeader == texts[..3];
  }

  lemma SeriesRowsPlain(metric: string, ps: seq<Point>)
    requires Csv.PlainField(metric)
    requires forall i :: 0 <= i < |ps| ==> Csv.PlainField(ps[i].date)
    ensures Csv.PlainRows(SeriesRows(metric, ps))
  {
    var rows := SeriesRows(metric, ps);
    forall i, j | 0 <= i < |rows| && 0 <= j < |rows[i]| ensures Csv.PlainField(rows[i][j]) {
      Csv.NumberPlain(ps[i].count);
    }
  }

  /** With date labels free of `,` and line breaks, the export reads back. */
  lemma ExportRoundTrip(u: seq<Point>, t: seq<Point>)
    requires forall i :: 0 <= i < |u| ==> Csv.PlainField(u[i].date)
    requires forall i :: 0 <= i < |t| ==> Csv.PlainField(t[i].date)
    ensures Csv.Parse(Csv.Document(ExportRows(u, t))) == ExportRows(u, t)
  {
    var header: seq<seq<string>> := [AnalyticsHeader];
    LabelsPlain();
    SeriesRowsPlain("User Signups", u);
    SeriesRowsPlain("Business Registrations", t);
    Csv.PlainRowsConcat(header, SeriesRows("User Signups", u));
    Csv.PlainRowsConcat(header + SeriesRows("User Signups", u), SeriesRows("Business Registrations", t));
    ExportShape(u, t);
    Csv.CsvRoundTrip(ExportRows(u, t));
  }

  /** The state of the analytics screen after a load. */
  class AnalyticsPage {
    var timeRange: TimeRange
    var loading: bool
    var userGrowth: seq<Point>
    var programStats: seq<ProgramStat>
    var registrationTrends: seq<Point>
    var revenueData: seq<MockPoint>
    var topCategories: seq<CategoryPoint>

    constructor ()
      ensures timeRange == Days30 && loading
      ensures userGrowth == [] && programStats == [] && registrationTrends == []
      ensures revenueData == [] && topCategories == []
    {
      timeRange := Days30;
      loading := true;
      userGrowth, programStats, registrationTrends := [], [], [];
      revenueData, topCategories := [], [];
    }

    /** `loadAnalyticsData`: each query result may be missing (`data` is
        `null`), and then counts as no rows. `users` are sign-up times;
        `registrations` are (created_at, business_category) pairs. */
    method LoadAnalyticsData(users: Option<seq<string>>, programs: Option<seq<ProgramRow>>,
                             registrations: Option<seq<(string, string)>>,
                             bucket: (TimeRange, string) -> string)
      modifies this
      ensures timeRange == old(timeRange) && !loading
      ensures userGrowth == Points(Tally(BucketKeys(users.GetOr([]), timeRange, bucket)))
      ensures registrationTrends == Points(Tally(BucketKeys(CreatedAts(registrations.GetOr([])), timeRange, bucket)))
      ensures programStats == ProgramStats(programs.GetOr([]))
      ensures topCategories == Take(SortDesc(Colored(Tally(Categories(registrations.GetOr([])))), ByValue), 6)
      ensures |revenueData| == MockPeriods(timeRange)
    {
      loading := true;
      var regs := registrations.GetOr([]);
      var range := timeRange;
      var growth := ProcessTimeSeriesData(users.GetOr([]), range, bucket);
      var trends := ProcessTimeSeriesData(CreatedAts(regs), range, bucket);
      var categories := ProcessCategoryData(Categories(regs));
      var revenue := GenerateMockRevenueData(range);
      userGrowth, programStats, registrationTrends := growth, ProgramStats(programs.GetOr([])), trends;
      revenueData, topCategories := revenue, categories;
      loading := false;
    }
  }

  function CreatedAts(regs: seq<(string, string)>): (r: seq<string>)
    ensures |r| == |regs| && forall i :: 0 <= i < |regs| ==> r[i] == regs[i].0
  {
    seq(|regs|, i requires 0 <= i < |regs| => regs[i].0)
  }

  function Categories(regs: seq<(string, string)>): (r: seq<string>)
    ensures |r| == |regs| && forall i :: 0 <= i < |regs| ==> r[i] == regs[i].1
  {
    seq(|regs|, i requires 0 <= i < |regs| => regs[i].1)
  }
}
