/** The performance regression gate: loading and merging reports, the per-cell limits,
    the four-size aggregates and the final verdict, in exact arithmetic. */
module RegressionGate {
  import opened Options
  import Report
  import Text
  import RP = ResultPipeline

  type Key = Report.Key
  type Metric = RP.Metric

  datatype Num = Finite(value: real) | NonFinite
  type Cells = map<Key, Num>

  const REQUIRED_SIZES: seq<int> := [64, 256, 1024, 65536]

  predicate HigherIsBetter(m: Metric) { m.Throughput? || m.Bandwidth? }

  // --- loading ---

  /** A parsed report as the gate sees it: its cells, and whether parsing found a
      repeated cell or another error. */
  datatype Input = Input(cells: Cells, duplicates: seq<Key>, issues: nat)

  datatype LoadError = WithinReport(report: nat) | AcrossReports(report: nat, key: Key)

  predicate Clean(r: Input) { r.duplicates == [] && r.issues == 0 }

  /** What the parser hands to the gate. */
  function InputOf(p: Report.Parsed): Input {
    Input(map k | k in p.cells :: Finite(Text.Value(p.cells[k])),
          p.duplicates, |p.issues|)
  }

  /** A printed report is clean for the gate exactly when it has a cell, nothing was
      skipped or failed and it is complete (unsupported cells do not count); the gate
      compares the printed values. */
  lemma PrintedReportIsClean(before: seq<string>, results: Report.Results, keys: seq<Key>, t: Report.Totals,
                             after: seq<string>)
    requires Report.Listed(results, keys) && Report.AllPrintable(keys) && Report.Distinct(keys)
    requires Report.AllPassive(before) && Report.AllPassive(after)
    ensures var lines := Report.PrintedReport(before, results, keys, t, after);
      var r := InputOf(Report.FinalChecks(Report.AddLines(Report.BLANK, lines)));
      && (Clean(r) <==>
            && keys != [] && t.skip == 0 && t.fail == 0 && t.expected == t.actual
            && Report.Sections(before) + Report.Sections(after) == [])
      && (forall k :: k in r.cells <==> k in keys)
      && (forall k :: k in keys ==>
            r.cells[k] == Finite(Text.Value(Text.Number(results[k], Report.Places(k.metric)))))
  {
    Report.ReportRoundTrip(before, results, keys, t, after);
    var cells := Report.AsNumbers(results, keys);
    assert keys != [] ==> keys[0] in cells;
    assert keys == [] ==> cells == map[];
  }

  /** No report has errors and no two share a cell. */
  ghost predicate Loadable(reports: seq<Input>) {
    && (forall i :: 0 <= i < |reports| ==> Clean(reports[i]))
    && (forall i, j :: 0 <= i < j < |reports| ==> reports[i].cells.Keys !! reports[j].cells.Keys)
  }

  /** All cells; the first report that has a cell provides its value. */
  function Combined(reports: seq<Input>): Cells
    decreases |reports|
  {
    if reports == [] then map[]
    else
      var last := |reports| - 1;
      reports[last].cells + Combined(reports[..last])
  }

  lemma {:induction false} CombinedKeys(reports: seq<Input>, k: Key)
    ensures k in Combined(reports) <==> exists i :: 0 <= i < |reports| && k in reports[i].cells
    decreases |reports|
  {
    if reports != [] {
      var last := |reports| - 1;
      CombinedKeys(reports[..last], k);
      assert forall i :: 0 <= i < last ==> reports[..last][i] == reports[i];
    }
  }

  /** In a loadable set every report keeps all its cells in the combination. */
  lemma {:induction false} NothingIsLost(reports: seq<Input>, i: nat, k: Key)
    requires Loadable(reports) && i < |reports| && k in reports[i].cells
    ensures k in Combined(reports) && Combined(reports)[k] == reports[i].cells[k]
    decreases |reports|
  {
    var last := |reports| - 1;
    var init := reports[..last];
    assert forall j :: 0 <= j < last ==> init[j] == reports[j];
    if i < last {
      NothingIsLost(init, i, k);
    } else {
      CombinedKeys(init, k);
      assert forall j :: 0 <= j < last ==> reports[j].cells.Keys !! reports[last].cells.Keys;
    }
  }

  /** Adding one more report keeps the set loadable when it is clean and brings only new cells. */
  lemma LoadableStep(reports: seq<Input>, r: Input)
    ensures Loadable(reports + [r])
       <==> Loadable(reports) && Clean(r) && Combined(reports).Keys !! r.cells.Keys
  {
    var all, combined := reports + [r], Combined(reports);
    assert forall i :: 0 <= i < |reports| ==> all[i] == reports[i];
    assert all[|reports|] == r;
    forall k ensures k in combined <==> exists i :: 0 <= i < |reports| && k in reports[i].cells {
      CombinedKeys(reports, k);
    }
    if Loadable(all) {
      forall k | k in combined ensures k !in r.cells {
        var i :| 0 <= i < |reports| && k in reports[i].cells;
        assert all[i].cells.Keys !! all[|reports|].cells.Keys;
      }
    }
    if Loadable(reports) && Clean(r) && combined.Keys !! r.cells.Keys {
      forall i, j | 0 <= i < j < |all| ensures all[i].cells.Keys !! all[j].cells.Keys {
        if j == |reports| {
          forall k | k in reports[i].cells ensures k !in r.cells { assert k in combined; }
        }
      }
    }
  }

  /** The inner loop of `load_reports`: new cells are added, known ones reported. */
  method AddReport(combined: Cells, r: Input, index: nat) returns (all: Cells, errors: seq<LoadError>)
    ensures all == r.cells + combined
    ensures errors == [] <==> combined.Keys !! r.cells.Keys
  {
    all, errors := combined, [];
    var todo := r.cells.Keys;
    while todo != {}
      invariant todo <= r.cells.Keys
      invariant all == (map k | k in r.cells && k !in todo :: r.cells[k]) + combined
      invariant errors == [] <==> forall k :: k in r.cells && k !in todo ==> k !in combined
      decreases todo
    {
      var key :| key in todo;
      if key in all {
        errors := errors + [AcrossReports(index, key)];
      } else {
        all := all[key := r.cells[key]];
      }
      todo := todo - {key};
    }
    assert (map k | k in r.cells && k !in todo :: r.cells[k]) == r.cells;
  }

  /** `load_reports`: no error exactly when every report is clean and no cell occurs in
      two of them; the first report with a cell provides its value. */
  method LoadReports(reports: seq<Input>) returns (combined: Cells, errors: seq<LoadError>)
    ensures errors == [] <==> Loadable(reports)
    ensures combined == Combined(reports)
  {
    combined, errors := map[], [];
    for i := 0 to |reports|
      invariant errors == [] <==> Loadable(reports[..i])
      invariant combined == Combined(reports[..i])
    {
      var r := reports[i];
      LoadableStep(reports[..i], r);
      assert reports[..i + 1] == reports[..i] + [r] && reports[..i + 1][..i] == reports[..i];
      if !Clean(r) { errors := errors + [WithinReport(i)]; }
      var all, overlaps := AddReport(combined, r, i);
      combined, errors := all, errors + overlaps;
    }
    assert reports[..|reports|] == reports;
  }

  // --- per-cell comparison ---

  datatype CellStatus = Pass | MissingBaseline | MissingCandidate | NotFinite | BaselineZero | Regression

  datatype CellVerdict = CellVerdict(suite: string, key: Key, ratio: Option<real>, status: CellStatus)

  /** The two values can be divided. */
  predicate Comparable(b: Cells, c: Cells, k: Key) {
    k in b && k in c && b[k].Finite? && c[k].Finite? && b[k].value != 0.0
  }

  function Ratio(b: Cells, c: Cells, k: Key): real
    requires Comparable(b, c, k)
  {
    c[k].value / b[k].value
  }

  predicate WithinLimit(m: Metric, ratio: real) {
    if HigherIsBetter(m) then ratio >= 0.95 else ratio <= 1.05
  }

  function Verdict(suite: string, b: Cells, c: Cells, k: Key): CellVerdict {
    if k !in b then CellVerdict(suite, k, None, MissingBaseline)
    else if k !in c then CellVerdict(suite, k, None, MissingCandidate)
    else if !b[k].Finite? || !c[k].Finite? then CellVerdict(suite, k, None, NotFinite)
    else if b[k].value == 0.0 then CellVerdict(suite, k, None, BaselineZero)
    else
      var ratio := c[k].value / b[k].value;
      CellVerdict(suite, k, Some(ratio), if WithinLimit(k.metric, ratio) then Pass else Regression)
  }

  ghost predicate FromPair(suite: string, b: Cells, c: Cells, v: CellVerdict) {
    v.key in b.Keys + c.Keys && v == Verdict(suite, b, c, v.key)
  }

  /** The status of a cell names what is wrong with it: one side missing, a value that is not
      finite, a zero to divide by, or a ratio out of bounds. */
  lemma VerdictNames(suite: string, b: Cells, c: Cells, k: Key)
    requires k in b.Keys + c.Keys
    ensures var v := Verdict(suite, b, c, k);
      && (v.status.MissingBaseline? <==> k !in b)
      && (v.status.MissingCandidate? <==> k !in c)
      && (v.status.Regression? <==> Comparable(b, c, k) && !WithinLimit(k.metric, Ratio(b, c, k)))
      && (v.status.BaselineZero? ==> b[k] == Finite(0.0))
      && (v.status.NotFinite? ==> k in b && k in c && (b[k] == NonFinite || c[k] == NonFinite))
      && (v.ratio.Some? <==> Comparable(b, c, k))
  {
  }

  /** `compare_reports`: one verdict for every cell of either side. */
  method CompareReports(suite: string, b: Cells, c: Cells) returns (verdicts: seq<CellVerdict>)
    ensures |verdicts| == |b.Keys + c.Keys|
    ensures forall v :: v in verdicts <==> FromPair(suite, b, c, v)
  {
    verdicts := [];
    var todo := b.Keys + c.Keys;
    while todo != {}
      invariant todo <= b.Keys + c.Keys && |verdicts| + |todo| == |b.Keys + c.Keys|
      invariant forall v :: v in verdicts <==> FromPair(suite, b, c, v) && v.key !in todo
      decreases todo
    {
      var k :| k in todo;
      todo := todo - {k};
      assert FromPair(suite, b, c, Verdict(suite, b, c, k));
      verdicts := verdicts + [Verdict(suite, b, c, k)];
    }
  }

  // --- aggregates ---

  datatype Series = Series(suite: string, pattern: string, transport: string)
  datatype Group = Group(series: Series, metric: Metric)
  datatype AggregateStatus = AggregatePass | MissingSizes | UnavailableRatios | AggregateRegression
  datatype AggregateVerdict = AggregateVerdict(group: Group, status: AggregateStatus)

  function SeriesOf(v: CellVerdict): Series {
    Series(v.suite, v.key.pattern, v.key.transport)
  }

  function GroupOf(v: CellVerdict): Group {
    Group(SeriesOf(v), v.key.metric)
  }

  function Product(ratios: seq<real>): real {
    if ratios == [] then 1.0 else ratios[0] * Product(ratios[1..])
  }

  /** The geometric mean is on the right side of 1 exactly when the product is. */
  predicate RightSide(m: Metric, product: real) {
    if HigherIsBetter(m) then product >= 1.0 else product <= 1.0
  }

  predicate Available(v: CellVerdict) { v.ratio.Some? && v.ratio.value >= 0.0 }

  type SizeMap = map<int, CellVerdict>

  function SizeMapStatus(m: Metric, cells: SizeMap): AggregateStatus {
    if exists i :: 0 <= i < |REQUIRED_SIZES| && REQUIRED_SIZES[i] !in cells then MissingSizes
    else if exists i :: 0 <= i < |REQUIRED_SIZES| && !Available(cells[REQUIRED_SIZES[i]]) then UnavailableRatios
    else
      var ratios := seq(|REQUIRED_SIZES|, i requires 0 <= i < |REQUIRED_SIZES| => cells[REQUIRED_SIZES[i]].ratio.value);
      if RightSide(m, Product(ratios)) then AggregatePass else AggregateRegression
  }

  /** The last verdict of a group at a size. */
  function LastFor(verdicts: seq<CellVerdict>, g: Group, size: int): Option<CellVerdict>
    decreases |verdicts|
  {
    if verdicts == [] then None
    else
      var last := |verdicts| - 1;
      if GroupOf(verdicts[last]) == g && verdicts[last].key.size == size then Some(verdicts[last])
      else LastFor(verdicts[..last], g, size)
  }

  ghost predicate Seen(verdicts: seq<CellVerdict>, s: Series) {
    exists i :: 0 <= i < |verdicts| && SeriesOf(verdicts[i]) == s
  }

  function Cell(cells: SizeMap, size: int): Option<CellVerdict> {
    if size in cells then Some(cells[size]) else None
  }

  /** A size map holds the last verdict of its group at every required size. */
  ghost predicate Filled(cells: SizeMap, verdicts: seq<CellVerdict>, g: Group) {
    forall size :: size in REQUIRED_SIZES ==> Cell(cells, size) == LastFor(verdicts, g, size)
  }

  ghost predicate Grouped(groups: map<Group, SizeMap>, seen: seq<CellVerdict>, verdicts: seq<CellVerdict>) {
    && (forall g :: g in groups <==> Seen(seen, g.series))
    && (forall g :: g in groups ==> Filled(groups[g], verdicts, g))
  }

  function AllGroups(verdicts: seq<CellVerdict>): set<Group> {
    set v, m | v in verdicts && m in RP.METRICS :: Group(SeriesOf(v), m)
  }

  function EmptyGroups(verdicts: seq<CellVerdict>): map<Group, SizeMap> {
    map g | g in AllGroups(verdicts) :: map[]
  }

  lemma EmptyGroupsAreSeen(verdicts: seq<CellVerdict>)
    ensures Grouped(EmptyGroups(verdicts), verdicts, [])
  {
    RP.EveryMetricIsListed();
    forall g ensures g in EmptyGroups(verdicts) <==> Seen(verdicts, g.series) {
      if Seen(verdicts, g.series) {
        var i :| 0 <= i < |verdicts| && SeriesOf(verdicts[i]) == g.series;
        assert verdicts[i] in verdicts && g.metric in RP.METRICS;
        assert g == Group(SeriesOf(verdicts[i]), g.metric);
      }
    }
  }

  function AddToGroup(groups: map<Group, SizeMap>, v: CellVerdict): map<Group, SizeMap>
    requires GroupOf(v) in groups
  {
    if v.key.size in REQUIRED_SIZES then groups[GroupOf(v) := groups[GroupOf(v)][v.key.size := v]] else groups
  }

  lemma FilledStep(cells: SizeMap, verdicts: seq<CellVerdict>, g: Group, v: CellVerdict)
    requires Filled(cells, verdicts, g)
    ensures GroupOf(v) == g ==> Filled(cells[v.key.size := v], verdicts + [v], g)
    ensures GroupOf(v) != g || v.key.size !in REQUIRED_SIZES ==> Filled(cells, verdicts + [v], g)
  {
    assert (verdicts + [v])[..|verdicts|] == verdicts;
  }

  lemma GroupedStep(groups: map<Group, SizeMap>, seen: seq<CellVerdict>, verdicts: seq<CellVerdict>, v: CellVerdict)
    requires Grouped(groups, seen, verdicts) && v in seen
    ensures GroupOf(v) in groups
    ensures Grouped(AddToGroup(groups, v), seen, verdicts + [v])
  {
    assert Seen(seen, GroupOf(v).series);
    var after := AddToGroup(groups, v);
    forall g | g in after ensures Filled(after[g], verdicts + [v], g) {
      FilledStep(groups[g], verdicts, g, v);
    }
  }

  /** A group passes when its last verdict at each required size has a ratio of at least
      zero and the product of the four ratios is on the right side of 1. */
  ghost predicate GroupPasses(verdicts: seq<CellVerdict>, g: Group) {
    && (forall i :: 0 <= i < |REQUIRED_SIZES| ==>
          var v := LastFor(verdicts, g, REQUIRED_SIZES[i]);
          v.Some? && Available(v.value))
    && RightSide(g.metric, Product(GroupRatios(verdicts, g)))
  }

  ghost predicate SomeSizeMissing(verdicts: seq<CellVerdict>, g: Group) {
    exists i :: 0 <= i < |REQUIRED_SIZES| && LastFor(verdicts, g, REQUIRED_SIZES[i]).None?
  }

  ghost predicate SomeRatioUnavailable(verdicts: seq<CellVerdict>, g: Group) {
    exists i :: 0 <= i < |REQUIRED_SIZES| && LastFor(verdicts, g, REQUIRED_SIZES[i]).Some?
                && !Available(LastFor(verdicts, g, REQUIRED_SIZES[i]).value)
  }

  /** The status names what is wrong with the group, a missing size before a ratio that is
      missing or negative. */
  ghost predicate Judged(status: AggregateStatus, verdicts: seq<CellVerdict>, g: Group) {
    && (status.AggregatePass? <==> GroupPasses(verdicts, g))
    && (status.MissingSizes? <==> SomeSizeMissing(verdicts, g))
    && (status.UnavailableRatios? <==> !SomeSizeMissing(verdicts, g) && SomeRatioUnavailable(verdicts, g))
  }

  ghost function RatioOf(v: Option<CellVerdict>): real {
    if v.Some? && v.value.ratio.Some? then v.value.ratio.value else 0.0
  }

  ghost function GroupRatios(verdicts: seq<CellVerdict>, g: Group): seq<real> {
    seq(|REQUIRED_SIZES|, i requires 0 <= i < |REQUIRED_SIZES| => RatioOf(LastFor(verdicts, g, REQUIRED_SIZES[i])))
  }

  lemma StatusOfGroup(cells: SizeMap, verdicts: seq<CellVerdict>, g: Group)
    requires Filled(cells, verdicts, g)
    ensures Judged(SizeMapStatus(g.metric, cells), verdicts, g)
  {
    forall i | 0 <= i < |REQUIRED_SIZES|
      ensures Cell(cells, REQUIRED_SIZES[i]) == LastFor(verdicts, g, REQUIRED_SIZES[i])
    {
      assert REQUIRED_SIZES[i] in REQUIRED_SIZES;
    }
    if forall i :: 0 <= i < |REQUIRED_SIZES| ==> REQUIRED_SIZES[i] in cells && Available(cells[REQUIRED_SIZES[i]]) {
      var ratios := seq(|REQUIRED_SIZES|, i requires 0 <= i < |REQUIRED_SIZES| => cells[REQUIRED_SIZES[i]].ratio.value);
      assert ratios == GroupRatios(verdicts, g);
    }
  }

  /** The verdicts on the groups that were formed. */
  method JudgeGroups(groups: map<Group, SizeMap>, verdicts: seq<CellVerdict>) returns (aggregates: seq<AggregateVerdict>)
    requires Grouped(groups, verdicts, verdicts)
    ensures forall a :: a in aggregates ==> a.group in groups
    ensures forall a :: a in aggregates ==> Judged(a.status, verdicts, a.group)
    ensures forall g :: g in groups ==> exists a :: a in aggregates && a.group == g
  {
    aggregates := [];
    var todo := groups.Keys;
    while todo != {}
      invariant todo <= groups.Keys
      invariant forall a :: a in aggregates ==> a.group in groups
      invariant forall a :: a in aggregates ==> Judged(a.status, verdicts, a.group)
      invariant forall g :: g in groups && g !in todo ==> exists a :: a in aggregates && a.group == g
      decreases todo
    {
      var g :| g in todo;
      StatusOfGroup(groups[g], verdicts, g);
      var a := AggregateVerdict(g, SizeMapStatus(g.metric, groups[g]));
      ghost var before := aggregates;
      aggregates := aggregates + [a];
      assert a in aggregates && forall x :: x in before ==> x in aggregates;
      todo := todo - {g};
    }
  }

  /** `compare_aggregates`: one aggregate for every series seen and each of the five
      metrics, passing exactly when the group passes. */
  method CompareAggregates(verdicts: seq<CellVerdict>) returns (aggregates: seq<AggregateVerdict>)
    ensures forall a :: a in aggregates ==> Seen(verdicts, a.group.series)
    ensures forall a :: a in aggregates ==> Judged(a.status, verdicts, a.group)
    ensures forall g: Group :: Seen(verdicts, g.series) ==> exists a :: a in aggregates && a.group == g
  {
    var groups := EmptyGroups(verdicts);
    EmptyGroupsAreSeen(verdicts);
    for i := 0 to |verdicts|
      invariant Grouped(groups, verdicts, verdicts[..i])
    {
      GroupedStep(groups, verdicts, verdicts[..i], verdicts[i]);
      assert verdicts[..i + 1] == verdicts[..i] + [verdicts[i]];
      groups := AddToGroup(groups, verdicts[i]);
    }
    assert verdicts[..|verdicts|] == verdicts;
    aggregates := JudgeGroups(groups, verdicts);
  }

  // --- the verdict ---

  /** One suite's baseline and candidate reports. */
  datatype Suite = Suite(name: string, baseline: seq<Input>, candidate: seq<Input>)

  function SizeKey(p: string, t: string, m: Metric, i: nat): Key
    requires i < |REQUIRED_SIZES|
  {
    Report.Key(p, t, REQUIRED_SIZES[i], m)
  }

  ghost function Ratios(b: Cells, c: Cells, p: string, t: string, m: Metric): seq<real> {
    seq(|REQUIRED_SIZES|, i requires 0 <= i < |REQUIRED_SIZES| =>
      var k := SizeKey(p, t, m, i);
      if Comparable(b, c, k) then Ratio(b, c, k) else 0.0)
  }

  /** All four required sizes can be compared, and the product of the ratios is on the
      right side of 1. */
  ghost predicate SeriesPasses(b: Cells, c: Cells, p: string, t: string, m: Metric) {
    && (forall i :: 0 <= i < |REQUIRED_SIZES| ==>
          Comparable(b, c, SizeKey(p, t, m, i)) && Ratio(b, c, SizeKey(p, t, m, i)) >= 0.0)
    && RightSide(m, Product(Ratios(b, c, p, t, m)))
  }

  ghost predicate AggregatesPass(b: Cells, c: Cells) {
    forall k: Key, m: Metric :: k in b.Keys + c.Keys ==> SeriesPasses(b, c, k.pattern, k.transport, m)
  }

  predicate CellPasses(b: Cells, c: Cells, k: Key) {
    Comparable(b, c, k) && WithinLimit(k.metric, Ratio(b, c, k))
  }

  ghost predicate CellsPass(b: Cells, c: Cells) {
    b.Keys == c.Keys && forall k :: k in b ==> CellPasses(b, c, k)
  }

  ghost predicate PairPasses(b: Cells, c: Cells) {
    CellsPass(b, c) && AggregatesPass(b, c)
  }

  ghost predicate FromSuite(s: Suite, v: CellVerdict) {
    FromPair(s.name, Combined(s.baseline), Combined(s.candidate), v)
  }

  ghost predicate FromSuites(suites: seq<Suite>, v: CellVerdict) {
    exists j :: 0 <= j < |suites| && FromSuite(suites[j], v)
  }

  /** The verdicts are those of all cells of all suites. */
  ghost predicate Covers(suites: seq<Suite>, verdicts: seq<CellVerdict>) {
    forall v :: v in verdicts <==> FromSuites(suites, v)
  }

  predicate DistinctNames(suites: seq<Suite>) {
    forall i, j :: 0 <= i < j < |suites| ==> suites[i].name != suites[j].name
  }

  ghost predicate SuitePasses(s: Suite) {
    Loadable(s.baseline) && Loadable(s.candidate) && PairPasses(Combined(s.baseline), Combined(s.candidate))
  }

  ghost predicate SuiteLoads(s: Suite) {
    Loadable(s.baseline) && Loadable(s.candidate)
  }

  lemma {:induction false} LastForFinds(verdicts: seq<CellVerdict>, g: Group, size: int)
    ensures match LastFor(verdicts, g, size)
      case Some(v) => v in verdicts && GroupOf(v) == g && v.key.size == size
      case None => forall v :: v in verdicts ==> GroupOf(v) != g || v.key.size != size
    decreases |verdicts|
  {
    if verdicts != [] {
      var last := |verdicts| - 1;
      LastForFinds(verdicts[..last], g, size);
      assert verdicts == verdicts[..last] + [verdicts[last]];
    }
  }

  lemma VerdictIsThere(suites: seq<Suite>, verdicts: seq<CellVerdict>, j: nat, k: Key)
    requires j < |suites| && Covers(suites, verdicts)
    requires k in Combined(suites[j].baseline).Keys + Combined(suites[j].candidate).Keys
    ensures var v := Verdict(suites[j].name, Combined(suites[j].baseline), Combined(suites[j].candidate), k);
      v in verdicts && GroupOf(v) == Group(Series(suites[j].name, k.pattern, k.transport), k.metric) && v.key == k
  {
    var v := Verdict(suites[j].name, Combined(suites[j].baseline), Combined(suites[j].candidate), k);
    assert FromSuite(suites[j], v);
    assert FromSuites(suites, v);
  }

  /** A verdict of the suite's name on the cell is the one of that suite. */
  lemma OnlyVerdict(suites: seq<Suite>, verdicts: seq<CellVerdict>, j: nat, v: CellVerdict)
    requires j < |suites| && DistinctNames(suites) && Covers(suites, verdicts) && v in verdicts && v.suite == suites[j].name
    ensures FromSuite(suites[j], v)
  {
    assert FromSuites(suites, v);
    var i :| 0 <= i < |suites| && FromSuite(suites[i], v);
    VerdictOfSuite(suites[i], v);
    SameNameSameSuite(suites, i, j);
  }

  lemma VerdictOfSuite(s: Suite, v: CellVerdict)
    requires FromSuite(s, v)
    ensures v.suite == s.name
  {
  }

  lemma SameNameSameSuite(suites: seq<Suite>, i: nat, j: nat)
    requires DistinctNames(suites) && i < |suites| && j < |suites| && suites[i].name == suites[j].name
    ensures i == j
  {
  }

  /** Within a suite there is exactly one verdict for a cell of either side. */
  lemma VerdictOfCell(suites: seq<Suite>, verdicts: seq<CellVerdict>, j: nat, k: Key)
    requires j < |suites| && DistinctNames(suites) && Covers(suites, verdicts)
    ensures var b, c := Combined(suites[j].baseline), Combined(suites[j].candidate);
      LastFor(verdicts, Group(Series(suites[j].name, k.pattern, k.transport), k.metric), k.size)
      == if k in b.Keys + c.Keys then Some(Verdict(suites[j].name, b, c, k)) else None
  {
    var s := suites[j];
    var g := Group(Series(s.name, k.pattern, k.transport), k.metric);
    LastForFinds(verdicts, g, k.size);
    if k in Combined(s.baseline).Keys + Combined(s.candidate).Keys { VerdictIsThere(suites, verdicts, j, k); }
    match LastFor(verdicts, g, k.size) {
      case Some(v) =>
        OnlyVerdict(suites, verdicts, j, v);
        assert v.key == k;
      case None =>
    }
  }

  lemma VerdictMeaning(suite: string, b: Cells, c: Cells, k: Key)
    ensures var v := Verdict(suite, b, c, k);
      && (v.status == Pass <==> CellPasses(b, c, k))
      && (v.ratio == if Comparable(b, c, k) then Some(Ratio(b, c, k)) else None)
  {
  }

  lemma GroupMeaning(suites: seq<Suite>, verdicts: seq<CellVerdict>, j: nat, p: string, t: string, m: Metric)
    requires j < |suites| && DistinctNames(suites) && Covers(suites, verdicts)
    ensures GroupPasses(verdicts, Group(Series(suites[j].name, p, t), m))
       <==> SeriesPasses(Combined(suites[j].baseline), Combined(suites[j].candidate), p, t, m)
  {
    var b, c := Combined(suites[j].baseline), Combined(suites[j].candidate);
    var g := Group(Series(suites[j].name, p, t), m);
    forall i | 0 <= i < |REQUIRED_SIZES|
      ensures var v, k := LastFor(verdicts, g, REQUIRED_SIZES[i]), SizeKey(p, t, m, i);
        && RatioOf(v) == (if Comparable(b, c, k) then Ratio(b, c, k) else 0.0)
        && (v.Some? && Available(v.value) <==> Comparable(b, c, k) && Ratio(b, c, k) >= 0.0)
    {
      VerdictOfCell(suites, verdicts, j, SizeKey(p, t, m, i));
      VerdictMeaning(suites[j].name, b, c, SizeKey(p, t, m, i));
    }
    assert GroupRatios(verdicts, g) == Ratios(b, c, p, t, m);
  }

  ghost predicate AllCellsPass(verdicts: seq<CellVerdict>) {
    forall v :: v in verdicts ==> v.status == Pass
  }

  ghost predicate AllGroupsPass(verdicts: seq<CellVerdict>) {
    forall g: Group :: Seen(verdicts, g.series) ==> GroupPasses(verdicts, g)
  }

  lemma CellsMeaning(suites: seq<Suite>, verdicts: seq<CellVerdict>)
    requires Covers(suites, verdicts)
    ensures AllCellsPass(verdicts)
       <==> forall j :: 0 <= j < |suites| ==> CellsPass(Combined(suites[j].baseline), Combined(suites[j].candidate))
  {
    if AllCellsPass(verdicts) {
      forall j | 0 <= j < |suites| ensures CellsPass(Combined(suites[j].baseline), Combined(suites[j].candidate)) {
        var b, c := Combined(suites[j].baseline), Combined(suites[j].candidate);
        forall k | k in b.Keys + c.Keys ensures CellPasses(b, c, k) {
          var v := Verdict(suites[j].name, b, c, k);
          assert FromSuite(suites[j], v);
          assert FromSuites(suites, v);
          VerdictMeaning(suites[j].name, b, c, k);
        }
        assert forall k :: k in b.Keys ==> CellPasses(b, c, k);
        assert forall k :: k in c.Keys ==> CellPasses(b, c, k);
      }
    } else {
      var v :| v in verdicts && v.status != Pass;
      assert FromSuites(suites, v);
      var j :| 0 <= j < |suites| && FromSuite(suites[j], v);
      VerdictMeaning(suites[j].name, Combined(suites[j].baseline), Combined(suites[j].candidate), v.key);
    }
  }

  lemma PassingGroupsMeanAggregates(suites: seq<Suite>, verdicts: seq<CellVerdict>, j: nat)
    requires DistinctNames(suites) && Covers(suites, verdicts) && AllGroupsPass(verdicts) && j < |suites|
    ensures AggregatesPass(Combined(suites[j].baseline), Combined(suites[j].candidate))
  {
    var b, c := Combined(suites[j].baseline), Combined(suites[j].candidate);
    forall k: Key, m: Metric | k in b.Keys + c.Keys ensures SeriesPasses(b, c, k.pattern, k.transport, m) {
      VerdictIsThere(suites, verdicts, j, k);
      assert Seen(verdicts, Group(Series(suites[j].name, k.pattern, k.transport), m).series);
      GroupMeaning(suites, verdicts, j, k.pattern, k.transport, m);
    }
  }

  lemma SeenGroupPasses(suites: seq<Suite>, verdicts: seq<CellVerdict>, g: Group)
    requires DistinctNames(suites) && Covers(suites, verdicts) && Seen(verdicts, g.series)
    requires forall j :: 0 <= j < |suites| ==> AggregatesPass(Combined(suites[j].baseline), Combined(suites[j].candidate))
    ensures GroupPasses(verdicts, g)
  {
    var i :| 0 <= i < |verdicts| && SeriesOf(verdicts[i]) == g.series;
    var v := verdicts[i];
    assert FromSuites(suites, v);
    var j :| 0 <= j < |suites| && FromSuite(suites[j], v);
    GroupMeaning(suites, verdicts, j, v.key.pattern, v.key.transport, g.metric);
  }

  lemma AggregatesMeaning(suites: seq<Suite>, verdicts: seq<CellVerdict>)
    requires DistinctNames(suites) && Covers(suites, verdicts)
    ensures AllGroupsPass(verdicts)
       <==> forall j :: 0 <= j < |suites| ==> AggregatesPass(Combined(suites[j].baseline), Combined(suites[j].candidate))
  {
    if AllGroupsPass(verdicts) {
      forall j | 0 <= j < |suites| ensures AggregatesPass(Combined(suites[j].baseline), Combined(suites[j].candidate)) {
        PassingGroupsMeanAggregates(suites, verdicts, j);
      }
    }
    if forall j :: 0 <= j < |suites| ==> AggregatesPass(Combined(suites[j].baseline), Combined(suites[j].candidate)) {
      forall g: Group | Seen(verdicts, g.series) ensures GroupPasses(verdicts, g) {
        SeenGroupPasses(suites, verdicts, g);
      }
    }
  }

  lemma CoversStep(suites: seq<Suite>, verdicts: seq<CellVerdict>, s: Suite, more: seq<CellVerdict>)
    requires Covers(suites, verdicts) && forall v :: v in more <==> FromSuite(s, v)
    ensures Covers(suites + [s], verdicts + more)
  {
    var all := suites + [s];
    forall v ensures v in verdicts + more <==> FromSuites(all, v) {
      if v in verdicts {
        assert FromSuites(suites, v);
        var j :| 0 <= j < |suites| && FromSuite(suites[j], v);
        assert FromSuite(all[j], v);
      }
      if v in more { assert FromSuite(all[|suites|], v); }
      if FromSuites(all, v) {
        var j :| 0 <= j < |all| && FromSuite(all[j], v);
        if j < |suites| { assert FromSuite(suites[j], v); }
      }
    }
  }

  method CompareSuite(s: Suite) returns (verdicts: seq<CellVerdict>, errors: seq<LoadError>)
    ensures forall v :: v in verdicts <==> FromSuite(s, v)
    ensures errors == [] <==> SuiteLoads(s)
  {
    var baseline, baselineErrors := LoadReports(s.baseline);
    var candidate, candidateErrors := LoadReports(s.candidate);
    verdicts := CompareReports(s.name, baseline, candidate);
    errors := baselineErrors + candidateErrors;
  }

  method Compare(suites: seq<Suite>) returns (verdicts: seq<CellVerdict>, errors: seq<LoadError>)
    ensures Covers(suites, verdicts)
    ensures errors == [] <==> forall i :: 0 <= i < |suites| ==> SuiteLoads(suites[i])
  {
    verdicts, errors := [], [];
    for i := 0 to |suites|
      invariant Covers(suites[..i], verdicts)
      invariant errors == [] <==> forall j :: 0 <= j < i ==> SuiteLoads(suites[j])
    {
      var more, moreErrors := CompareSuite(suites[i]);
      CoversStep(suites[..i], verdicts, suites[i], more);
      assert suites[..i + 1] == suites[..i] + [suites[i]];
      errors := errors + moreErrors;
      verdicts := verdicts + more;
    }
    assert suites[..|suites|] == suites;
  }

  // --- the verdict in plain terms ---

  /** The quotient of candidate and baseline at a size, if both are there. */
  function RatioAt(b: Cells, c: Cells, p: string, t: string, size: int, m: Metric): Option<real> {
    var k := Report.Key(p, t, size, m);
    if k in b && k in c && b[k].Finite? && c[k].Finite? && b[k].value != 0.0
    then Some(c[k].value / b[k].value) else None
  }

  predicate AtLeast(ratio: Option<real>, limit: real) { ratio.Some? && ratio.value >= limit }

  predicate AtMost(ratio: Option<real>, limit: real) { ratio.Some? && ratio.value <= limit }

  /** Throughput and bandwidth may lose five percent, a latency may gain five percent. */
  predicate CellHolds(b: Cells, c: Cells, k: Key) {
    var ratio := RatioAt(b, c, k.pattern, k.transport, k.size, k.metric);
    match k.metric
    case Throughput => AtLeast(ratio, 0.95)
    case Bandwidth => AtLeast(ratio, 0.95)
    case Latency => AtMost(ratio, 1.05)
    case LatencyP95 => AtMost(ratio, 1.05)
    case LatencyP99 => AtMost(ratio, 1.05)
  }

  predicate FourSizes(b: Cells, c: Cells, p: string, t: string, m: Metric) {
    && AtLeast(RatioAt(b, c, p, t, 64, m), 0.0) && AtLeast(RatioAt(b, c, p, t, 256, m), 0.0)
    && AtLeast(RatioAt(b, c, p, t, 1024, m), 0.0) && AtLeast(RatioAt(b, c, p, t, 65536, m), 0.0)
  }

  function FourProductOf(b: Cells, c: Cells, p: string, t: string, m: Metric): real
    requires FourSizes(b, c, p, t, m)
  {
    RatioAt(b, c, p, t, 64, m).value
      * (RatioAt(b, c, p, t, 256, m).value
         * (RatioAt(b, c, p, t, 1024, m).value * RatioAt(b, c, p, t, 65536, m).value))
  }

  /** Over the sizes 64, 256, 1024 and 65536 throughput and bandwidth do not fall, and the
      latencies do not rise. */
  predicate SeriesHolds(b: Cells, c: Cells, p: string, t: string) {
    && FourSizes(b, c, p, t, RP.Throughput) && FourProductOf(b, c, p, t, RP.Throughput) >= 1.0
    && FourSizes(b, c, p, t, RP.Bandwidth) && FourProductOf(b, c, p, t, RP.Bandwidth) >= 1.0
    && FourSizes(b, c, p, t, RP.Latency) && FourProductOf(b, c, p, t, RP.Latency) <= 1.0
    && FourSizes(b, c, p, t, RP.LatencyP95) && FourProductOf(b, c, p, t, RP.LatencyP95) <= 1.0
    && FourSizes(b, c, p, t, RP.LatencyP99) && FourProductOf(b, c, p, t, RP.LatencyP99) <= 1.0
  }

  ghost predicate NoRegression(b: Cells, c: Cells) {
    && b.Keys == c.Keys
    && (forall k :: k in b ==> CellHolds(b, c, k))
    && (forall k :: k in b ==> SeriesHolds(b, c, k.pattern, k.transport))
  }

  lemma FourProduct(a: real, b: real, c: real, d: real)
    ensures Product([a, b, c, d]) == a * (b * (c * d))
  {
    assert [a, b, c, d][1..] == [b, c, d] && [b, c, d][1..] == [c, d] && [c, d][1..] == [d] && [d][1..] == [];
    assert Product([d]) == d * Product([]) && Product([c, d]) == c * Product([d]);
    assert Product([b, c, d]) == b * Product([c, d]);
  }

  lemma CellMeaning(b: Cells, c: Cells, k: Key)
    ensures CellPasses(b, c, k) <==> CellHolds(b, c, k)
  {
  }

  lemma FourSizesMeaning(b: Cells, c: Cells, p: string, t: string, m: Metric)
    ensures FourSizes(b, c, p, t, m) <==> forall i :: 0 <= i < |REQUIRED_SIZES| ==>
      Comparable(b, c, SizeKey(p, t, m, i)) && Ratio(b, c, SizeKey(p, t, m, i)) >= 0.0
  {
    if FourSizes(b, c, p, t, m) {
      forall i | 0 <= i < |REQUIRED_SIZES|
        ensures Comparable(b, c, SizeKey(p, t, m, i)) && Ratio(b, c, SizeKey(p, t, m, i)) >= 0.0
      {
        assert i == 0 || i == 1 || i == 2 || i == 3;
      }
    }
    if forall i :: 0 <= i < |REQUIRED_SIZES| ==>
        Comparable(b, c, SizeKey(p, t, m, i)) && Ratio(b, c, SizeKey(p, t, m, i)) >= 0.0 {
      assert Comparable(b, c, SizeKey(p, t, m, 0)) && Comparable(b, c, SizeKey(p, t, m, 1));
      assert Comparable(b, c, SizeKey(p, t, m, 2)) && Comparable(b, c, SizeKey(p, t, m, 3));
    }
  }

  lemma FourProductMeaning(b: Cells, c: Cells, p: string, t: string, m: Metric)
    requires FourSizes(b, c, p, t, m)
    ensures Product(Ratios(b, c, p, t, m)) == FourProductOf(b, c, p, t, m)
  {
    var x, y := RatioAt(b, c, p, t, 64, m).value, RatioAt(b, c, p, t, 256, m).value;
    var z, w := RatioAt(b, c, p, t, 1024, m).value, RatioAt(b, c, p, t, 65536, m).value;
    assert Ratios(b, c, p, t, m) == [x, y, z, w];
    FourProduct(x, y, z, w);
  }

  lemma SeriesMeaning(b: Cells, c: Cells, p: string, t: string, m: Metric)
    ensures SeriesPasses(b, c, p, t, m) <==>
      && FourSizes(b, c, p, t, m)
      && match m
         case Throughput => FourProductOf(b, c, p, t, m) >= 1.0
         case Bandwidth => FourProductOf(b, c, p, t, m) >= 1.0
         case Latency => FourProductOf(b, c, p, t, m) <= 1.0
         case LatencyP95 => FourProductOf(b, c, p, t, m) <= 1.0
         case LatencyP99 => FourProductOf(b, c, p, t, m) <= 1.0
  {
    FourSizesMeaning(b, c, p, t, m);
    if FourSizes(b, c, p, t, m) { FourProductMeaning(b, c, p, t, m); }
  }

  lemma AllSeriesMeaning(b: Cells, c: Cells, p: string, t: string)
    ensures (forall m: Metric :: SeriesPasses(b, c, p, t, m)) <==> SeriesHolds(b, c, p, t)
  {
    SeriesMeaning(b, c, p, t, RP.Throughput);
    SeriesMeaning(b, c, p, t, RP.Bandwidth);
    SeriesMeaning(b, c, p, t, RP.Latency);
    SeriesMeaning(b, c, p, t, RP.LatencyP95);
    SeriesMeaning(b, c, p, t, RP.LatencyP99);
    if SeriesHolds(b, c, p, t) {
      forall m: Metric ensures SeriesPasses(b, c, p, t, m) { SeriesMeaning(b, c, p, t, m); }
    }
    if forall m: Metric :: SeriesPasses(b, c, p, t, m) {
      assert SeriesPasses(b, c, p, t, RP.Throughput) && SeriesPasses(b, c, p, t, RP.Bandwidth);
      assert SeriesPasses(b, c, p, t, RP.Latency) && SeriesPasses(b, c, p, t, RP.LatencyP95);
      assert SeriesPasses(b, c, p, t, RP.LatencyP99);
    }
  }

  /** A comparison passes if and only if both sides have the same cells, every throughput and
      bandwidth keeps at least 0.95 of its value, every latency grows to at most 1.05 of it,
      and over the four sizes no metric gets worse. */
  lemma PassMeansNoRegression(b: Cells, c: Cells)
    ensures PairPasses(b, c) <==> NoRegression(b, c)
  {
    forall k ensures CellPasses(b, c, k) <==> CellHolds(b, c, k) { CellMeaning(b, c, k); }
    forall k: Key
      ensures (forall m: Metric :: SeriesPasses(b, c, k.pattern, k.transport, m)) <==> SeriesHolds(b, c, k.pattern, k.transport)
    {
      AllSeriesMeaning(b, c, k.pattern, k.transport);
    }
  }

  /** The geometric mean of four ratios is on the same side of 1 as their product. */
  lemma MeanAndProductAgree(mean: real, product: real)
    requires mean >= 0.0 && (mean * mean) * (mean * mean) == product
    ensures (mean >= 1.0 <==> product >= 1.0) && (mean <= 1.0 <==> product <= 1.0)
  {
    var square := mean * mean;
    SquareSide(mean);
    SquareSide(square);
  }

  lemma SquareSide(x: real)
    requires x >= 0.0
    ensures x * x >= 0.0 && (x >= 1.0 <==> x * x >= 1.0) && (x <= 1.0 <==> x * x <= 1.0)
  {
    if x != 0.0 { PositiveTimes(x, x); }
    if x > 1.0 {
      PositiveTimes(x - 1.0, x + 1.0);
      assert (x - 1.0) * (x + 1.0) == x * x - 1.0;
    } else if x < 1.0 {
      PositiveTimes(1.0 - x, 1.0 + x);
      assert (1.0 - x) * (1.0 + x) == 1.0 - x * x;
    }
  }

  lemma PositiveTimes(x: real, y: real)
    requires x > 0.0 && y > 0.0
    ensures x * y > 0.0
  {
  }

  /** `main`: PASS means that in every suite the reports load cleanly and the candidate
      shows no regression against the baseline. */
  method Gate(suites: seq<Suite>) returns (pass: bool)
    requires DistinctNames(suites)
    ensures pass <==> forall j :: 0 <= j < |suites| ==> SuitePasses(suites[j])
    ensures pass <==> forall j :: 0 <= j < |suites| ==>
      SuiteLoads(suites[j]) && NoRegression(Combined(suites[j].baseline), Combined(suites[j].candidate))
  {
    var verdicts, errors := Compare(suites);
    var aggregates := CompareAggregates(verdicts);
    var failedCells := exists v :: v in verdicts && v.status != Pass;
    var failedAggregates := exists a :: a in aggregates && a.status != AggregatePass;
    CellsMeaning(suites, verdicts);
    AggregatesMeaning(suites, verdicts);
    assert failedCells <==> !AllCellsPass(verdicts);
    assert failedAggregates <==> !AllGroupsPass(verdicts) by {
      if failedAggregates {
        var a :| a in aggregates && a.status != AggregatePass;
        assert Seen(verdicts, a.group.series) && !GroupPasses(verdicts, a.group);
      }
      if !AllGroupsPass(verdicts) {
        var g: Group :| Seen(verdicts, g.series) && !GroupPasses(verdicts, g);
        var a :| a in aggregates && a.group == g;
        assert a.status != AggregatePass;
      }
    }
    pass := errors == [] && !failedCells && !failedAggregates;
    SuitesMeaning(suites);
    SuitesInPlainTerms(suites);
  }

  lemma SuitesInPlainTerms(suites: seq<Suite>)
    ensures (forall j :: 0 <= j < |suites| ==> SuitePasses(suites[j]))
       <==> (forall j :: 0 <= j < |suites| ==>
               SuiteLoads(suites[j]) && NoRegression(Combined(suites[j].baseline), Combined(suites[j].candidate)))
  {
    forall j | 0 <= j < |suites|
      ensures SuitePasses(suites[j])
         <==> SuiteLoads(suites[j]) && NoRegression(Combined(suites[j].baseline), Combined(suites[j].candidate))
    {
      PassMeansNoRegression(Combined(suites[j].baseline), Combined(suites[j].candidate));
    }
  }

  lemma SuitesMeaning(suites: seq<Suite>)
    ensures (forall j :: 0 <= j < |suites| ==> SuitePasses(suites[j]))
       <==> && (forall j :: 0 <= j < |suites| ==> SuiteLoads(suites[j]))
            && (forall j :: 0 <= j < |suites| ==> CellsPass(Combined(suites[j].baseline), Combined(suites[j].candidate)))
            && (forall j :: 0 <= j < |suites| ==> AggregatesPass(Combined(suites[j].baseline), Combined(suites[j].candidate)))
  {
    forall j | 0 <= j < |suites|
      ensures SuitePasses(suites[j])
         <==> && SuiteLoads(suites[j])
              && CellsPass(Combined(suites[j].baseline), Combined(suites[j].candidate))
              && AggregatesPass(Combined(suites[j].baseline), Combined(suites[j].candidate))
    {
    }
  }
}
