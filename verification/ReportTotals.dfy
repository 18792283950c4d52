/** The totals `main` keeps while it classifies cells, and the result map it prints. */
module ReportTotals {
  import opened Text
  import opened Report
  import RP = ResultPipeline

  /** One classified cell; a pattern without transports is one skip and no cell. */
  datatype Cell =
    | NoTransport
    | Cell(pattern: string, transport: string, size: nat, status: RP.Status, values: map<Metric, real>)

  function StatusOf(c: Cell): RP.Status {
    if c.NoTransport? then RP.Skip else c.status
  }

  function CountStatus(cells: seq<Cell>, status: RP.Status): nat
    decreases |cells|
  {
    if cells == [] then 0
    else CountStatus(cells[..|cells| - 1], status) + (if StatusOf(cells[|cells| - 1]) == status then 1 else 0)
  }

  function KeyOf(c: Cell, m: Metric): Key
    requires c.Cell?
  {
    Key(c.pattern, c.transport, c.size, m)
  }

  function Stat(values: map<Metric, real>, m: Metric, default: real): real {
    if m in values then values[m] else default
  }

  /** The value printed for a metric; missing percentiles fall back to the mean. */
  function ValueOf(c: Cell, m: Metric): real
    requires c.Cell?
  {
    var latency := Stat(c.values, RP.Latency, 0.0);
    var p95 := Stat(c.values, RP.LatencyP95, latency);
    match m
    case Throughput => Stat(c.values, RP.Throughput, 0.0)
    case Bandwidth => Stat(c.values, RP.Bandwidth, 0.0)
    case Latency => latency
    case LatencyP95 => p95
    case LatencyP99 => Stat(c.values, RP.LatencyP99, p95)
  }

  /** The five entries a successful cell adds. */
  function Entries(c: Cell): map<Key, real>
    requires c.Cell?
  {
    map[KeyOf(c, RP.Throughput) := ValueOf(c, RP.Throughput),
        KeyOf(c, RP.Bandwidth) := ValueOf(c, RP.Bandwidth),
        KeyOf(c, RP.Latency) := ValueOf(c, RP.Latency),
        KeyOf(c, RP.LatencyP95) := ValueOf(c, RP.LatencyP95),
        KeyOf(c, RP.LatencyP99) := ValueOf(c, RP.LatencyP99)]
  }

  predicate SameCell(a: Cell, b: Cell) {
    a.Cell? && b.Cell? && a.pattern == b.pattern && a.transport == b.transport && a.size == b.size
  }

  predicate DistinctCells(cells: seq<Cell>) {
    forall i, j :: 0 <= i < j < |cells| ==> !SameCell(cells[i], cells[j])
  }

  predicate Holds(c: Cell, k: Key) {
    c.Cell? && c.status.Success? && k.pattern == c.pattern && k.transport == c.transport && k.size == c.size
  }

  lemma EntriesAreFive(c: Cell)
    requires c.Cell?
    ensures |Entries(c)| == RP.METRIC_COUNT
    ensures forall m: Metric :: KeyOf(c, m) in Entries(c) && Entries(c)[KeyOf(c, m)] == ValueOf(c, m)
    ensures forall k :: k in Entries(c) ==> k.pattern == c.pattern && k.transport == c.transport && k.size == c.size
  {
    var keys := {KeyOf(c, RP.Throughput), KeyOf(c, RP.Bandwidth), KeyOf(c, RP.Latency),
                 KeyOf(c, RP.LatencyP95), KeyOf(c, RP.LatencyP99)};
    assert Entries(c).Keys == keys;
    assert |keys| == 5;
    forall m: Metric ensures KeyOf(c, m) in Entries(c) && Entries(c)[KeyOf(c, m)] == ValueOf(c, m) {
      match m
      case Throughput =>
      case Bandwidth =>
      case Latency =>
      case LatencyP95 =>
      case LatencyP99 =>
    }
  }

  /** Every result comes from a successful cell. */
  ghost predicate FromCells(results: map<Key, real>, cells: seq<Cell>) {
    forall k :: k in results ==> exists i :: 0 <= i < |cells| && Holds(cells[i], k)
  }

  predicate HasFive(results: map<Key, real>, c: Cell)
    requires c.Cell?
  {
    forall m: Metric :: KeyOf(c, m) in results && results[KeyOf(c, m)] == ValueOf(c, m)
  }

  /** Every successful cell has all five of its values among the results. */
  ghost predicate AllDelivered(results: map<Key, real>, cells: seq<Cell>) {
    forall i :: 0 <= i < |cells| && cells[i].Cell? && cells[i].status.Success? ==> HasFive(results, cells[i])
  }

  /** The results come from successful cells, and while cells are distinct each
      successful cell has all five. */
  ghost predicate ResultsMatch(results: map<Key, real>, cells: seq<Cell>) {
    && FromCells(results, cells)
    && (DistinctCells(cells) ==>
          |results| == RP.METRIC_COUNT * CountStatus(cells, RP.Success) && AllDelivered(results, cells))
  }

  lemma DisjointUnionSize(a: map<Key, real>, b: map<Key, real>)
    requires a.Keys !! b.Keys
    ensures |a + b| == |a| + |b|
  {
    assert (a + b).Keys == a.Keys + b.Keys;
  }

  lemma DistinctInit(cells: seq<Cell>, c: Cell)
    requires DistinctCells(cells + [c])
    ensures DistinctCells(cells)
    ensures forall j :: 0 <= j < |cells| ==> !SameCell(cells[j], c)
  {
    var all := cells + [c];
    assert forall j :: 0 <= j < |cells| ==> all[j] == cells[j];
    assert all[|cells|] == c;
  }

  lemma CountInit(cells: seq<Cell>, c: Cell, status: RP.Status)
    ensures CountStatus(cells + [c], status) == CountStatus(cells, status) + (if StatusOf(c) == status then 1 else 0)
  {
    assert (cells + [c])[..|cells|] == cells;
  }

  lemma FromCellsStep(results: map<Key, real>, more: map<Key, real>, cells: seq<Cell>, c: Cell)
    requires FromCells(results, cells) && forall k :: k in more ==> Holds(c, k)
    ensures FromCells(results + more, cells + [c])
  {
    var all := cells + [c];
    forall k | k in results + more ensures exists j :: 0 <= j < |all| && Holds(all[j], k) {
      if k in more {
        assert Holds(all[|cells|], k);
      } else {
        var j :| 0 <= j < |cells| && Holds(cells[j], k);
        assert Holds(all[j], k);
      }
    }
  }

  lemma NewCellIsDisjoint(results: map<Key, real>, more: map<Key, real>, cells: seq<Cell>, c: Cell)
    requires FromCells(results, cells) && forall k :: k in more ==> Holds(c, k)
    requires forall j :: 0 <= j < |cells| ==> !SameCell(cells[j], c)
    ensures results.Keys !! more.Keys
  {
    forall k | k in results ensures k !in more {
      var j :| 0 <= j < |cells| && Holds(cells[j], k);
      assert !SameCell(cells[j], c);
    }
  }

  lemma FiveRemain(results: map<Key, real>, more: map<Key, real>, c: Cell)
    requires c.Cell? && HasFive(results, c) && results.Keys !! more.Keys
    ensures HasFive(results + more, c)
  {
    forall m: Metric ensures KeyOf(c, m) in results + more && (results + more)[KeyOf(c, m)] == ValueOf(c, m) {
      assert KeyOf(c, m) in results;
    }
  }

  lemma DeliveredStep(results: map<Key, real>, more: map<Key, real>, cells: seq<Cell>, c: Cell)
    requires AllDelivered(results, cells) && results.Keys !! more.Keys
    requires c.Cell? && c.status.Success? ==> HasFive(results + more, c)
    ensures AllDelivered(results + more, cells + [c])
  {
    var all := cells + [c];
    forall j | 0 <= j < |all| && all[j].Cell? && all[j].status.Success? ensures HasFive(results + more, all[j]) {
      if j < |cells| {
        assert all[j] == cells[j];
        FiveRemain(results, more, cells[j]);
      }
    }
  }

  lemma FreshEntries(results: map<Key, real>, c: Cell)
    requires c.Cell?
    ensures HasFive(results + Entries(c), c)
  {
    EntriesAreFive(c);
    forall m: Metric
      ensures KeyOf(c, m) in results + Entries(c) && (results + Entries(c))[KeyOf(c, m)] == ValueOf(c, m)
    {
      assert KeyOf(c, m) in Entries(c);
    }
  }

  lemma SuccessStep(results: map<Key, real>, cells: seq<Cell>, c: Cell)
    requires c.Cell? && c.status.Success? && ResultsMatch(results, cells)
    ensures ResultsMatch(results + Entries(c), cells + [c])
  {
    EntriesAreFive(c);
    FromCellsStep(results, Entries(c), cells, c);
    if DistinctCells(cells + [c]) {
      DistinctInit(cells, c);
      NewCellIsDisjoint(results, Entries(c), cells, c);
      DisjointUnionSize(results, Entries(c));
      CountInit(cells, c, RP.Success);
      FreshEntries(results, c);
      DeliveredStep(results, Entries(c), cells, c);
    }
  }

  lemma FromCellsLonger(results: map<Key, real>, cells: seq<Cell>, c: Cell)
    requires FromCells(results, cells)
    ensures FromCells(results, cells + [c])
  {
    forall k | k in results ensures exists j :: 0 <= j < |cells + [c]| && Holds((cells + [c])[j], k) {
      var j :| 0 <= j < |cells| && Holds(cells[j], k);
      assert (cells + [c])[j] == cells[j];
    }
  }

  lemma DeliveredLonger(results: map<Key, real>, cells: seq<Cell>, c: Cell)
    requires AllDelivered(results, cells) && !StatusOf(c).Success?
    ensures AllDelivered(results, cells + [c])
  {
    var all := cells + [c];
    forall j | 0 <= j < |all| && all[j].Cell? && all[j].status.Success? ensures HasFive(results, all[j]) {
      assert j < |cells| && all[j] == cells[j];
    }
  }

  lemma OtherStep(results: map<Key, real>, cells: seq<Cell>, c: Cell)
    requires !StatusOf(c).Success? && ResultsMatch(results, cells)
    ensures ResultsMatch(results, cells + [c])
  {
    FromCellsLonger(results, cells, c);
    if DistinctCells(cells + [c]) {
      DistinctInit(cells, c);
      CountInit(cells, c, RP.Success);
      DeliveredLonger(results, cells, c);
    }
  }

  /** The totals count the cells of each status, and five lines for every cell that
      succeeded or failed. */
  ghost predicate Counted(cells: seq<Cell>, t: Totals) {
    && t.success == CountStatus(cells, RP.Success) && t.fail == CountStatus(cells, RP.Fail)
    && t.unsupported == CountStatus(cells, RP.Unsupported) && t.skip == CountStatus(cells, RP.Skip)
    && t.actual == RP.METRIC_COUNT * t.success && t.expected == RP.METRIC_COUNT * (t.success + t.fail)
  }

  function Count(t: Totals, status: RP.Status): Totals {
    match status
    case Unsupported => t.(unsupported := t.unsupported + 1)
    case Skip => t.(skip := t.skip + 1)
    case Fail => t.(fail := t.fail + 1, expected := t.expected + RP.METRIC_COUNT)
    case Success =>
      t.(success := t.success + 1, expected := t.expected + RP.METRIC_COUNT, actual := t.actual + RP.METRIC_COUNT)
  }

  lemma CountedStep(cells: seq<Cell>, c: Cell, t: Totals)
    requires Counted(cells, t)
    ensures Counted(cells + [c], Count(t, StatusOf(c)))
  {
    CountInit(cells, c, RP.Success);
    CountInit(cells, c, RP.Fail);
    CountInit(cells, c, RP.Unsupported);
    CountInit(cells, c, RP.Skip);
  }

  /** The classification loop of `main`: each successful cell announces and delivers five
      lines, each failed cell announces five and delivers none, so a run is complete
      exactly when no cell failed. */
  method Tally(cells: seq<Cell>) returns (t: Totals, results: map<Key, real>)
    ensures Counted(cells, t) && ResultsMatch(results, cells)
    ensures t.expected == t.actual <==> t.fail == 0
    ensures DistinctCells(cells) ==> |results| == t.actual
  {
    t, results := Totals(0, 0, 0, 0, 0, 0), map[];
    for i := 0 to |cells|
      invariant Counted(cells[..i], t) && ResultsMatch(results, cells[..i])
    {
      var c := cells[i];
      assert cells[..i + 1] == cells[..i] + [c];
      CountedStep(cells[..i], c, t);
      t := Count(t, StatusOf(c));
      if StatusOf(c).Success? {
        SuccessStep(results, cells[..i], c);
        results := results + Entries(c);
      } else {
        OtherStep(results, cells[..i], c);
      }
    }
    assert cells[..|cells|] == cells;
  }

  /** The printed units of a value, rounded to the precision of its metric. */
  function Units(v: real, m: Metric): int {
    (v * (Pow10(Places(m)) as real) + 0.5).Floor
  }

  /** Half of the last printed decimal: three decimals for throughput and bandwidth, six for
      the latencies. */
  function HalfUnit(m: Metric): real {
    match m
    case Throughput => 0.0005
    case Bandwidth => 0.0005
    case Latency => 0.0000005
    case LatencyP95 => 0.0000005
    case LatencyP99 => 0.0000005
  }

  /** The number has the decimals of its metric and is as near to the value as they allow. */
  predicate IsRounded(n: Number, v: real, m: Metric) {
    && n.places == (if m.Throughput? || m.Bandwidth? then 3 else 6)
    && -HalfUnit(m) <= Value(n) - v <= HalfUnit(m)
  }

  lemma PowersOfTen()
    ensures Pow10(3) == 1_000 && Pow10(6) == 1_000_000
  {
    assert Pow10(1) == 10 * Pow10(0) && Pow10(2) == 10 * Pow10(1) && Pow10(3) == 10 * Pow10(2);
    assert Pow10(4) == 10 * Pow10(3) && Pow10(5) == 10 * Pow10(4) && Pow10(6) == 10 * Pow10(5);
  }

  /** The printed value is the real one rounded to the decimals of its metric, and it is
      positive exactly when the real one is at least half of the last decimal. */
  lemma PrintedIsRounded(v: real, m: Metric)
    ensures IsRounded(Number(Units(v, m), Places(m)), v, m)
    ensures Units(v, m) > 0 <==> v >= HalfUnit(m)
  {
    PowersOfTen();
    if m.Throughput? || m.Bandwidth? {
      RoundedTo(v, 1_000, 0.0005, Units(v, m));
    } else {
      RoundedTo(v, 1_000_000, 0.0000005, Units(v, m));
    }
  }

  lemma RoundedTo(v: real, scale: nat, half: real, units: int)
    requires scale > 0 && half * scale as real == 0.5 && units == (v * (scale as real) + 0.5).Floor
    ensures -half <= units as real / scale as real - v <= half
    ensures units > 0 <==> v >= half
  {
    var s := scale as real;
    assert units as real <= v * s + 0.5 < units as real + 1.0;
    var shown := units as real / s;
    assert shown * s == units as real;
    assert -half * s <= (shown - v) * s <= half * s;
    SmallerFactor(-half, shown - v, s);
    SmallerFactor(shown - v, half, s);
    if units > 0 {
      assert half * s <= v * s;
      SmallerFactor(half, v, s);
    } else if v > half {
      LargerFactor(v, half, s);
    }
  }

  lemma SmallerFactor(x: real, y: real, s: real)
    requires s > 0.0 && x * s <= y * s
    ensures x <= y
  {
    if x > y { LargerFactor(x, y, s); }
  }

  lemma LargerFactor(x: real, y: real, s: real)
    requires s > 0.0 && x > y
    ensures x * s > y * s
  {
    assert (x - y) * s > 0.0;
  }

  function Printed(results: map<Key, real>): Results {
    map k | k in results :: Units(results[k], k.metric)
  }

  /** `keys` lists the keys of the results, each once. */
  ghost predicate Enumerates(keys: seq<Key>, results: map<Key, real>) {
    Distinct(keys) && forall k :: k in keys <==> k in results
  }

  lemma {:induction false} DistinctLength(keys: seq<Key>)
    requires Distinct(keys)
    ensures |set k | k in keys| == |keys|
    decreases |keys|
  {
    if keys != [] {
      var last := |keys| - 1;
      var init := keys[..last];
      DistinctLength(init);
      assert keys == init + [keys[last]];
      assert (set k | k in keys) == (set k | k in init) + {keys[last]};
      assert keys[last] !in init;
    }
  }

  lemma EnumerationLength(keys: seq<Key>, results: map<Key, real>)
    requires Enumerates(keys, results)
    ensures |keys| == |results| && Listed(Printed(results), []) && Printed(results).Keys == results.Keys
  {
    DistinctLength(keys);
    assert (set k | k in keys) == results.Keys;
  }

  predicate AllSucceeded(cells: seq<Cell>) {
    forall i :: 0 <= i < |cells| ==> StatusOf(cells[i]).Success?
  }

  lemma {:induction false} OnlySuccesses(cells: seq<Cell>)
    requires AllSucceeded(cells)
    ensures CountStatus(cells, RP.Success) == |cells| && CountStatus(cells, RP.Fail) == 0
    ensures CountStatus(cells, RP.Skip) == 0 && CountStatus(cells, RP.Unsupported) == 0
    decreases |cells|
  {
    if cells != [] { OnlySuccesses(cells[..|cells| - 1]); }
  }

  lemma {:induction false} SomethingElse(cells: seq<Cell>, i: nat)
    requires i < |cells| && !StatusOf(cells[i]).Success?
    ensures CountStatus(cells, StatusOf(cells[i])) > 0
    decreases |cells|
  {
    var last := |cells| - 1;
    if i < last { SomethingElse(cells[..last], i); }
  }

  /** No value is so small that it is printed as zero. */
  predicate AllValuesShow(cells: seq<Cell>) {
    forall i, m: Metric :: 0 <= i < |cells| && cells[i].Cell? ==> ValueOf(cells[i], m) >= HalfUnit(m)
  }

  lemma ValuesShowInResults(cells: seq<Cell>, results: map<Key, real>, keys: seq<Key>)
    requires DistinctCells(cells) && AllSucceeded(cells) && ResultsMatch(results, cells) && Enumerates(keys, results)
    ensures AllValuesShow(cells) <==> forall i :: 0 <= i < |keys| ==> Units(results[keys[i]], keys[i].metric) > 0
  {
    if AllValuesShow(cells) {
      forall i | 0 <= i < |keys| ensures Units(results[keys[i]], keys[i].metric) > 0 {
        var k := keys[i];
        assert k in results;
        var j :| 0 <= j < |cells| && Holds(cells[j], k);
        assert HasFive(results, cells[j]);
        assert k == KeyOf(cells[j], k.metric);
        PrintedIsRounded(results[k], k.metric);
      }
    }
    if forall i :: 0 <= i < |keys| ==> Units(results[keys[i]], keys[i].metric) > 0 {
      forall i, m: Metric | 0 <= i < |cells| && cells[i].Cell? ensures ValueOf(cells[i], m) >= HalfUnit(m) {
        assert StatusOf(cells[i]).Success? && HasFive(results, cells[i]);
        assert KeyOf(cells[i], m) in keys;
        PrintedIsRounded(ValueOf(cells[i], m), m);
      }
    }
  }

  /** Without other cells the totals count exactly the printed lines. */
  lemma TotalsFit(cells: seq<Cell>, t: Totals, results: map<Key, real>, keys: seq<Key>)
    requires DistinctCells(cells) && cells != [] && Counted(cells, t) && ResultsMatch(results, cells)
    requires Enumerates(keys, results) && AllPrintable(keys) && AllSucceeded(cells)
    ensures Listed(Printed(results), keys) && keys != []
    ensures t.unsupported == t.skip == t.fail == 0 && t.expected == t.actual == |keys|
  {
    EnumerationLength(keys, results);
    OnlySuccesses(cells);
    forall i | 0 <= i < |keys| ensures keys[i] in Printed(results) && keys[i].size >= 0 {
      assert keys[i] in results && PrintableKey(keys[i]);
    }
  }

  lemma SucceededReport(cells: seq<Cell>, t: Totals, results: map<Key, real>, keys: seq<Key>,
                        before: seq<string>, after: seq<string>)
    requires DistinctCells(cells) && cells != [] && Counted(cells, t) && ResultsMatch(results, cells)
    requires Enumerates(keys, results) && AllPrintable(keys) && AllSucceeded(cells)
    requires AllPassive(before) && AllPassive(after) && Sections(before) + Sections(after) == []
    ensures Listed(Printed(results), keys)
    ensures Accepted(FinalChecks(AddLines(BLANK, PrintedReport(before, Printed(results), keys, t, after))))
       <==> AllValuesShow(cells)
  {
    TotalsFit(cells, t, results, keys);
    CleanReportAcceptance(before, Printed(results), keys, t, after);
    ValuesShowInResults(cells, results, keys);
  }

  /** From classified cells to the verdict of the completion checks: the report of a
      non-empty run over distinct cells is accepted exactly when every cell succeeded
      and each of its five values is still positive once rounded to the printed decimals. The runner
      prints a section of skips or failures only when some cell did not succeed. */
  lemma ReportOfRunAccepted(cells: seq<Cell>, t: Totals, results: map<Key, real>, keys: seq<Key>,
                            before: seq<string>, after: seq<string>)
    requires DistinctCells(cells) && cells != [] && Counted(cells, t) && ResultsMatch(results, cells)
    requires Enumerates(keys, results) && AllPrintable(keys)
    requires AllPassive(before) && AllPassive(after)
    requires AllSucceeded(cells) ==> Sections(before) + Sections(after) == []
    ensures Listed(Printed(results), keys)
    ensures Accepted(FinalChecks(AddLines(BLANK, PrintedReport(before, Printed(results), keys, t, after))))
       <==> AllSucceeded(cells) && AllValuesShow(cells)
  {
    if AllSucceeded(cells) {
      SucceededReport(cells, t, results, keys, before, after);
    } else {
      var i :| 0 <= i < |cells| && !StatusOf(cells[i]).Success?;
      SomethingElse(cells, i);
      UncleanReportRejected(before, Printed(results), keys, t, after);
    }
  }
}
