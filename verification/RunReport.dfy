/** From benchmark runs to the verdict on their printed report: collection, classification,
    totals, printing, parsing and the completion checks in one. */
module RunReport {
  import opened Options
  import opened Text
  import opened Report
  import opened ReportTotals
  import RP = ResultPipeline

  type Size = RP.Size

  datatype TransportRuns = TransportRuns(transport: string, runs: seq<RP.RunResult>)

  /** A pattern with the sizes it is run with and its runs per transport. */
  datatype PatternRuns = PatternRuns(name: string, sizes: seq<Size>, transports: seq<TransportRuns>)

  ghost predicate Reported(p: PatternRuns) {
    forall i :: 0 <= i < |p.transports| ==> RP.AllRunsReported(p.sizes, p.transports[i].runs)
  }

  // --- what a good measurement is ---

  /** Every run counts and delivered all five metrics for every size. */
  ghost predicate TransportGood(sizes: seq<Size>, runs: seq<RP.RunResult>)
    requires RP.AllRunsReported(sizes, runs)
  {
    && (forall i :: 0 <= i < |runs| ==> RP.Counts(sizes, runs[i]))
    && (forall z :: z in sizes ==> RP.AllGood(sizes, runs, z))
  }

  ghost predicate PatternGood(p: PatternRuns)
    requires Reported(p)
  {
    p.transports != [] && forall i :: 0 <= i < |p.transports| ==> TransportGood(p.sizes, p.transports[i].runs)
  }

  /** One size of one transport of one pattern, with the runs that measure it. */
  datatype Place = Place(pattern: string, transport: string, sizes: seq<Size>, runs: seq<RP.RunResult>, size: Size)

  predicate PlaceReported(q: Place) { RP.AllRunsReported(q.sizes, q.runs) }

  /** The median of the delivered samples, or 0 without any. */
  function MedianAt(q: Place, m: Metric): real
    requires PlaceReported(q)
  {
    var samples := RP.Samples(q.sizes, q.runs, RP.Sample(q.size, m));
    if samples == [] then 0.0 else RP.Median(samples)
  }

  /** A successful cell that shows the medians of its place. */
  ghost predicate ShowsMedians(c: Cell, q: Place) {
    && PlaceReported(q)
    && c.Cell? && c.pattern == q.pattern && c.transport == q.transport && c.size == q.size && c.status.Success?
    && forall m: Metric :: m in c.values && c.values[m] == MedianAt(q, m)
  }

  ghost predicate AllShowMedians(cells: seq<Cell>, places: seq<Place>) {
    |cells| == |places| && forall i :: 0 <= i < |cells| ==> ShowsMedians(cells[i], places[i])
  }

  lemma ShowMediansConcat(a: seq<Cell>, b: seq<Cell>, x: seq<Place>, y: seq<Place>)
    requires AllShowMedians(a, x) && AllShowMedians(b, y)
    ensures AllShowMedians(a + b, x + y)
  {
    forall i | 0 <= i < |a + b| ensures ShowsMedians((a + b)[i], (x + y)[i]) {
      if i < |a| {
        assert (a + b)[i] == a[i] && (x + y)[i] == x[i];
      } else {
        assert (a + b)[i] == b[i - |a|] && (x + y)[i] == y[i - |a|];
      }
    }
  }

  function TransportPlaces(name: string, sizes: seq<Size>, tr: TransportRuns): seq<Place> {
    seq(|sizes|, i requires 0 <= i < |sizes| => Place(name, tr.transport, sizes, tr.runs, sizes[i]))
  }

  /** The places of the first `n` transports. */
  function PatternPlaces(p: PatternRuns, n: nat): seq<Place>
    requires n <= |p.transports|
  {
    if n == 0 then [] else PatternPlaces(p, n - 1) + TransportPlaces(p.name, p.sizes, p.transports[n - 1])
  }

  /** The places of the first `n` patterns. */
  function AllPlaces(patterns: seq<PatternRuns>, n: nat): seq<Place>
    requires n <= |patterns|
  {
    if n == 0 then [] else AllPlaces(patterns, n - 1) + PatternPlaces(patterns[n - 1], |patterns[n - 1].transports|)
  }

  // --- classification ---

  function ValuesAt(values: map<RP.Sample, real>, z: Size): (r: map<Metric, real>)
    ensures forall m: Metric :: m in r <==> RP.Sample(z, m) in values
    ensures forall m: Metric :: m in r ==> r[m] == values[RP.Sample(z, m)]
  {
    RP.EveryMetricIsListed();
    map m | m in RP.METRICS && RP.Sample(z, m) in values :: values[RP.Sample(z, m)]
  }

  function CellOf(name: string, transport: string, z: nat, c: RP.Collected): Cell {
    Cell(name, transport, z, RP.Classify(c, z), ValuesAt(c.values, z))
  }

  predicate AreSizes(sizes: seq<Size>) {
    forall i :: 0 <= i < |sizes| ==> sizes[i] >= 0
  }

  predicate ClassifiedAs(cells: seq<Cell>, name: string, transport: string, sizes: seq<Size>, c: RP.Collected)
    requires AreSizes(sizes)
  {
    |cells| == |sizes| && forall i :: 0 <= i < |sizes| ==> cells[i] == CellOf(name, transport, sizes[i], c)
  }

  /** The cells of one transport. */
  method ClassifySizes(name: string, transport: string, sizes: seq<Size>, c: RP.Collected) returns (cells: seq<Cell>)
    requires AreSizes(sizes)
    ensures ClassifiedAs(cells, name, transport, sizes, c)
  {
    cells := [];
    for i := 0 to |sizes|
      invariant |cells| == i && forall j :: 0 <= j < i ==> cells[j] == CellOf(name, transport, sizes[j], c)
    {
      cells := cells + [CellOf(name, transport, sizes[i], c)];
    }
  }

  /** What collecting a transport promises. */
  ghost predicate CollectedFrom(c: RP.Collected, sizes: seq<Size>, runs: seq<RP.RunResult>, failFast: bool)
    requires RP.AllRunsReported(sizes, runs)
  {
    && RP.StopsFor(c.kind, sizes, runs, failFast)
    && (!c.kind.Measured? ==> c.values == map[])
    && (c.kind.Measured? ==> RP.FailuresTrack(c.failures, sizes, runs) && RP.ValuesMatch(c.values, sizes, runs))
    && (forall z :: RP.Failed(c.failures, z) ==> z in sizes)
  }

  /** A run that ends its transport is not good. */
  lemma EndedIsNotGood(sizes: seq<Size>, runs: seq<RP.RunResult>, failFast: bool)
    requires RP.AllRunsReported(sizes, runs) && sizes != [] && TransportGood(sizes, runs)
    ensures RP.AllRun(sizes, runs, failFast)
  {
    forall i | 0 <= i < |runs| ensures !RP.Ends(sizes, runs[i], failFast) {
      assert sizes[0] in sizes && RP.AllGood(sizes, runs, sizes[0]) && RP.GoodRun(sizes, runs[i], sizes[0]);
      forall z | z in sizes ensures RP.GoodRun(sizes, runs[i], z) { assert RP.AllGood(sizes, runs, z); }
    }
  }

  lemma MeasuredCell(c: RP.Collected, q: Place, failFast: bool)
    requires PlaceReported(q) && CollectedFrom(c, q.sizes, q.runs, failFast) && c.kind.Measured? && q.size in q.sizes && q.size >= 0
    ensures RP.Classify(c, q.size).Success? <==> RP.AllGood(q.sizes, q.runs, q.size)
    ensures RP.Classify(c, q.size).Success? ==> ShowsMedians(CellOf(q.pattern, q.transport, q.size, c), q)
  {
    var z := q.size;
    assert RP.Sample(z, RP.Throughput) in c.values && RP.Sample(z, RP.Bandwidth) in c.values && RP.Sample(z, RP.Latency) in c.values;
    forall m: Metric ensures m in ValuesAt(c.values, z) && ValuesAt(c.values, z)[m] == MedianAt(q, m) {
      assert RP.Sample(z, m) in c.values;
    }
  }

  /** All sizes of a transport succeed exactly when its measurement is good, the cells then
      show the medians, and no failure is on record. */
  lemma TransportMeaning(cells: seq<Cell>, name: string, tr: TransportRuns, sizes: seq<Size>, c: RP.Collected, failFast: bool)
    requires RP.AllRunsReported(sizes, tr.runs) && CollectedFrom(c, sizes, tr.runs, failFast) && sizes != [] && AreSizes(sizes)
    requires ClassifiedAs(cells, name, tr.transport, sizes, c)
    ensures AllSucceeded(cells) <==> TransportGood(sizes, tr.runs)
    ensures AllSucceeded(cells) ==> AllShowMedians(cells, TransportPlaces(name, sizes, tr)) && c.failures == []
  {
    var runs := tr.runs;
    if c.kind.Measured? {
      forall i | 0 <= i < |sizes|
        ensures StatusOf(cells[i]).Success? <==> RP.AllGood(sizes, runs, sizes[i])
        ensures StatusOf(cells[i]).Success? ==> ShowsMedians(cells[i], TransportPlaces(name, sizes, tr)[i])
      {
        MeasuredCell(c, TransportPlaces(name, sizes, tr)[i], failFast);
      }
      if c.failures != [] { assert RP.Failed(c.failures, c.failures[0].size); }
      if TransportGood(sizes, runs) {
        forall i | 0 <= i < |cells| ensures StatusOf(cells[i]).Success? { assert sizes[i] in sizes; }
      }
      if AllSucceeded(cells) {
        forall z | z in sizes ensures RP.AllGood(sizes, runs, z) {
          var i :| 0 <= i < |sizes| && sizes[i] == z;
          assert StatusOf(cells[i]).Success?;
        }
      }
    } else {
      assert !StatusOf(cells[0]).Success?;
      if TransportGood(sizes, runs) {
        EndedIsNotGood(sizes, runs, failFast);
        RP.NoLastWord(sizes, runs, failFast);
      }
    }
  }

  /** Each size of a transport has the status its runs call for. */
  ghost predicate StatusesFit(cells: seq<Cell>, sizes: seq<Size>, runs: seq<RP.RunResult>, failFast: bool)
    requires RP.AllRunsReported(sizes, runs)
  {
    |cells| == |sizes| && forall i :: 0 <= i < |cells| ==> RP.StatusFits(StatusOf(cells[i]), sizes, runs, failFast, sizes[i])
  }

  lemma ClassifiedFit(cells: seq<Cell>, name: string, tr: TransportRuns, sizes: seq<Size>, c: RP.Collected, failFast: bool)
    requires RP.AllRunsReported(sizes, tr.runs) && CollectedFrom(c, sizes, tr.runs, failFast) && AreSizes(sizes)
    requires ClassifiedAs(cells, name, tr.transport, sizes, c)
    ensures StatusesFit(cells, sizes, tr.runs, failFast)
  {
    forall i | 0 <= i < |cells| ensures RP.StatusFits(StatusOf(cells[i]), sizes, tr.runs, failFast, sizes[i]) {
      RP.ClassifyFits(c, sizes, tr.runs, failFast, sizes[i]);
    }
  }

  lemma SucceededConcat(a: seq<Cell>, b: seq<Cell>)
    ensures AllSucceeded(a + b) <==> AllSucceeded(a) && AllSucceeded(b)
  {
    assert forall i :: 0 <= i < |a| ==> (a + b)[i] == a[i];
    assert forall i :: 0 <= i < |b| ==> (a + b)[|a| + i] == b[i];
  }

  /** Names and sizes that can be printed and parsed. */
  predicate PrintableCell(c: Cell) {
    c.Cell? ==> PrintableKey(Key(c.pattern, c.transport, c.size, RP.Throughput))
  }

  predicate AllPrintableCells(cells: seq<Cell>) {
    forall i :: 0 <= i < |cells| ==> PrintableCell(cells[i])
  }

  predicate PrintablePattern(p: PatternRuns) {
    forall i, z :: 0 <= i < |p.transports| && z in p.sizes ==>
      PrintableKey(Key(p.name, p.transports[i].transport, z, RP.Throughput))
  }

  /** A pattern `main` can run: there are sizes to measure, and its names and sizes can be
      printed. */
  ghost predicate PatternOk(p: PatternRuns) {
    Reported(p) && p.sizes != [] && AreSizes(p.sizes) && PrintablePattern(p)
  }

  /** One transport, unless fail-fast has already ended the pattern: then its cells are
      classified without any value. */
  method RunTransport(p: PatternRuns, i: nat, failFast: bool, ended: bool) returns (cells: seq<Cell>, failures: bool, aborted: bool)
    requires PatternOk(p) && i < |p.transports|
    ensures AllPrintableCells(cells) && cells != []
    ensures AllSucceeded(cells) <==> !ended && TransportGood(p.sizes, p.transports[i].runs)
    ensures !ended ==> StatusesFit(cells, p.sizes, p.transports[i].runs, failFast)
    ensures ended ==> forall j :: 0 <= j < |cells| ==> StatusOf(cells[j]).Fail?
    ensures AllSucceeded(cells) ==>
      AllShowMedians(cells, TransportPlaces(p.name, p.sizes, p.transports[i])) && !failures && !aborted
    ensures aborted ==> !ended
  {
    var tr := p.transports[i];
    var c := RP.Collected(RP.Aborted, map[], []);
    if !ended {
      c := RP.CollectTransport(p.sizes, tr.runs, failFast);
    }
    cells := ClassifySizes(p.name, tr.transport, p.sizes, c);
    failures, aborted := c.failures != [], !ended && c.kind.Aborted?;
    CellsArePrintable(cells, p, i, c);
    if c.kind.Aborted? { AbortedFails(cells, p.name, tr.transport, p.sizes, c); }
    if !ended {
      TransportMeaning(cells, p.name, tr, p.sizes, c, failFast);
      ClassifiedFit(cells, p.name, tr, p.sizes, c, failFast);
    }
  }

  lemma CellsArePrintable(cells: seq<Cell>, p: PatternRuns, i: nat, c: RP.Collected)
    requires PatternOk(p) && i < |p.transports| && ClassifiedAs(cells, p.name, p.transports[i].transport, p.sizes, c)
    ensures AllPrintableCells(cells)
  {
    forall j | 0 <= j < |cells| ensures PrintableCell(cells[j]) {
      assert p.sizes[j] in p.sizes;
    }
  }

  lemma AbortedFails(cells: seq<Cell>, name: string, transport: string, sizes: seq<Size>, c: RP.Collected)
    requires AreSizes(sizes) && sizes != [] && ClassifiedAs(cells, name, transport, sizes, c)
    requires c.kind.Aborted? && c.values == map[]
    ensures !AllSucceeded(cells)
  {
    assert !StatusOf(cells[0]).Success?;
  }

  ghost predicate GoodUpTo(p: PatternRuns, n: nat)
    requires Reported(p) && n <= |p.transports|
  {
    forall i :: 0 <= i < n ==> TransportGood(p.sizes, p.transports[i].runs)
  }

  lemma PrintableConcat(a: seq<Cell>, b: seq<Cell>)
    requires AllPrintableCells(a) && AllPrintableCells(b)
    ensures AllPrintableCells(a + b)
  {
  }

  /** All transports of a pattern. A pattern without transports is one skip. */
  method RunPattern(p: PatternRuns, failFast: bool) returns (cells: seq<Cell>, failures: bool)
    requires PatternOk(p)
    ensures AllPrintableCells(cells) && cells != []
    ensures AllSucceeded(cells) <==> PatternGood(p)
    ensures AllSucceeded(cells) ==> AllShowMedians(cells, PatternPlaces(p, |p.transports|)) && !failures
  {
    if p.transports == [] {
      cells, failures := [NoTransport], false;
      assert !StatusOf(cells[0]).Success?;
      return;
    }
    cells, failures := [], false;
    var ended := false;
    for i := 0 to |p.transports|
      invariant AllPrintableCells(cells) && (i > 0 ==> cells != [])
      invariant AllSucceeded(cells) <==> GoodUpTo(p, i)
      invariant AllSucceeded(cells) ==> AllShowMedians(cells, PatternPlaces(p, i)) && !failures && !ended
    {
      var more, bad, aborted := RunTransport(p, i, failFast, ended);
      SucceededConcat(cells, more);
      PrintableConcat(cells, more);
      if AllSucceeded(cells + more) {
        ShowMediansConcat(cells, more, PatternPlaces(p, i), TransportPlaces(p.name, p.sizes, p.transports[i]));
      }
      cells, failures, ended := cells + more, failures || bad, ended || aborted;
    }
  }

  ghost predicate AllGoodUpTo(patterns: seq<PatternRuns>, n: nat)
    requires n <= |patterns| && forall i :: 0 <= i < |patterns| ==> Reported(patterns[i])
  {
    forall i :: 0 <= i < n ==> PatternGood(patterns[i])
  }

  ghost predicate AllOk(patterns: seq<PatternRuns>) {
    forall i :: 0 <= i < |patterns| ==> PatternOk(patterns[i])
  }

  /** The loop of `main` over the patterns; fail-fast ends it after a pattern with failures. */
  method RunAll(patterns: seq<PatternRuns>, failFast: bool) returns (cells: seq<Cell>, failures: bool)
    requires AllOk(patterns)
    ensures AllPrintableCells(cells) && (patterns != [] ==> cells != [])
    ensures AllSucceeded(cells) <==> AllGoodUpTo(patterns, |patterns|)
    ensures AllSucceeded(cells) ==> AllShowMedians(cells, AllPlaces(patterns, |patterns|)) && !failures
  {
    cells, failures := [], false;
    for i := 0 to |patterns|
      invariant AllPrintableCells(cells) && (i > 0 ==> cells != [])
      invariant AllSucceeded(cells) <==> AllGoodUpTo(patterns, i)
      invariant AllSucceeded(cells) ==> AllShowMedians(cells, AllPlaces(patterns, i)) && !failures
    {
      assert PatternOk(patterns[i]);
      var more, bad := RunPattern(patterns[i], failFast);
      SucceededConcat(cells, more);
      PrintableConcat(cells, more);
      if AllSucceeded(cells + more) {
        ShowMediansConcat(cells, more, AllPlaces(patterns, i), PatternPlaces(patterns[i], |patterns[i].transports|));
      }
      cells, failures := cells + more, failures || bad;
      if failFast && bad {
        assert !AllGoodUpTo(patterns, |patterns|);
        return;
      }
    }
  }

  // --- the report and its checks ---

  ghost predicate DistinctPlaces(places: seq<Place>) {
    forall i, j :: 0 <= i < j < |places| ==>
      places[i].pattern != places[j].pattern || places[i].transport != places[j].transport || places[i].size != places[j].size
  }

  lemma CellsAreDistinct(cells: seq<Cell>, places: seq<Place>)
    requires AllShowMedians(cells, places) && DistinctPlaces(places)
    ensures DistinctCells(cells)
  {
    forall i, j | 0 <= i < j < |cells| ensures !SameCell(cells[i], cells[j]) {
      assert ShowsMedians(cells[i], places[i]) && ShowsMedians(cells[j], places[j]);
    }
  }

  method ListKeys(results: map<Key, real>) returns (keys: seq<Key>)
    ensures Enumerates(keys, results)
  {
    keys := [];
    var todo := results.Keys;
    while todo != {}
      invariant todo <= results.Keys && Distinct(keys)
      invariant forall k :: k in keys <==> k in results && k !in todo
      decreases todo
    {
      var k :| k in todo;
      todo := todo - {k};
      keys := keys + [k];
    }
  }

  lemma KeysArePrintable(cells: seq<Cell>, results: map<Key, real>, keys: seq<Key>)
    requires AllPrintableCells(cells) && ResultsMatch(results, cells) && Enumerates(keys, results)
    ensures AllPrintable(keys) && Listed(Printed(results), keys)
  {
    forall i | 0 <= i < |keys| ensures PrintableKey(keys[i]) && keys[i] in Printed(results) {
      assert keys[i] in results;
      var j :| 0 <= j < |cells| && Holds(cells[j], keys[i]);
      assert PrintableCell(cells[j]);
    }
  }

  /** The sections after the totals: skips and failures, each only when there is one. */
  function Trailer(skips: bool, failures: bool, skipNotes: seq<string>, failureNotes: seq<string>, saved: string): seq<string> {
    (if skips then ["## Skips"] + skipNotes else [])
    + ((if failures then ["## Failures"] + failureNotes else []) + [saved])
  }

  lemma SectionIsPassive(line: string)
    requires Section(line)
    ensures Passive(line) && Section(Strip(line))
  {
    StripKeeps(line);
    SectionHasNoColon(line);
  }

  lemma {:induction false} SectionsConcat(a: seq<string>, b: seq<string>)
    ensures Sections(a + b) == Sections(a) + Sections(b)
    decreases |b|
  {
    if b == [] {
      assert a + b == a;
    } else {
      assert (a + b)[..|a + b| - 1] == a + b[..|b| - 1];
      SectionsConcat(a, b[..|b| - 1]);
    }
  }

  lemma SectionBlock(present: bool, name: string, notes: seq<string>)
    requires Section(name) && AllPassive(notes)
    ensures var block := if present then [name] + notes else [];
      AllPassive(block) && (Sections(block) == [] <==> !present)
  {
    if present {
      SectionIsPassive(name);
      SectionsConcat([name], notes);
      assert [name][..0] == [];
      assert Sections([name]) == Sections([]) + [SectionPresent(Strip(name))];
    }
  }

  lemma TrailerSections(skips: bool, failures: bool, skipNotes: seq<string>, failureNotes: seq<string>, saved: string)
    requires AllPassive(skipNotes) && AllPassive(failureNotes) && Passive(saved) && !Section(Strip(saved))
    ensures var after := Trailer(skips, failures, skipNotes, failureNotes, saved);
      AllPassive(after) && (Sections(after) == [] <==> !skips && !failures)
  {
    SectionBlock(skips, "## Skips", skipNotes);
    SectionBlock(failures, "## Failures", failureNotes);
    TwoBlocks(if skips then ["## Skips"] + skipNotes else [], if failures then ["## Failures"] + failureNotes else [], saved);
  }

  lemma TwoBlocks(a: seq<string>, b: seq<string>, saved: string)
    requires AllPassive(a) && AllPassive(b) && Passive(saved) && !Section(Strip(saved))
    ensures AllPassive(a + (b + [saved])) && Sections(a + (b + [saved])) == Sections(a) + Sections(b)
  {
    SectionsConcat(a, b + [saved]);
    SectionsConcat(b, [saved]);
    NoSection(saved);
  }

  lemma NoSection(line: string)
    requires !Section(Strip(line))
    ensures Sections([line]) == []
  {
    assert [line][..0] == [];
  }

  /** Every median is still positive once rounded for printing: at least 0.0005 for
      throughput and bandwidth, and 0.0000005 for a latency. */
  ghost predicate MediansShow(places: seq<Place>) {
    forall i, m: Metric :: 0 <= i < |places| && PlaceReported(places[i]) ==> MedianAt(places[i], m) >= HalfUnit(m)
  }

  lemma ValueIsMedian(c: Cell, q: Place, m: Metric)
    requires ShowsMedians(c, q)
    ensures ValueOf(c, m) == MedianAt(q, m)
  {
    assert RP.Latency in c.values && RP.LatencyP95 in c.values && RP.LatencyP99 in c.values;
    assert RP.Throughput in c.values && RP.Bandwidth in c.values;
  }

  lemma ValuesShowMedians(cells: seq<Cell>, places: seq<Place>)
    requires AllShowMedians(cells, places)
    ensures AllValuesShow(cells) <==> MediansShow(places)
  {
    forall i, m: Metric | 0 <= i < |cells| ensures ValueOf(cells[i], m) == MedianAt(places[i], m) {
      ValueIsMedian(cells[i], places[i], m);
    }
  }

  function KeyAt(q: Place, m: Metric): Key { Key(q.pattern, q.transport, q.size, m) }

  /** The report shows the median of every place to half of the last printed decimal. */
  ghost predicate ReportsMedians(p: Parsed, places: seq<Place>) {
    forall i, m: Metric :: 0 <= i < |places| && PlaceReported(places[i]) ==>
      && KeyAt(places[i], m) in p.cells
      && IsRounded(p.cells[KeyAt(places[i], m)], MedianAt(places[i], m), m)
  }

  lemma CellsAreReported(cells: seq<Cell>, places: seq<Place>, results: map<Key, real>, keys: seq<Key>, t: Totals,
                         issues: seq<Issue>)
    requires AllShowMedians(cells, places) && DistinctCells(cells) && ResultsMatch(results, cells) && Enumerates(keys, results)
    requires Listed(Printed(results), keys)
    ensures ReportsMedians(FinalChecks(ParsedBack(Printed(results), keys, t, issues)), places)
  {
    forall i, m: Metric | 0 <= i < |places|
      ensures KeyAt(places[i], m) in keys && results[KeyAt(places[i], m)] == MedianAt(places[i], m)
    {
      assert ShowsMedians(cells[i], places[i]) && HasFive(results, cells[i]);
      assert KeyOf(cells[i], m) == KeyAt(places[i], m);
      ValueIsMedian(cells[i], places[i], m);
    }
    forall i, m: Metric | 0 <= i < |places|
      ensures IsRounded(Number(Units(MedianAt(places[i], m), m), Report.Places(m)), MedianAt(places[i], m), m)
    {
      assert ShowsMedians(cells[i], places[i]);
      PrintedIsRounded(MedianAt(places[i], m), m);
    }
  }

  /** Runs, classification, printing, parsing and checks together: the report is accepted
      if and only if every run of every cell counts and delivered all five metrics and every
      median is large enough to be printed as a positive number, and it then shows these
      medians to half of the last printed decimal. */
  method CheckRuns(patterns: seq<PatternRuns>, failFast: bool, before: seq<string>, skipNotes: seq<string>,
                   failureNotes: seq<string>, saved: string) returns (accepted: bool, parsed: Parsed)
    requires AllOk(patterns) && patterns != [] && DistinctPlaces(AllPlaces(patterns, |patterns|))
    requires AllPassive(before) && Sections(before) == [] && AllPassive(skipNotes) && AllPassive(failureNotes)
    requires Passive(saved) && !Section(Strip(saved))
    ensures accepted <==> AllGoodUpTo(patterns, |patterns|) && MediansShow(AllPlaces(patterns, |patterns|))
    ensures accepted ==> ReportsMedians(parsed, AllPlaces(patterns, |patterns|))
  {
    var cells, failures := RunAll(patterns, failFast);
    var t, results := Tally(cells);
    var keys := ListKeys(results);
    var skips := exists i :: 0 <= i < |cells| && StatusOf(cells[i]).Skip?;
    var after := Trailer(skips, failures, skipNotes, failureNotes, saved);
    TrailerSections(skips, failures, skipNotes, failureNotes, saved);
    KeysArePrintable(cells, results, keys);
    var lines := PrintedReport(before, Printed(results), keys, t, after);
    parsed := ParseReport(lines);
    var problems := CompletionErrors(parsed);
    accepted := problems == [] && parsed.issues == [] && parsed.duplicates == [];
    VerdictOnCells(cells, t, results, keys, before, after, AllPlaces(patterns, |patterns|));
  }

  lemma MediansAreReported(cells: seq<Cell>, t: Totals, results: map<Key, real>, keys: seq<Key>,
                           before: seq<string>, after: seq<string>, places: seq<Place>)
    requires AllShowMedians(cells, places) && DistinctCells(cells) && ResultsMatch(results, cells) && Enumerates(keys, results)
    requires AllPrintable(keys) && Listed(Printed(results), keys) && AllPassive(before) && AllPassive(after)
    ensures ReportsMedians(FinalChecks(AddLines(BLANK, PrintedReport(before, Printed(results), keys, t, after))), places)
  {
    ReportRoundTrip(before, Printed(results), keys, t, after);
    CellsAreReported(cells, places, results, keys, t, Sections(before) + Sections(after));
  }

  /** The verdict on the report of classified cells. */
  lemma VerdictOnCells(cells: seq<Cell>, t: Totals, results: map<Key, real>, keys: seq<Key>,
                       before: seq<string>, after: seq<string>, places: seq<Place>)
    requires cells != [] && Counted(cells, t) && ResultsMatch(results, cells)
    requires Enumerates(keys, results) && AllPrintable(keys) && Listed(Printed(results), keys)
    requires AllPassive(before) && AllPassive(after) && DistinctPlaces(places)
    requires AllSucceeded(cells) ==> AllShowMedians(cells, places) && Sections(before) + Sections(after) == []
    ensures var p := FinalChecks(AddLines(BLANK, PrintedReport(before, Printed(results), keys, t, after)));
      && (Accepted(p) <==> AllSucceeded(cells) && MediansShow(places))
      && (AllSucceeded(cells) ==> ReportsMedians(p, places))
  {
    if AllSucceeded(cells) {
      CellsAreDistinct(cells, places);
      SucceededReport(cells, t, results, keys, before, after);
      ValuesShowMedians(cells, places);
      MediansAreReported(cells, t, results, keys, before, after, places);
    } else {
      var i :| 0 <= i < |cells| && !StatusOf(cells[i]).Success?;
      SomethingElse(cells, i);
      UncleanReportRejected(before, Printed(results), keys, t, after);
    }
  }
}
