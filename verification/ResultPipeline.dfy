/** From isolated per-size benchmark cases to classified cells, in the multi-process C
    runner: per-size merge, per-run aggregation, classification and totals. */
module ResultPipeline {
  import opened Options

  type Size = int
  datatype Metric = Throughput | Bandwidth | Latency | LatencyP95 | LatencyP99
  datatype Sample = Sample(size: Size, metric: Metric)

  const METRICS: seq<Metric> := [Throughput, Bandwidth, Latency, LatencyP95, LatencyP99]
  const METRIC_COUNT := 5

  datatype Status = Success | Unsupported | Skip | Fail

  /** One size case run in its own server/client pair. */
  datatype Case = Case(status: Status, parsed: map<Sample, real>, timedOut: bool, reason: string)

  /** What running a case can report: a success carries at least one parsed value, and
      parsing keeps only values of the requested size. */
  predicate Reported(size: Size, c: Case) {
    && (c.status.Success? ==> c.parsed != map[])
    && (forall k :: k in c.parsed ==> k.size == size)
  }

  predicate AllReported(sizes: seq<Size>, cases: seq<Case>) {
    |cases| == |sizes| && forall i :: 0 <= i < |sizes| ==> Reported(sizes[i], cases[i])
  }

  datatype Merged = Merged(status: Status, parsed: map<Sample, real>, timedOut: bool, reason: string,
                           failures: map<Size, string>)

  /** Every case of the size succeeded. */
  predicate SizeSucceeded(sizes: seq<Size>, cases: seq<Case>, size: Size)
    requires |cases| == |sizes|
  {
    forall i :: 0 <= i < |sizes| && sizes[i] == size ==> cases[i].status.Success?
  }

  /** The value of the last successful case that reported it. */
  function Delivered(sizes: seq<Size>, cases: seq<Case>, k: Sample): Option<real>
    requires |cases| == |sizes|
    decreases |sizes|
  {
    if sizes == [] then None
    else
      var last := |sizes| - 1;
      if cases[last].status.Success? && k in cases[last].parsed then Some(cases[last].parsed[k])
      else Delivered(sizes[..last], cases[..last], k)
  }

  /** The failed sizes are those with an unsuccessful case. */
  ghost predicate FailuresMatch(failures: map<Size, string>, sizes: seq<Size>, cases: seq<Case>)
    requires |cases| == |sizes|
  {
    forall z :: z in failures <==> z in sizes && !SizeSucceeded(sizes, cases, z)
  }

  function Lookup(parsed: map<Sample, real>, k: Sample): Option<real> {
    if k in parsed then Some(parsed[k]) else None
  }

  /** The values kept are those delivered by successful cases. */
  ghost predicate ParsedMatch(parsed: map<Sample, real>, sizes: seq<Size>, cases: seq<Case>)
    requires |cases| == |sizes|
  {
    forall k :: Lookup(parsed, k) == Delivered(sizes, cases, k)
  }

  lemma SucceededStep(sizes: seq<Size>, cases: seq<Case>, i: nat, z: Size)
    requires |cases| == |sizes| && i < |sizes|
    ensures SizeSucceeded(sizes[..i + 1], cases[..i + 1], z)
       <==> SizeSucceeded(sizes[..i], cases[..i], z) && (sizes[i] == z ==> cases[i].status.Success?)
  {
    var s, c := sizes[..i + 1], cases[..i + 1];
    assert forall j :: 0 <= j < i ==> s[j] == sizes[..i][j] && c[j] == cases[..i][j];
    assert s[i] == sizes[i] && c[i] == cases[i];
  }

  lemma FailureStep(failures: map<Size, string>, sizes: seq<Size>, cases: seq<Case>, i: nat, reason: string)
    requires |cases| == |sizes| && i < |sizes| && FailuresMatch(failures, sizes[..i], cases[..i])
    ensures FailuresMatch(if cases[i].status.Success? then failures else failures[sizes[i] := reason],
                          sizes[..i + 1], cases[..i + 1])
  {
    assert sizes[..i + 1] == sizes[..i] + [sizes[i]];
    forall z { SucceededStep(sizes, cases, i, z); }
    assert sizes[i] !in sizes[..i] ==> SizeSucceeded(sizes[..i], cases[..i], sizes[i]);
  }

  lemma ParsedStep(parsed: map<Sample, real>, sizes: seq<Size>, cases: seq<Case>, i: nat)
    requires |cases| == |sizes| && i < |sizes| && ParsedMatch(parsed, sizes[..i], cases[..i])
    ensures ParsedMatch(if cases[i].status.Success? then parsed + cases[i].parsed else parsed,
                        sizes[..i + 1], cases[..i + 1])
  {
    var s, c := sizes[..i + 1], cases[..i + 1];
    assert s[..i] == sizes[..i] && c[..i] == cases[..i] && c[i] == cases[i];
    forall k
      ensures Lookup(if cases[i].status.Success? then parsed + cases[i].parsed else parsed, k) == Delivered(s, c, k)
    {
      assert Lookup(parsed, k) == Delivered(sizes[..i], cases[..i], k);
    }
  }

  /** The merge loop of `run_sizes_test`. A first case that is unsupported or skipped
      ends the transport; a later one counts as a failed size. */
  method MergeSizes(sizes: seq<Size>, cases: seq<Case>) returns (m: Merged)
    requires AllReported(sizes, cases)
    ensures m.status.Unsupported? || m.status.Skip? <==>
      sizes != [] && (cases[0].status.Unsupported? || cases[0].status.Skip?)
    ensures m.status.Unsupported? || m.status.Skip? ==>
      m.status == cases[0].status && m.parsed == map[] && m.failures == map[]
    ensures m.status.Success? || m.status.Fail? ==>
      && (m.status.Success? <==> m.failures == map[])
      && FailuresMatch(m.failures, sizes, cases) && ParsedMatch(m.parsed, sizes, cases)
      && (sizes != [] ==> m.parsed != map[] || m.failures != map[])
  {
    m := Merged(Success, map[], false, "", map[]);
    for i := 0 to |sizes|
      invariant m.status.Success? || m.status.Fail?
      invariant m.status.Success? <==> m.failures == map[]
      invariant FailuresMatch(m.failures, sizes[..i], cases[..i]) && ParsedMatch(m.parsed, sizes[..i], cases[..i])
      invariant if i > 0 then m.parsed != map[] || m.failures != map[] else m.parsed == map[] && m.failures == map[]
      invariant i > 0 ==> !cases[0].status.Unsupported? && !cases[0].status.Skip?
    {
      var size, c := sizes[i], cases[i];
      assert Reported(size, c);
      if c.status.Unsupported? || c.status.Skip? {
        if m.parsed == map[] && m.failures == map[] {
          m := m.(status := c.status, timedOut := c.timedOut, reason := c.reason);
          return;
        }
      }
      FailureStep(m.failures, sizes, cases, i, c.reason);
      ParsedStep(m.parsed, sizes, cases, i);
      if !c.status.Success? {
        m := m.(failures := m.failures[size := c.reason],
                timedOut := m.timedOut || c.timedOut,
                reason := if m.status.Success? then c.reason else m.reason,
                status := Fail);
        assert size in m.failures;
      } else {
        ghost var k :| k in c.parsed;
        m := m.(parsed := m.parsed + c.parsed);
        assert k in m.parsed;
      }
    }
    assert sizes[..|sizes|] == sizes && cases[..|cases|] == cases;
  }

  // --- aggregation over runs ---

  datatype Failure = Failure(size: Size, reason: string)

  /** A run either could not start at all, or ran one case per size. */
  datatype RunResult = NotStarted(timedOut: bool, reason: string) | Ran(cases: seq<Case>)

  datatype Kind = Measured | AllUnsupported | AllSkipped(reason: string) | Aborted
  datatype Collected = Collected(kind: Kind, values: map<Sample, real>, failures: seq<Failure>)

  /** Without configured sizes one default size is run, and nothing is reported. */
  function SizeList(sizes: seq<Size>): seq<Size> {
    if sizes == [] then [64] else sizes
  }

  predicate RunReported(sizes: seq<Size>, r: RunResult) {
    r.Ran? ==> AllReported(SizeList(sizes), r.cases)
  }

  predicate AllRunsReported(sizes: seq<Size>, runs: seq<RunResult>) {
    forall i :: 0 <= i < |runs| ==> RunReported(sizes, runs[i])
  }

  /** The run succeeded for the size and delivered all five metrics. */
  ghost predicate GoodRun(sizes: seq<Size>, r: RunResult, z: Size)
    requires RunReported(sizes, r)
  {
    && r.Ran? && SizeSucceeded(SizeList(sizes), r.cases, z)
    && forall metric :: Delivered(SizeList(sizes), r.cases, Sample(z, metric)).Some?
  }

  ghost predicate AllGood(sizes: seq<Size>, runs: seq<RunResult>, z: Size)
    requires AllRunsReported(sizes, runs)
  {
    forall i :: 0 <= i < |runs| ==> GoodRun(sizes, runs[i], z)
  }

  predicate Failed(failures: seq<Failure>, z: Size) {
    exists i :: 0 <= i < |failures| && failures[i].size == z
  }

  /** What one run contributes to the samples of a cell. */
  function Contribution(sizes: seq<Size>, r: RunResult, k: Sample): seq<real>
    requires RunReported(sizes, r)
  {
    if r.NotStarted? then []
    else match Delivered(SizeList(sizes), r.cases, k)
      case None => []
      case Some(v) => [v]
  }

  function Samples(sizes: seq<Size>, runs: seq<RunResult>, k: Sample): seq<real>
    requires AllRunsReported(sizes, runs)
    decreases |runs|
  {
    if runs == [] then []
    else
      var last := |runs| - 1;
      Samples(sizes, runs[..last], k) + Contribution(sizes, runs[last], k)
  }

  lemma {:induction false} OneSamplePerGoodRun(sizes: seq<Size>, runs: seq<RunResult>, z: Size, metric: Metric)
    requires AllRunsReported(sizes, runs) && AllGood(sizes, runs, z)
    ensures |Samples(sizes, runs, Sample(z, metric))| == |runs|
    decreases |runs|
  {
    if runs != [] {
      assert GoodRun(sizes, runs[|runs| - 1], z);
      OneSamplePerGoodRun(sizes, runs[..|runs| - 1], z, metric);
    }
  }

  lemma {:induction false} SampleOfRun(sizes: seq<Size>, runs: seq<RunResult>, z: Size, metric: Metric, i: nat)
    requires AllRunsReported(sizes, runs) && AllGood(sizes, runs, z) && i < |runs|
    ensures |Samples(sizes, runs, Sample(z, metric))| == |runs| && runs[i].Ran?
    ensures Delivered(SizeList(sizes), runs[i].cases, Sample(z, metric)) == Some(Samples(sizes, runs, Sample(z, metric))[i])
    decreases |runs|
  {
    var last := |runs| - 1;
    OneSamplePerGoodRun(sizes, runs, z, metric);
    OneSamplePerGoodRun(sizes, runs[..last], z, metric);
    assert GoodRun(sizes, runs[i], z);
    if i < last {
      SampleOfRun(sizes, runs[..last], z, metric, i);
    }
  }

  function Get(raw: map<Sample, seq<real>>, k: Sample): seq<real> {
    if k in raw then raw[k] else []
  }

  /** `metrics_raw.setdefault(key, []).append(value)` for every parsed key. */
  function AppendAll(raw: map<Sample, seq<real>>, parsed: map<Sample, real>): map<Sample, seq<real>> {
    map k | k in raw.Keys + parsed.Keys :: Get(raw, k) + (if k in parsed then [parsed[k]] else [])
  }

  ghost predicate RawMatches(raw: map<Sample, seq<real>>, sizes: seq<Size>, runs: seq<RunResult>)
    requires AllRunsReported(sizes, runs)
  {
    forall k :: Get(raw, k) == Samples(sizes, runs, k)
  }

  lemma RawStep(raw: map<Sample, seq<real>>, sizes: seq<Size>, runs: seq<RunResult>, i: nat, parsed: map<Sample, real>)
    requires i < |runs| && AllRunsReported(sizes, runs)
    requires RawMatches(raw, sizes, runs[..i])
    requires RunReported(sizes, runs[i])
    requires if runs[i].Ran? then ParsedMatch(parsed, SizeList(sizes), runs[i].cases) else parsed == map[]
    ensures RawMatches(AppendAll(raw, parsed), sizes, runs[..i + 1])
  {
    assert runs[..i + 1][..i] == runs[..i];
    forall k ensures Get(AppendAll(raw, parsed), k) == Samples(sizes, runs[..i + 1], k) {
      assert Get(raw, k) == Samples(sizes, runs[..i], k);
      if runs[i].Ran? { assert Lookup(parsed, k) == Delivered(SizeList(sizes), runs[i].cases, k); }
    }
  }

  function Missing(parsed: map<Sample, real>, z: Size): seq<Metric> {
    MissingAmong(parsed, z, METRICS)
  }

  function MissingAmong(parsed: map<Sample, real>, z: Size, metrics: seq<Metric>): (missing: seq<Metric>)
    ensures missing == [] <==> forall m :: m in metrics ==> Sample(z, m) in parsed
  {
    if metrics == [] then []
    else (if Sample(z, metrics[0]) in parsed then [] else [metrics[0]]) + MissingAmong(parsed, z, metrics[1..])
  }

  function MissingFailures(z: Size, missing: seq<Metric>, reason: string): (fs: seq<Failure>)
    ensures |fs| == |missing|
    ensures forall i :: 0 <= i < |fs| ==> fs[i].size == z
  {
    if missing == [] then [] else [Failure(z, reason)] + MissingFailures(z, missing[1..], reason)
  }

  /** A size is bad in a run when it failed there or delivered less than five metrics. */
  predicate BadSize(m: Merged, z: Size) {
    z in m.failures || Missing(m.parsed, z) != []
  }

  /** The loop over the sizes after a run that produced something. */
  method CheckSizes(sizes: seq<Size>, m: Merged, failFast: bool, before: seq<Failure>)
    returns (failures: seq<Failure>, aborted: bool)
    ensures aborted <==> failFast && exists z :: z in sizes && BadSize(m, z)
    ensures forall z :: Failed(failures, z) ==> Failed(before, z) || z in sizes
    ensures !aborted ==>
      forall z :: Failed(failures, z) <==> Failed(before, z) || (z in sizes && BadSize(m, z))
  {
    failures, aborted := before, false;
    for i := 0 to |sizes|
      invariant forall z :: Failed(failures, z) <==> Failed(before, z) || (z in sizes[..i] && BadSize(m, z))
      invariant failFast ==> forall z :: z in sizes[..i] ==> !BadSize(m, z)
    {
      var z := sizes[i];
      assert sizes[..i + 1] == sizes[..i] + [z];
      if z in m.failures {
        FailedMore(failures, [Failure(z, m.failures[z])], z);
        failures := failures + [Failure(z, m.failures[z])];
        assert z in sizes && BadSize(m, z);
        if failFast { return failures, true; }
      } else {
        var missing := Missing(m.parsed, z);
        if missing != [] {
          var more := MissingFailures(z, missing, m.reason);
          FailedMore(failures, more, z);
          failures := failures + more;
          assert z in sizes && BadSize(m, z);
          if failFast { return failures, true; }
        }
      }
    }
    assert sizes[..|sizes|] == sizes;
  }

  lemma FailedMore(a: seq<Failure>, b: seq<Failure>, size: Size)
    requires b != [] && forall i :: 0 <= i < |b| ==> b[i].size == size
    ensures forall z :: Failed(a + b, z) <==> Failed(a, z) || z == size
  {
    assert (a + b)[|a|] == b[0];
    forall z | Failed(a, z) ensures Failed(a + b, z) {
      var i :| 0 <= i < |a| && a[i].size == z;
      assert (a + b)[i] == a[i];
    }
  }

  /** The loop over the sizes after a run that produced nothing. Sizes whose row was
      already printed are passed over. */
  method FailAll(sizes: seq<Size>, live: set<Size>, reason: string, before: seq<Failure>) returns (failures: seq<Failure>)
    ensures forall z :: Failed(failures, z) <==> Failed(before, z) || (z in sizes && z !in live)
  {
    failures := before;
    for i := 0 to |sizes|
      invariant forall z :: Failed(failures, z) <==> Failed(before, z) || (z in sizes[..i] && z !in live)
    {
      assert sizes[..i + 1] == sizes[..i] + [sizes[i]];
      if sizes[i] !in live {
        FailedMore(failures, [Failure(sizes[i], reason)], sizes[i]);
        failures := failures + [Failure(sizes[i], reason)];
      }
    }
    assert sizes[..|sizes|] == sizes;
  }

  lemma EveryMetricIsListed()
    ensures forall metric: Metric :: metric in METRICS
  {
    forall metric: Metric ensures metric in METRICS {
      match metric
      case Throughput => assert METRICS[0] == metric;
      case Bandwidth => assert METRICS[1] == metric;
      case Latency => assert METRICS[2] == metric;
      case LatencyP95 => assert METRICS[3] == metric;
      case LatencyP99 => assert METRICS[4] == metric;
    }
  }

  /** A size is bad in the merged outcome exactly when the run was not good for it. */
  lemma BadMeansNotGood(sizes: seq<Size>, r: RunResult, m: Merged, z: Size)
    requires r.Ran? && RunReported(sizes, r) && z in sizes
    requires FailuresMatch(m.failures, SizeList(sizes), r.cases) && ParsedMatch(m.parsed, SizeList(sizes), r.cases)
    ensures BadSize(m, z) <==> !GoodRun(sizes, r, z)
  {
    EveryMetricIsListed();
    forall metric ensures Sample(z, metric) in m.parsed <==> Delivered(SizeList(sizes), r.cases, Sample(z, metric)).Some? {
      assert Lookup(m.parsed, Sample(z, metric)) == Delivered(SizeList(sizes), r.cases, Sample(z, metric));
    }
  }

  // --- the median ---

  function InsertReal(x: real, s: seq<real>): seq<real> {
    if s == [] || x <= s[0] then [x] + s else [s[0]] + InsertReal(x, s[1..])
  }

  function SortReals(s: seq<real>): seq<real> {
    if s == [] then [] else InsertReal(s[0], SortReals(s[1..]))
  }

  predicate Ordered(s: seq<real>) {
    forall i, j :: 0 <= i < j < |s| ==> s[i] <= s[j]
  }

  lemma {:induction false} InsertRealKeeps(x: real, s: seq<real>)
    ensures multiset(InsertReal(x, s)) == multiset(s) + multiset{x} && |InsertReal(x, s)| == |s| + 1
  {
    if s != [] && x > s[0] {
      InsertRealKeeps(x, s[1..]);
      assert s == [s[0]] + s[1..];
    }
  }

  lemma {:induction false} InsertRealOrders(x: real, s: seq<real>)
    requires Ordered(s)
    ensures Ordered(InsertReal(x, s))
    ensures s != [] ==> InsertReal(x, s)[0] == if x <= s[0] then x else s[0]
  {
    if s != [] && x > s[0] {
      var t := InsertReal(x, s[1..]);
      InsertRealOrders(x, s[1..]);
      assert s[0] <= t[0];
      assert forall i :: 0 <= i < |t| ==> t[0] <= t[i];
    }
  }

  lemma {:induction false} SortRealsKeeps(s: seq<real>)
    ensures multiset(SortReals(s)) == multiset(s) && |SortReals(s)| == |s|
  {
    if s != [] {
      SortRealsKeeps(s[1..]);
      InsertRealKeeps(s[0], SortReals(s[1..]));
      assert s == [s[0]] + s[1..];
    }
  }

  lemma {:induction false} SortRealsOrders(s: seq<real>)
    ensures Ordered(SortReals(s))
  {
    if s != [] {
      SortRealsOrders(s[1..]);
      InsertRealOrders(s[0], SortReals(s[1..]));
    }
  }

  /** `statistics.median`: the middle sample, or the mean of the two middle ones. */
  function Median(s: seq<real>): real
    requires s != []
  {
    SortRealsKeeps(s);
    var t, n := SortReals(s), |s|;
    if n % 2 == 1 then t[n / 2] else (t[n / 2 - 1] + t[n / 2]) / 2.0
  }

  lemma MiddleOfSorted(t: seq<real>, i: nat)
    requires i < |t| && Ordered(t)
    ensures var n := |t|;
      var middle := if n % 2 == 1 then t[n / 2] else (t[n / 2 - 1] + t[n / 2]) / 2.0;
      2.0 * middle == t[(n - 1) / 2] + t[n / 2] && (2 * i < n ==> t[i] <= middle) && (2 * i >= n - 1 ==> t[i] >= middle)
  {
    var n := |t|;
    if n % 2 == 0 {
      assert t[n / 2 - 1] <= (t[n / 2 - 1] + t[n / 2]) / 2.0 <= t[n / 2];
    }
  }

  /** The median is a middle value of the samples in sorted order: half of them are at
      most as large, half at least as large. */
  lemma MedianIsInTheMiddle(s: seq<real>, i: nat)
    requires i < |s|
    ensures |SortReals(s)| == |s| && multiset(SortReals(s)) == multiset(s)
    ensures 2.0 * Median(s) == SortReals(s)[(|s| - 1) / 2] + SortReals(s)[|s| / 2]
    ensures 2 * i < |s| ==> SortReals(s)[i] <= Median(s)
    ensures 2 * i >= |s| - 1 ==> SortReals(s)[i] >= Median(s)
  {
    SortRealsKeeps(s);
    SortRealsOrders(s);
    MiddleOfSorted(SortReals(s), i);
  }

  // --- one transport over all runs ---

  /** Only a run in which every configured size was run, and which is neither
      unsupported nor skipped, can be counted. */
  predicate Counts(sizes: seq<Size>, r: RunResult)
    requires RunReported(sizes, r)
  {
    r.Ran? ==> !r.cases[0].status.Unsupported? && !r.cases[0].status.Skip?
  }

  method OneRun(sizes: seq<Size>, r: RunResult) returns (m: Merged, live: set<Size>)
    requires RunReported(sizes, r)
    ensures Counts(sizes, r) <==> m.status.Success? || m.status.Fail?
    ensures !Counts(sizes, r) ==> m.status == LastWord(sizes, r)
    ensures Counts(sizes, r) && r.Ran? ==>
      && FailuresMatch(m.failures, SizeList(sizes), r.cases) && ParsedMatch(m.parsed, SizeList(sizes), r.cases)
      && (m.parsed != map[] || m.failures != map[])
    ensures r.NotStarted? ==> m.parsed == map[] && m.failures == map[] && live == {}
  {
    if r.NotStarted? {
      m, live := Merged(Fail, map[], r.timedOut, r.reason, map[]), {};
    } else {
      m := MergeSizes(SizeList(sizes), r.cases);
      live := set z | z in sizes;
    }
  }

  /** The recorded failures name exactly the sizes some run was not good for. */
  ghost predicate FailuresTrack(failures: seq<Failure>, sizes: seq<Size>, runs: seq<RunResult>)
    requires AllRunsReported(sizes, runs)
  {
    forall z :: z in sizes ==> (Failed(failures, z) <==> !AllGood(sizes, runs, z))
  }

  lemma FailuresStep(before: seq<Failure>, failures: seq<Failure>, sizes: seq<Size>, runs: seq<RunResult>, i: nat)
    requires i < |runs| && AllRunsReported(sizes, runs) && FailuresTrack(before, sizes, runs[..i])
    requires forall z :: z in sizes ==> (Failed(failures, z) <==> Failed(before, z) || !GoodRun(sizes, runs[i], z))
    ensures FailuresTrack(failures, sizes, runs[..i + 1])
  {
    forall z | z in sizes ensures Failed(failures, z) <==> !AllGood(sizes, runs[..i + 1], z) {
      GoodStep(sizes, runs, i, z);
    }
  }

  /** The run could not start, or did not deliver all five metrics for every size. */
  ghost predicate FailsSome(sizes: seq<Size>, r: RunResult)
    requires RunReported(sizes, r)
  {
    r.NotStarted? || exists z :: z in sizes && !GoodRun(sizes, r, z)
  }

  /** What a counted run adds to the failures. */
  method RecordRun(sizes: seq<Size>, r: RunResult, m: Merged, live: set<Size>, failFast: bool, before: seq<Failure>)
    returns (failures: seq<Failure>, aborted: bool)
    requires RunReported(sizes, r)
    requires r.Ran? ==>
      && FailuresMatch(m.failures, SizeList(sizes), r.cases) && ParsedMatch(m.parsed, SizeList(sizes), r.cases)
      && (m.parsed != map[] || m.failures != map[])
    requires r.NotStarted? ==> m.parsed == map[] && m.failures == map[] && live == {}
    ensures aborted <==> failFast && FailsSome(sizes, r)
    ensures forall z :: Failed(failures, z) ==> Failed(before, z) || z in sizes
    ensures !aborted ==>
      forall z :: z in sizes ==> (Failed(failures, z) <==> Failed(before, z) || !GoodRun(sizes, r, z))
  {
    if m.parsed == map[] && m.failures == map[] {
      failures := FailAll(sizes, live, if m.timedOut then "timeout" else m.reason, before);
      aborted := failFast;
      assert r.NotStarted?;
    } else {
      failures, aborted := CheckSizes(sizes, m, failFast, before);
      forall z | z in sizes ensures BadSize(m, z) <==> !GoodRun(sizes, r, z) {
        BadMeansNotGood(sizes, r, m, z);
      }
    }
  }

  ghost predicate ValuesMatch(values: map<Sample, real>, sizes: seq<Size>, runs: seq<RunResult>)
    requires AllRunsReported(sizes, runs)
  {
    forall z, metric :: z in sizes ==>
      var k := Sample(z, metric);
      var samples := Samples(sizes, runs, k);
      k in values && values[k] == if samples == [] then 0.0 else Median(samples)
  }

  /** The run is the last one: it is unsupported or skipped, or fails under fail-fast. */
  ghost predicate Ends(sizes: seq<Size>, r: RunResult, failFast: bool)
    requires RunReported(sizes, r)
  {
    !Counts(sizes, r) || (failFast && FailsSome(sizes, r))
  }

  ghost predicate FirstToEnd(sizes: seq<Size>, runs: seq<RunResult>, failFast: bool, i: int)
    requires AllRunsReported(sizes, runs)
  {
    0 <= i < |runs| && Ends(sizes, runs[i], failFast) && forall j :: 0 <= j < i ==> !Ends(sizes, runs[j], failFast)
  }

  /** The samples and failures of the first `n` runs, none of which ended the transport. */
  ghost predicate CollectedUpTo(sizes: seq<Size>, runs: seq<RunResult>, n: nat, raw: map<Sample, seq<real>>,
                                failures: seq<Failure>, failFast: bool)
    requires n <= |runs| && AllRunsReported(sizes, runs)
  {
    && (forall j :: 0 <= j < n ==> !Ends(sizes, runs[j], failFast))
    && (forall z :: Failed(failures, z) ==> z in sizes)
    && RawMatches(raw, sizes, runs[..n]) && FailuresTrack(failures, sizes, runs[..n])
  }

  /** What the run says about the transport if it is the last one. */
  function LastWord(sizes: seq<Size>, r: RunResult): Status
    requires RunReported(sizes, r)
  {
    if Counts(sizes, r) then Fail else r.cases[0].status
  }

  /** The first run that ends the transport gives it this status. */
  ghost predicate EndsWith(sizes: seq<Size>, runs: seq<RunResult>, failFast: bool, word: Status)
    requires AllRunsReported(sizes, runs)
  {
    exists i :: FirstToEnd(sizes, runs, failFast, i) && LastWord(sizes, runs[i]) == word
  }

  ghost predicate AllRun(sizes: seq<Size>, runs: seq<RunResult>, failFast: bool)
    requires AllRunsReported(sizes, runs)
  {
    forall i :: 0 <= i < |runs| ==> !Ends(sizes, runs[i], failFast)
  }

  /** Why a transport ends: after all its runs, or with the first run that ends it. */
  ghost predicate StopsFor(stop: Kind, sizes: seq<Size>, runs: seq<RunResult>, failFast: bool)
    requires AllRunsReported(sizes, runs)
  {
    match stop
    case Measured => AllRun(sizes, runs, failFast)
    case AllUnsupported => EndsWith(sizes, runs, failFast, Unsupported)
    case AllSkipped(_) => EndsWith(sizes, runs, failFast, Skip)
    case Aborted => EndsWith(sizes, runs, failFast, Fail)
  }

  /** One run of the multi branch of `collect_data`: it may end the transport, and otherwise
      adds its samples and failures. */
  method AddRun(sizes: seq<Size>, runs: seq<RunResult>, i: nat, failFast: bool, raw: map<Sample, seq<real>>,
                failures: seq<Failure>) returns (stop: Option<Kind>, raw': map<Sample, seq<real>>, failures': seq<Failure>)
    requires AllRunsReported(sizes, runs) && i < |runs| && CollectedUpTo(sizes, runs, i, raw, failures, failFast)
    ensures stop.None? <==> !Ends(sizes, runs[i], failFast)
    ensures stop.None? ==> CollectedUpTo(sizes, runs, i + 1, raw', failures', failFast)
    ensures stop.Some? ==> StopsFor(stop.value, sizes, runs, failFast) && !stop.value.Measured?
    ensures forall z :: Failed(failures', z) ==> z in sizes
  {
    var m, live := OneRun(sizes, runs[i]);
    raw', failures' := raw, failures;
    assert Ends(sizes, runs[i], failFast) ==> FirstToEnd(sizes, runs, failFast, i);
    if m.status.Unsupported? { return Some(AllUnsupported), raw', failures'; }
    if m.status.Skip? { return Some(AllSkipped(m.reason)), raw', failures'; }
    RawStep(raw, sizes, runs, i, m.parsed);
    raw' := AppendAll(raw, m.parsed);
    var more, aborted := RecordRun(sizes, runs[i], m, live, failFast, failures);
    failures' := more;
    if aborted {
      return Some(Aborted), raw', failures';
    }
    FailuresStep(failures, more, sizes, runs, i);
    stop := None;
  }

  /** The multi branch of `collect_data` for one transport. */
  method CollectTransport(sizes: seq<Size>, runs: seq<RunResult>, failFast: bool) returns (c: Collected)
    requires AllRunsReported(sizes, runs)
    ensures StopsFor(c.kind, sizes, runs, failFast) && (!c.kind.Measured? ==> c.values == map[])
    ensures c.kind.Measured? ==> FailuresTrack(c.failures, sizes, runs) && ValuesMatch(c.values, sizes, runs)
    ensures forall z :: Failed(c.failures, z) ==> z in sizes
  {
    var raw: map<Sample, seq<real>> := map[];
    var failures: seq<Failure> := [];
    for i := 0 to |runs|
      invariant CollectedUpTo(sizes, runs, i, raw, failures, failFast)
    {
      var stop;
      stop, raw, failures := AddRun(sizes, runs, i, failFast, raw, failures);
      if stop.Some? { return Collected(stop.value, map[], failures); }
    }
    assert runs[..|runs|] == runs;
    ValuesFromRaw(raw, sizes, runs);
    c := Collected(Measured, Values(sizes, raw), failures);
  }

  lemma ValuesFromRaw(raw: map<Sample, seq<real>>, sizes: seq<Size>, runs: seq<RunResult>)
    requires AllRunsReported(sizes, runs) && RawMatches(raw, sizes, runs)
    ensures ValuesMatch(Values(sizes, raw), sizes, runs)
  {
    forall z, metric | z in sizes
      ensures Values(sizes, raw)[Sample(z, metric)]
           == if Samples(sizes, runs, Sample(z, metric)) == [] then 0.0 else Median(Samples(sizes, runs, Sample(z, metric)))
    {
      assert Get(raw, Sample(z, metric)) == Samples(sizes, runs, Sample(z, metric));
    }
  }

  lemma GoodStep(sizes: seq<Size>, runs: seq<RunResult>, i: nat, z: Size)
    requires i < |runs| && AllRunsReported(sizes, runs)
    ensures AllGood(sizes, runs[..i + 1], z) <==> AllGood(sizes, runs[..i], z) && GoodRun(sizes, runs[i], z)
  {
    assert forall j :: 0 <= j < i ==> runs[..i + 1][j] == runs[..i][j];
    assert runs[..i + 1][i] == runs[i];
  }

  function Values(sizes: seq<Size>, raw: map<Sample, seq<real>>): (values: map<Sample, real>)
    ensures forall z, metric :: z in sizes ==> Sample(z, metric) in values
    ensures forall k :: k in values ==> values[k] == if Get(raw, k) == [] then 0.0 else Median(Get(raw, k))
  {
    EveryMetricIsListed();
    map k | k in (set z, metric | z in sizes && metric in METRICS :: Sample(z, metric))
      :: if Get(raw, k) == [] then 0.0 else Median(Get(raw, k))
  }

  /** The status `main` gives to one size of a transport. */
  function Classify(c: Collected, z: Size): Status {
    if c.kind.AllUnsupported? then Unsupported
    else if c.kind.AllSkipped? then Skip
    else if Failed(c.failures, z) || Sample(z, Throughput) !in c.values
            || Sample(z, Bandwidth) !in c.values || Sample(z, Latency) !in c.values then Fail
    else Success
  }

  /** The status of a cell, exactly: what the first run says that ends the transport, and
      without such a run success exactly when every run is good for the size. */
  ghost predicate StatusFits(status: Status, sizes: seq<Size>, runs: seq<RunResult>, failFast: bool, z: Size)
    requires AllRunsReported(sizes, runs)
  {
    && (status.Unsupported? <==> EndsWith(sizes, runs, failFast, Unsupported))
    && (status.Skip? <==> EndsWith(sizes, runs, failFast, Skip))
    && (status.Fail? <==>
          EndsWith(sizes, runs, failFast, Fail) || (AllRun(sizes, runs, failFast) && !AllGood(sizes, runs, z)))
    && (status.Success? <==> AllRun(sizes, runs, failFast) && AllGood(sizes, runs, z))
  }

  lemma OneLastWord(sizes: seq<Size>, runs: seq<RunResult>, failFast: bool, a: Status, b: Status)
    requires AllRunsReported(sizes, runs) && EndsWith(sizes, runs, failFast, a)
    ensures EndsWith(sizes, runs, failFast, b) ==> a == b
    ensures !AllRun(sizes, runs, failFast)
  {
    var i :| FirstToEnd(sizes, runs, failFast, i) && LastWord(sizes, runs[i]) == a;
    if j :| FirstToEnd(sizes, runs, failFast, j) && LastWord(sizes, runs[j]) == b {
      assert i == j;
    }
  }

  /** The classification of a transport's sizes follows from its runs alone. */
  lemma ClassifyFits(c: Collected, sizes: seq<Size>, runs: seq<RunResult>, failFast: bool, z: Size)
    requires z in sizes && AllRunsReported(sizes, runs) && StopsFor(c.kind, sizes, runs, failFast)
    requires !c.kind.Measured? ==> c.values == map[]
    requires c.kind.Measured? ==> FailuresTrack(c.failures, sizes, runs) && ValuesMatch(c.values, sizes, runs)
    ensures StatusFits(Classify(c, z), sizes, runs, failFast, z)
  {
    if c.kind.Measured? {
      assert Sample(z, Throughput) in c.values && Sample(z, Bandwidth) in c.values && Sample(z, Latency) in c.values;
      NoLastWord(sizes, runs, failFast);
    } else {
      var word := if c.kind.AllUnsupported? then Unsupported else if c.kind.AllSkipped? then Skip else Fail;
      OneLastWord(sizes, runs, failFast, word, Unsupported);
      OneLastWord(sizes, runs, failFast, word, Skip);
      OneLastWord(sizes, runs, failFast, word, Fail);
    }
  }

  lemma NoLastWord(sizes: seq<Size>, runs: seq<RunResult>, failFast: bool)
    requires AllRunsReported(sizes, runs) && AllRun(sizes, runs, failFast)
    ensures forall word :: !EndsWith(sizes, runs, failFast, word)
  {
  }

  /** A cell gets the status its runs call for; a success shows the median of one sample per
      run. */
  method ClassifyCell(sizes: seq<Size>, runs: seq<RunResult>, failFast: bool, z: Size, metric: Metric)
    returns (status: Status, value: real)
    requires z in sizes && AllRunsReported(sizes, runs)
    ensures StatusFits(status, sizes, runs, failFast, z)
    ensures status.Success? && runs != [] ==>
      var samples := Samples(sizes, runs, Sample(z, metric));
      && |samples| == |runs|
      && (forall i :: 0 <= i < |runs| ==>
            runs[i].Ran? && Delivered(SizeList(sizes), runs[i].cases, Sample(z, metric)) == Some(samples[i]))
      && value == Median(samples)
  {
    var c := CollectTransport(sizes, runs, failFast);
    status := Classify(c, z);
    value := if Sample(z, metric) in c.values then c.values[Sample(z, metric)] else 0.0;
    ClassifyFits(c, sizes, runs, failFast, z);
    if status.Success? {
      OneSamplePerGoodRun(sizes, runs, z, metric);
      forall i | 0 <= i < |runs|
        ensures runs[i].Ran? && Delivered(SizeList(sizes), runs[i].cases, Sample(z, metric))
             == Some(Samples(sizes, runs, Sample(z, metric))[i])
      {
        SampleOfRun(sizes, runs, z, metric, i);
      }
      assert Sample(z, metric) in c.values;
    }
  }
}
