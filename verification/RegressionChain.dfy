/** What passing the regression gate release after release says about the first and the
    last release. */
module RegressionChain {
  import opened RegressionGate
  import Report
  import RP = ResultPipeline

  // --- products of ratios ---

  function Times(a: seq<real>, b: seq<real>): (r: seq<real>)
    requires |a| == |b|
    ensures |r| == |a| && forall i :: 0 <= i < |r| ==> r[i] == a[i] * b[i]
  {
    seq(|a|, i requires 0 <= i < |a| => a[i] * b[i])
  }

  lemma Regroup(a: real, b: real, x: real, y: real)
    ensures (a * b) * (x * y) == (a * x) * (b * y)
  {
  }

  lemma TimesTail(a: seq<real>, b: seq<real>)
    requires |a| == |b| > 0
    ensures Times(a, b)[1..] == Times(a[1..], b[1..])
  {
    var tail, rest := Times(a, b)[1..], Times(a[1..], b[1..]);
    forall i | 0 <= i < |rest| ensures tail[i] == rest[i] {
      assert tail[i] == Times(a, b)[i + 1];
      assert a[1..][i] == a[i + 1] && b[1..][i] == b[i + 1];
    }
  }

  lemma {:induction false} ProductOfTimes(a: seq<real>, b: seq<real>)
    requires |a| == |b|
    ensures Product(Times(a, b)) == Product(a) * Product(b)
    decreases |a|
  {
    if a != [] {
      ProductOfTimes(a[1..], b[1..]);
      TimesTail(a, b);
      Regroup(a[0], b[0], Product(a[1..]), Product(b[1..]));
    }
  }

  predicate NonNegative(s: seq<real>) { forall i :: 0 <= i < |s| ==> s[i] >= 0.0 }

  lemma {:induction false} ProductIsNonNegative(s: seq<real>)
    requires NonNegative(s)
    ensures Product(s) >= 0.0
    decreases |s|
  {
    if s != [] { ProductIsNonNegative(s[1..]); }
  }

  lemma MonotoneProduct(x: real, y: real, lo: real, z: real)
    requires x >= lo >= 0.0 && y >= z >= 0.0
    ensures x * y >= lo * z
  {
    assert (x - lo) * y >= 0.0;
    assert lo * (y - z) >= 0.0;
    assert x * y - lo * z == (x - lo) * y + lo * (y - z);
  }

  lemma RightSideComposes(m: Metric, p: real, q: real)
    requires p >= 0.0 && q >= 0.0 && RightSide(m, p) && RightSide(m, q)
    ensures RightSide(m, p * q)
  {
    if HigherIsBetter(m) { MonotoneProduct(p, q, 1.0, 1.0); } else { MonotoneProduct(1.0, 1.0, p, q); }
  }

  // --- two steps make one ---

  lemma Cancel(x: real, y: real, z: real)
    requires x != 0.0 && y != 0.0
    ensures (y / x) * (z / y) == z / x
  {
    var p, q := y / x, z / y;
    assert p * x == y && q * y == z;
    assert (p * q) * x == q * (p * x);
    Quotient(p * q, x, z);
  }

  lemma Quotient(r: real, x: real, z: real)
    requires x != 0.0 && r * x == z
    ensures z / x == r
  {
  }

  lemma RatioComposes(a: Cells, b: Cells, c: Cells, k: Key)
    requires Comparable(a, b, k) && Comparable(b, c, k)
    ensures Comparable(a, c, k) && Ratio(a, c, k) == Ratio(a, b, k) * Ratio(b, c, k)
  {
    Cancel(a[k].value, b[k].value, c[k].value);
  }

  lemma SizeRatioComposes(a: Cells, b: Cells, c: Cells, k: Key)
    requires Comparable(a, b, k) && Comparable(b, c, k) && Ratio(a, b, k) >= 0.0 && Ratio(b, c, k) >= 0.0
    ensures Comparable(a, c, k) && Ratio(a, c, k) >= 0.0 && Ratio(a, c, k) == Ratio(a, b, k) * Ratio(b, c, k)
  {
    RatioComposes(a, b, c, k);
    MonotoneProduct(Ratio(a, b, k), Ratio(b, c, k), 0.0, 0.0);
  }

  lemma RatiosCompose(a: Cells, b: Cells, c: Cells, p: string, t: string, m: Metric)
    requires SeriesPasses(a, b, p, t, m) && SeriesPasses(b, c, p, t, m)
    ensures Ratios(a, c, p, t, m) == Times(Ratios(a, b, p, t, m), Ratios(b, c, p, t, m))
    ensures forall i :: 0 <= i < |REQUIRED_SIZES| ==>
      Comparable(a, c, SizeKey(p, t, m, i)) && Ratio(a, c, SizeKey(p, t, m, i)) >= 0.0
  {
    var r, s, both := Ratios(a, b, p, t, m), Ratios(b, c, p, t, m), Ratios(a, c, p, t, m);
    forall i | 0 <= i < |REQUIRED_SIZES|
      ensures var k := SizeKey(p, t, m, i);
        Comparable(a, c, k) && Ratio(a, c, k) >= 0.0 && both[i] == Times(r, s)[i]
    {
      var k := SizeKey(p, t, m, i);
      SizeRatioComposes(a, b, c, k);
      assert r[i] == Ratio(a, b, k) && s[i] == Ratio(b, c, k) && both[i] == Ratio(a, c, k);
    }
  }

  lemma SeriesComposes(a: Cells, b: Cells, c: Cells, p: string, t: string, m: Metric)
    requires SeriesPasses(a, b, p, t, m) && SeriesPasses(b, c, p, t, m)
    ensures SeriesPasses(a, c, p, t, m)
  {
    var r, s := Ratios(a, b, p, t, m), Ratios(b, c, p, t, m);
    RatiosCompose(a, b, c, p, t, m);
    ProductOfTimes(r, s);
    ProductIsNonNegative(r);
    ProductIsNonNegative(s);
    RightSideComposes(m, Product(r), Product(s));
  }

  // --- chains ---

  /** Each release passed the gate against the one before it. */
  ghost predicate PassingChain(releases: seq<Cells>) {
    |releases| >= 2 && forall i :: 0 <= i < |releases| - 1 ==> PairPasses(releases[i], releases[i + 1])
  }

  ghost predicate SameCells(b: Cells, c: Cells) {
    b.Keys == c.Keys && forall k :: k in b ==> Comparable(b, c, k)
  }

  lemma ChainPrefix(releases: seq<Cells>)
    requires PassingChain(releases) && |releases| > 2
    ensures PassingChain(releases[..|releases| - 1])
  {
    var init := releases[..|releases| - 1];
    assert forall i :: 0 <= i < |init| ==> init[i] == releases[i];
  }

  /** Along a chain of passing comparisons the first and the last release have the same
      cells, and every aggregate passes between them too. */
  lemma {:induction false} AggregatesPassAlongChains(releases: seq<Cells>)
    requires PassingChain(releases)
    ensures SameCells(releases[0], releases[|releases| - 1])
    ensures AggregatesPass(releases[0], releases[|releases| - 1])
    decreases |releases|
  {
    var n := |releases|;
    assert PairPasses(releases[n - 2], releases[n - 1]);
    if n > 2 {
      var a, b, c := releases[0], releases[n - 2], releases[n - 1];
      ChainPrefix(releases);
      AggregatesPassAlongChains(releases[..n - 1]);
      forall k | k in a ensures Comparable(a, c, k) { RatioComposes(a, b, c, k); }
      forall k: Key, m: Metric | k in a.Keys + c.Keys ensures SeriesPasses(a, c, k.pattern, k.transport, m) {
        SeriesComposes(a, b, c, k.pattern, k.transport, m);
      }
    }
  }

  /** So the direct comparison of the two ends can only fail on the per-cell limits. */
  lemma EndsPassExactlyWithinCellLimits(releases: seq<Cells>)
    requires PassingChain(releases)
    ensures var first, last := releases[0], releases[|releases| - 1];
      && (forall k :: k in first ==> Comparable(first, last, k))
      && (PairPasses(first, last) <==> forall k :: k in first ==> WithinLimit(k.metric, Ratio(first, last, k)))
  {
    AggregatesPassAlongChains(releases);
  }

  // --- how far a single cell can drift ---

  function Power(x: real, n: nat): real {
    if n == 0 then 1.0 else Power(x, n - 1) * x
  }

  lemma {:induction false} PowerIsNonNegative(x: real, n: nat)
    requires x >= 0.0
    ensures Power(x, n) >= 0.0
  {
    if n > 0 {
      PowerIsNonNegative(x, n - 1);
      MonotoneProduct(Power(x, n - 1), x, 0.0, 0.0);
    }
  }

  /** A throughput or bandwidth cell keeps at least 0.95 of its value per step; a latency
      cell whose ratios are not negative grows at most by 1.05 per step. */
  predicate DriftBounded(m: Metric, ratio: real, steps: nat, signed: bool) {
    match m
    case Throughput => ratio >= Power(0.95, steps)
    case Bandwidth => ratio >= Power(0.95, steps)
    case Latency => signed ==> 0.0 <= ratio <= Power(1.05, steps)
    case LatencyP95 => signed ==> 0.0 <= ratio <= Power(1.05, steps)
    case LatencyP99 => signed ==> 0.0 <= ratio <= Power(1.05, steps)
  }

  /** The cell is of a required size, or is negative in no release. */
  ghost predicate Signed(releases: seq<Cells>, k: Key) {
    || k.size in REQUIRED_SIZES
    || forall i :: 0 <= i < |releases| ==> k in releases[i] && releases[i][k].Finite? && releases[i][k].value >= 0.0
  }

  lemma RequiredCellIsNonNegative(b: Cells, c: Cells, k: Key)
    requires PairPasses(b, c) && k in b && k.size in REQUIRED_SIZES
    ensures Comparable(b, c, k) && Ratio(b, c, k) >= 0.0
  {
    assert k in b.Keys + c.Keys && SeriesPasses(b, c, k.pattern, k.transport, k.metric);
    var i :| 0 <= i < |REQUIRED_SIZES| && REQUIRED_SIZES[i] == k.size;
    assert SizeKey(k.pattern, k.transport, k.metric, i) == k;
  }

  lemma QuotientIsNonNegative(x: real, y: real)
    requires x >= 0.0 && y > 0.0
    ensures x / y >= 0.0
  {
  }

  lemma SignedRatio(releases: seq<Cells>, k: Key, i: nat)
    requires PassingChain(releases) && i < |releases| - 1 && Signed(releases, k) && k in releases[i]
    ensures Comparable(releases[i], releases[i + 1], k) && Ratio(releases[i], releases[i + 1], k) >= 0.0
  {
    var b, c := releases[i], releases[i + 1];
    assert PairPasses(b, c) && CellPasses(b, c, k);
    if k.size in REQUIRED_SIZES {
      RequiredCellIsNonNegative(b, c, k);
    } else {
      QuotientIsNonNegative(c[k].value, b[k].value);
    }
  }

  lemma DriftComposes(m: Metric, far: real, step: real, steps: nat, signed: bool)
    requires DriftBounded(m, far, steps, signed) && WithinLimit(m, step) && (signed ==> step >= 0.0)
    ensures DriftBounded(m, far * step, steps + 1, signed)
  {
    if HigherIsBetter(m) {
      PowerIsNonNegative(0.95, steps);
      MonotoneProduct(far, step, Power(0.95, steps), 0.95);
    } else if signed {
      MonotoneProduct(Power(1.05, steps), 1.05, far, step);
      MonotoneProduct(far, step, 0.0, 0.0);
    }
  }

  lemma {:induction false} DriftAlongChains(releases: seq<Cells>, k: Key)
    requires PassingChain(releases) && k in releases[0]
    ensures var first, last := releases[0], releases[|releases| - 1];
      Comparable(first, last, k) && DriftBounded(k.metric, Ratio(first, last, k), |releases| - 1, Signed(releases, k))
    decreases |releases|
  {
    var n := |releases|;
    if n == 2 {
      LastStep(releases, k);
      DriftOfOneStep(k.metric, Ratio(releases[0], releases[1], k), Signed(releases, k));
    } else {
      var a, b, c := releases[0], releases[n - 2], releases[n - 1];
      ChainPrefix(releases);
      AggregatesPassAlongChains(releases[..n - 1]);
      DriftAlongChains(releases[..n - 1], k);
      if Signed(releases, k) { SignedPrefix(releases, k); }
      LastStep(releases, k);
      RatioComposes(a, b, c, k);
      DriftComposes(k.metric, Ratio(a, b, k), Ratio(b, c, k), n - 2, Signed(releases, k));
    }
  }

  lemma SignedPrefix(releases: seq<Cells>, k: Key)
    requires |releases| > 0 && Signed(releases, k)
    ensures Signed(releases[..|releases| - 1], k)
  {
  }

  lemma LastStep(releases: seq<Cells>, k: Key)
    requires PassingChain(releases) && k in releases[|releases| - 2]
    ensures var b, c := releases[|releases| - 2], releases[|releases| - 1];
      CellPasses(b, c, k) && (Signed(releases, k) ==> Ratio(b, c, k) >= 0.0)
  {
    var i := |releases| - 2;
    assert PairPasses(releases[i], releases[i + 1]);
    if Signed(releases, k) { SignedRatio(releases, k, i); }
  }

  lemma DriftOfOneStep(m: Metric, step: real, signed: bool)
    requires WithinLimit(m, step) && (signed ==> step >= 0.0)
    ensures DriftBounded(m, step, 1, signed)
  {
    assert Power(0.95, 1) == Power(0.95, 0) * 0.95 && Power(1.05, 1) == Power(1.05, 0) * 1.05;
  }

  // --- the cell limits do not compose ---

  function Series(p: string, t: string): set<Key> {
    set size, m | size in REQUIRED_SIZES && m in RP.METRICS :: Report.Key(p, t, size, m)
  }

  /** A release where only the throughput at the two smallest sizes varies. */
  function Release(small: real, next: real): Cells {
    map k | k in Series("PAIR", "tcp") ::
      Finite(if k.metric.Throughput? && k.size == 64 then small
             else if k.metric.Throughput? && k.size == 256 then next
             else 1.0)
  }

  lemma ReleaseKeys(k: Key, small: real, next: real)
    ensures k in Release(small, next) <==> k.pattern == "PAIR" && k.transport == "tcp" && k.size in REQUIRED_SIZES
  {
    RP.EveryMetricIsListed();
  }

  lemma PairProduct(x: real, y: real)
    ensures Product([x, y, 1.0, 1.0]) == x * y
  {
    FourProduct(x, y, 1.0, 1.0);
  }

  lemma ReleaseRatio(a: real, b: real, c: real, d: real, k: Key)
    requires a > 0.0 && b > 0.0 && c > 0.0 && d > 0.0 && k in Release(a, b)
    ensures Comparable(Release(a, b), Release(c, d), k)
    ensures Ratio(Release(a, b), Release(c, d), k)
         == if k.metric.Throughput? && k.size == 64 then c / a
            else if k.metric.Throughput? && k.size == 256 then d / b
            else 1.0
  {
    ReleaseKeys(k, a, b);
    ReleaseKeys(k, c, d);
  }

  lemma ReleaseCell(a: real, b: real, c: real, d: real, m: Metric, i: nat)
    requires a > 0.0 && b > 0.0 && c > 0.0 && d > 0.0 && i < |REQUIRED_SIZES|
    ensures var x, y, k := Release(a, b), Release(c, d), SizeKey("PAIR", "tcp", m, i);
      && Comparable(x, y, k)
      && Ratio(x, y, k) == (if m.Throughput? && i == 0 then c / a else if m.Throughput? && i == 1 then d / b else 1.0)
  {
    var k := SizeKey("PAIR", "tcp", m, i);
    ReleaseKeys(k, a, b);
    ReleaseRatio(a, b, c, d, k);
  }

  lemma ReleaseRatios(a: real, b: real, c: real, d: real, m: Metric)
    requires a > 0.0 && b > 0.0 && c > 0.0 && d > 0.0
    ensures Ratios(Release(a, b), Release(c, d), "PAIR", "tcp", m)
         == [if m.Throughput? then c / a else 1.0, if m.Throughput? then d / b else 1.0, 1.0, 1.0]
  {
    var r := Ratios(Release(a, b), Release(c, d), "PAIR", "tcp", m);
    ReleaseCell(a, b, c, d, m, 0);
    ReleaseCell(a, b, c, d, m, 1);
    ReleaseCell(a, b, c, d, m, 2);
    ReleaseCell(a, b, c, d, m, 3);
    assert |r| == 4;
  }

  lemma PositiveQuotient(x: real, y: real)
    requires x > 0.0 && y > 0.0
    ensures x / y > 0.0
  {
  }

  lemma ReleaseSeries(a: real, b: real, c: real, d: real, m: Metric)
    requires a > 0.0 && b > 0.0 && c > 0.0 && d > 0.0 && (c / a) * (d / b) >= 1.0
    ensures SeriesPasses(Release(a, b), Release(c, d), "PAIR", "tcp", m)
  {
    var x, y := Release(a, b), Release(c, d);
    PositiveQuotient(c, a);
    PositiveQuotient(d, b);
    forall i | 0 <= i < |REQUIRED_SIZES|
      ensures Comparable(x, y, SizeKey("PAIR", "tcp", m, i)) && Ratio(x, y, SizeKey("PAIR", "tcp", m, i)) >= 0.0
    {
      ReleaseCell(a, b, c, d, m, i);
    }
    ReleaseRatios(a, b, c, d, m);
    if m.Throughput? { PairProduct(c / a, d / b); } else { PairProduct(1.0, 1.0); }
  }

  lemma ReleaseStep(a: real, b: real, c: real, d: real)
    requires a > 0.0 && b > 0.0 && c > 0.0 && d > 0.0
    requires c / a >= 0.95 && d / b >= 0.95 && (c / a) * (d / b) >= 1.0
    ensures PairPasses(Release(a, b), Release(c, d))
  {
    var x, y := Release(a, b), Release(c, d);
    forall k ensures k in x <==> k in y {
      ReleaseKeys(k, a, b);
      ReleaseKeys(k, c, d);
    }
    forall k | k in x ensures CellPasses(x, y, k) { ReleaseRatio(a, b, c, d, k); }
    forall k: Key, m: Metric | k in x.Keys + y.Keys ensures SeriesPasses(x, y, k.pattern, k.transport, m) {
      ReleaseKeys(k, a, b);
      ReleaseSeries(a, b, c, d, m);
    }
  }

  /** Two passing comparisons whose ends fail: one throughput cell loses four percent
      each time, which a gain at another size hides in the aggregate. */
  lemma CellLimitsDoNotCompose()
    ensures PassingChain([Release(1.0, 1.0), Release(0.96, 1.1), Release(0.9216, 1.21)])
    ensures !PairPasses(Release(1.0, 1.0), Release(0.9216, 1.21))
  {
    ReleaseStep(1.0, 1.0, 0.96, 1.1);
    ReleaseStep(0.96, 1.1, 0.9216, 1.21);
    var k := Report.Key("PAIR", "tcp", 64, RP.Throughput);
    assert k.size == REQUIRED_SIZES[0];
    ReleaseKeys(k, 1.0, 1.0);
    ReleaseRatio(1.0, 1.0, 0.9216, 1.21, k);
    assert !CellPasses(Release(1.0, 1.0), Release(0.9216, 1.21), k);
  }

  // --- a negative latency escapes the bound ---

  const ODD_KEY: Key := Report.Key("PAIR", "tcp", 128, RP.Latency)

  /** A release with one more latency cell, of a size that is not required. */
  function WithOdd(v: real): Cells {
    Release(1.0, 1.0)[ODD_KEY := Finite(v)]
  }

  lemma OddIsExtra()
    ensures ODD_KEY !in Release(1.0, 1.0)
    ensures forall m: Metric, i :: 0 <= i < |REQUIRED_SIZES| ==> SizeKey("PAIR", "tcp", m, i) != ODD_KEY
  {
    ReleaseKeys(ODD_KEY, 1.0, 1.0);
  }

  lemma OddSeries(a: real, b: real, m: Metric)
    ensures SeriesPasses(WithOdd(a), WithOdd(b), "PAIR", "tcp", m)
  {
    OddIsExtra();
    ReleaseSeries(1.0, 1.0, 1.0, 1.0, m);
    var x := Release(1.0, 1.0);
    forall i | 0 <= i < |REQUIRED_SIZES|
      ensures var k := SizeKey("PAIR", "tcp", m, i);
        Comparable(WithOdd(a), WithOdd(b), k) && Ratio(WithOdd(a), WithOdd(b), k) == Ratio(x, x, k) >= 0.0
    {
      assert Comparable(x, x, SizeKey("PAIR", "tcp", m, i));
    }
    assert Ratios(WithOdd(a), WithOdd(b), "PAIR", "tcp", m) == Ratios(x, x, "PAIR", "tcp", m);
  }

  lemma OddStep(a: real, b: real)
    requires a != 0.0 && b / a <= 1.05
    ensures PairPasses(WithOdd(a), WithOdd(b))
  {
    var x, y := WithOdd(a), WithOdd(b);
    forall k | k in x ensures CellPasses(x, y, k) {
      if k != ODD_KEY { ReleaseRatio(1.0, 1.0, 1.0, 1.0, k); }
    }
    forall k: Key, m: Metric | k in x.Keys + y.Keys ensures SeriesPasses(x, y, k.pattern, k.transport, m) {
      if k != ODD_KEY { ReleaseKeys(k, 1.0, 1.0); }
      OddSeries(a, b, m);
    }
  }

  /** Two passing comparisons through a negative latency make it a hundred times larger. */
  lemma NegativeLatencyEscapesTheBound()
    ensures PassingChain([WithOdd(1.0), WithOdd(-10.0), WithOdd(100.0)])
    ensures Comparable(WithOdd(1.0), WithOdd(100.0), ODD_KEY) && Ratio(WithOdd(1.0), WithOdd(100.0), ODD_KEY) > Power(1.05, 2)
  {
    OddStep(1.0, -10.0);
    OddStep(-10.0, 100.0);
    assert Power(1.05, 1) == Power(1.05, 0) * 1.05 && Power(1.05, 2) == Power(1.05, 1) * 1.05;
  }

  // --- the two ends of a chain of length zero ---

  lemma {:induction false} ProductOfOnes(s: seq<real>)
    requires forall i :: 0 <= i < |s| ==> s[i] == 1.0
    ensures Product(s) == 1.0
    decreases |s|
  {
    if s != [] { ProductOfOnes(s[1..]); }
  }

  /** A release passes against itself exactly when its values are finite and not zero and
      every series has all five metrics at all four sizes. */
  lemma SelfComparison(r: Cells)
    ensures PairPasses(r, r)
       <==> && (forall k :: k in r ==> r[k].Finite? && r[k].value != 0.0)
            && (forall k: Key, m: Metric, i :: k in r && 0 <= i < |REQUIRED_SIZES| ==>
                  SizeKey(k.pattern, k.transport, m, i) in r)
  {
    if PairPasses(r, r) {
      forall k: Key, m: Metric, i | k in r && 0 <= i < |REQUIRED_SIZES|
        ensures SizeKey(k.pattern, k.transport, m, i) in r
      {
        assert k in r.Keys + r.Keys && SeriesPasses(r, r, k.pattern, k.transport, m);
      }
      forall k | k in r ensures r[k].Finite? && r[k].value != 0.0 { assert CellPasses(r, r, k); }
    }
    if (forall k :: k in r ==> r[k].Finite? && r[k].value != 0.0)
       && (forall k: Key, m: Metric, i :: k in r && 0 <= i < |REQUIRED_SIZES| ==>
             SizeKey(k.pattern, k.transport, m, i) in r) {
      forall k: Key, m: Metric | k in r ensures SeriesPasses(r, r, k.pattern, k.transport, m) {
        ProductOfOnes(Ratios(r, r, k.pattern, k.transport, m));
      }
    }
  }
}
