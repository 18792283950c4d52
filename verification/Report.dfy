/** The printed benchmark report, the parser the gates read it with, and the checks on
    its completion section. */
module Report {
  import opened Options
  import opened Text
  import RP = ResultPipeline

  type Metric = RP.Metric
  datatype Key = Key(pattern: string, transport: string, size: int, metric: Metric)

  function MetricName(m: Metric): string {
    match m
    case Throughput => "throughput"
    case Bandwidth => "bandwidth"
    case Latency => "latency"
    case LatencyP95 => "latency_p95"
    case LatencyP99 => "latency_p99"
  }

  function MetricOf(name: string): Option<Metric> {
    if name == "throughput" then Some(RP.Throughput)
    else if name == "bandwidth" then Some(RP.Bandwidth)
    else if name == "latency" then Some(RP.Latency)
    else if name == "latency_p95" then Some(RP.LatencyP95)
    else if name == "latency_p99" then Some(RP.LatencyP99)
    else None
  }

  /** Latencies are printed with six decimals, the rest with three. */
  function Places(m: Metric): nat {
    if m.Throughput? || m.Bandwidth? then 3 else 6
  }

  // --- printing ---

  /** A printed value: a whole number of units of the metric's precision. */
  type Results = map<Key, int>

  function ResultFields(k: Key, units: int): seq<string>
    requires k.size >= 0
  {
    ["RESULT", "current", k.pattern, k.transport, Decimal(k.size), MetricName(k.metric), Fixed(units, Places(k.metric))]
  }

  function ResultLine(k: Key, units: int): string
    requires k.size >= 0
  {
    Join(ResultFields(k, units), ',')
  }

  predicate Listed(results: Results, keys: seq<Key>) {
    forall i :: 0 <= i < |keys| ==> keys[i] in results && keys[i].size >= 0
  }

  /** `emit_result_lines`, for the keys in whatever order they are sorted. */
  function ResultLines(results: Results, keys: seq<Key>): (lines: seq<string>)
    requires Listed(results, keys)
    ensures |lines| == |keys|
  {
    if keys == [] then []
    else
      var last := |keys| - 1;
      ResultLines(results, keys[..last]) + [ResultLine(keys[last], results[keys[last]])]
  }

  datatype Totals = Totals(success: nat, unsupported: nat, skip: nat, fail: nat, expected: nat, actual: nat)

  function CountLine(name: string, n: nat): string {
    name + ":" + (" " + Decimal(n))
  }

  function CountLines(t: Totals): seq<string> {
    ["## Completion",
     CountLine("- success", t.success),
     CountLine("- unsupported", t.unsupported),
     CountLine("- skip", t.skip),
     CountLine("- fail", t.fail)]
  }

  function StatusWord(t: Totals): string {
    if t.expected == t.actual then "complete" else "partial"
  }

  function StatusLines(t: Totals): seq<string> {
    ["- status" + ":" + (" " + StatusWord(t)),
     CountLine("- expected_result_lines", t.expected),
     CountLine("- actual_result_lines", t.actual)]
  }

  function CompletionLines(t: Totals): seq<string> {
    CountLines(t) + StatusLines(t)
  }

  // --- parsing ---

  datatype Issue =
    | MalformedResult
    | MalformedNumber
    | UnknownMetric
    | EmptyPattern
    | MalformedCount(field: Field)
    | SectionPresent(name: string)
    | NoCells
    | UnexpectedSkips
    | UnexpectedFailures
    | NotComplete

  datatype Parsed = Parsed(
    cells: map<Key, Number>,
    duplicates: seq<Key>,
    issues: seq<Issue>,
    skip: int,
    fail: int,
    status: string,
    unsupported: Option<int>,
    error: Option<int>,
    expected: Option<int>,
    actual: Option<int>,
    resultLines: nat)

  const BLANK := Parsed(map[], [], [], 0, 0, "", None, None, None, None, 0)

  datatype Row = Row(key: Key, value: Number) | Rejected(issue: Issue)

  /** One RESULT line, already stripped. */
  function ParseRow(line: string): Row {
    var parts := Split(line, ',');
    if |parts| != 7 then Rejected(MalformedResult)
    else
      var size, value := ParseInt(Strip(parts[4])), ParseNumber(Strip(parts[6]));
      if size.None? || value.None? then Rejected(MalformedNumber)
      else
        var metric := MetricOf(Lower(Strip(parts[5])));
        var pattern := Upper(Strip(parts[2]));
        if metric.None? then Rejected(UnknownMetric)
        else if pattern == "" then Rejected(EmptyPattern)
        else Row(Key(pattern, Lower(Strip(parts[3])), size.value, metric.value), value.value)
  }

  function AddRow(r: Parsed, row: Row): Parsed {
    var r' := r.(resultLines := r.resultLines + 1);
    match row
    case Rejected(issue) => r'.(issues := r'.issues + [issue])
    case Row(key, value) =>
      if key in r'.cells then r'.(duplicates := r'.duplicates + [key])
      else r'.(cells := r'.cells[key := value])
  }

  /** The text before and after the first colon. */
  function Partition(line: string): Option<(string, string)> {
    if line == "" then None
    else if line[0] == ':' then Some(("", line[1..]))
    else match Partition(line[1..])
      case None => None
      case Some((head, tail)) => Some(([line[0]] + head, tail))
  }

  /** A count that is not a number, or negative, is an issue and reads as 0. */
  function CountValue(text: string): (int, bool) {
    match ParseInt(Strip(text))
    case None => (0, false)
    case Some(n) => if n < 0 then (0, false) else (n, true)
  }

  function Note(r: Parsed, ok: bool, field: Field): Parsed {
    if ok then r else r.(issues := r.issues + [MalformedCount(field)])
  }

  datatype Field = SkipCount | FailCount | UnsupportedCount | ErrorCount | ExpectedLines | ActualLines | RunStatus | NoField

  function FieldOf(name: string): Field {
    if name == "- skip" then SkipCount
    else if name == "- fail" then FailCount
    else if name == "- unsupported" then UnsupportedCount
    else if name == "- error" then ErrorCount
    else if name == "- expected_result_lines" then ExpectedLines
    else if name == "- actual_result_lines" then ActualLines
    else if name == "- status" then RunStatus
    else NoField
  }

  function AddField(r: Parsed, field: Field, text: string): Parsed {
    var (n, ok) := CountValue(text);
    match field
    case SkipCount => Note(r, ok, field).(skip := n)
    case FailCount => Note(r, ok, field).(fail := n)
    case UnsupportedCount => Note(r, ok, field).(unsupported := Some(n))
    case ErrorCount => Note(r, ok, field).(error := Some(n))
    case ExpectedLines => Note(r, ok, field).(expected := Some(n))
    case ActualLines => Note(r, ok, field).(actual := Some(n))
    case RunStatus => r.(status := Lower(Strip(text)))
    case NoField => r
  }

  function AddLine(r: Parsed, raw: string): Parsed {
    var line := Strip(raw);
    if "RESULT," <= line then AddRow(r, ParseRow(line))
    else match Partition(line)
      case Some((name, text)) => AddField(r, FieldOf(name), text)
      case None =>
        if line == "## Skips" || line == "## Failures"
        then r.(issues := r.issues + [SectionPresent(line)]) else r
  }

  function AddLines(r: Parsed, lines: seq<string>): Parsed
    decreases |lines|
  {
    if lines == [] then r else AddLine(AddLines(r, lines[..|lines| - 1]), lines[|lines| - 1])
  }

  function FinalChecks(r: Parsed): Parsed {
    r.(issues := r.issues
        + (if r.cells == map[] then [NoCells] else [])
        + (if r.skip != 0 then [UnexpectedSkips] else [])
        + (if r.fail != 0 then [UnexpectedFailures] else [])
        + (if r.status != "" && r.status != "complete" then [NotComplete] else []))
  }

  /** `parse_report`. */
  method ParseReport(lines: seq<string>) returns (r: Parsed)
    ensures r == FinalChecks(AddLines(BLANK, lines))
  {
    r := BLANK;
    for i := 0 to |lines|
      invariant r == AddLines(BLANK, lines[..i])
    {
      assert lines[..i + 1][..i] == lines[..i];
      r := AddLine(r, lines[i]);
    }
    assert lines[..|lines|] == lines;
    r := FinalChecks(r);
  }

  lemma {:induction false} AddLinesConcat(r: Parsed, a: seq<string>, b: seq<string>)
    ensures AddLines(r, a + b) == AddLines(AddLines(r, a), b)
    decreases |b|
  {
    if b == [] {
      assert a + b == a;
    } else {
      assert (a + b)[..|a + b| - 1] == a + b[..|b| - 1];
      AddLinesConcat(r, a, b[..|b| - 1]);
    }
  }

  // --- what was printed is what is parsed ---

  /** Printable characters without blanks and without the field separator. */
  predicate Token(s: string) {
    s != "" && forall i :: 0 <= i < |s| ==> '!' <= s[i] <= '~' && s[i] != ','
  }

  predicate PrintableKey(k: Key) {
    && Token(k.pattern) && (forall i :: 0 <= i < |k.pattern| ==> !('a' <= k.pattern[i] <= 'z'))
    && Token(k.transport) && (forall i :: 0 <= i < |k.transport| ==> !('A' <= k.transport[i] <= 'Z'))
    && k.size >= 0
  }

  lemma StripKeeps(s: string)
    requires s != "" ==> !IsSpace(s[0]) && !IsSpace(s[|s| - 1])
    ensures Strip(s) == s
  {
  }

  lemma TokenKeeps(s: string)
    requires Token(s)
    ensures Strip(s) == s && ',' !in s
  {
    StripKeeps(s);
  }

  lemma DigitsAreTokens(s: string)
    requires s != "" && Digits(s)
    ensures Token(s)
  {
  }

  lemma FixedIsToken(units: int, places: nat)
    ensures Token(Fixed(units, places))
  {
    var n := Abs(units);
    DecimalValue(Dropped(n, places));
    PaddedValue(n, places);
  }

  lemma MetricNameIsLower(m: Metric)
    ensures Token(MetricName(m))
    ensures forall i :: 0 <= i < |MetricName(m)| ==> !('A' <= MetricName(m)[i] <= 'Z')
  {
  }

  lemma MetricNameParses(m: Metric)
    ensures Token(MetricName(m)) && MetricOf(Lower(Strip(MetricName(m)))) == Some(m)
  {
    MetricNameIsLower(m);
    TokenKeeps(MetricName(m));
    LowerKeeps(MetricName(m));
    assert MetricOf(MetricName(m)) == Some(m);
  }

  lemma PrintedSizeIsToken(n: nat)
    ensures Token(Decimal(n))
  {
    DecimalValue(n);
    DigitsAreTokens(Decimal(n));
  }

  lemma SevenTokens(a: string, b: string, c: string, d: string, e: string, f: string, g: string)
    requires Token(a) && Token(b) && Token(c) && Token(d) && Token(e) && Token(f) && Token(g)
    ensures forall i :: 0 <= i < 7 ==> Token([a, b, c, d, e, f, g][i])
  {
  }

  lemma LeadingTokens()
    ensures Token("RESULT") && Token("current")
  {
  }

  lemma ResultFieldsAreTokens(k: Key, units: int)
    requires PrintableKey(k)
    ensures forall i :: 0 <= i < 7 ==> Token(ResultFields(k, units)[i])
  {
    LeadingTokens();
    PrintedSizeIsToken(k.size);
    MetricNameIsLower(k.metric);
    FixedIsToken(units, Places(k.metric));
    SevenTokens("RESULT", "current", k.pattern, k.transport, Decimal(k.size), MetricName(k.metric),
                Fixed(units, Places(k.metric)));
  }

  lemma RowOfFields(fields: seq<string>, k: Key, value: Number)
    requires |fields| == 7 && forall i :: 0 <= i < 7 ==> Token(fields[i])
    requires Upper(fields[2]) == k.pattern && k.pattern != "" && Lower(fields[3]) == k.transport
    requires ParseInt(fields[4]) == Some(k.size) && MetricOf(Lower(fields[5])) == Some(k.metric)
    requires ParseNumber(fields[6]) == Some(value)
    ensures ParseRow(Join(fields, ',')) == Row(k, value)
  {
    forall f | f in fields ensures ',' !in f { TokenKeeps(f); }
    SplitInvertsJoin(fields, ',');
    TokenKeeps(fields[2]);
    TokenKeeps(fields[3]);
    TokenKeeps(fields[4]);
    TokenKeeps(fields[5]);
    TokenKeeps(fields[6]);
  }

  lemma RowOfSeven(a: string, b: string, c: string, d: string, e: string, f: string, g: string, k: Key, value: Number)
    requires Token(a) && Token(b) && Token(c) && Token(d) && Token(e) && Token(f) && Token(g)
    requires Upper(c) == k.pattern && k.pattern != "" && Lower(d) == k.transport
    requires ParseInt(e) == Some(k.size) && MetricOf(Lower(f)) == Some(k.metric) && ParseNumber(g) == Some(value)
    ensures ParseRow(Join([a, b, c, d, e, f, g], ',')) == Row(k, value)
  {
    SevenTokens(a, b, c, d, e, f, g);
    RowOfFields([a, b, c, d, e, f, g], k, value);
  }

  lemma MetricNameReads(m: Metric)
    ensures Token(MetricName(m)) && MetricOf(Lower(MetricName(m))) == Some(m)
  {
    MetricNameParses(m);
    TokenKeeps(MetricName(m));
  }

  lemma RowParses(k: Key, units: int)
    requires PrintableKey(k)
    ensures ParseRow(ResultLine(k, units)) == Row(k, Number(units, Places(k.metric)))
  {
    var size, metric, value := Decimal(k.size), MetricName(k.metric), Fixed(units, Places(k.metric));
    LeadingTokens();
    PrintedSizeIsToken(k.size);
    MetricNameReads(k.metric);
    FixedIsToken(units, Places(k.metric));
    ParseIntInverts(k.size);
    ParseNumberInverts(units, Places(k.metric));
    UpperKeeps(k.pattern);
    LowerKeeps(k.transport);
    RowOfSeven("RESULT", "current", k.pattern, k.transport, size, metric, value, k, Number(units, Places(k.metric)));
  }

  lemma {:induction false} JoinEnds(fields: seq<string>, sep: char)
    requires fields != [] && fields[0] != "" && fields[|fields| - 1] != ""
    ensures var text, last := Join(fields, sep), fields[|fields| - 1];
      text != "" && text[0] == fields[0][0] && text[|text| - 1] == last[|last| - 1]
  {
    if |fields| == 2 {
      assert Join(fields[1..], sep) == fields[1];
    } else if |fields| > 2 {
      JoinEndsLast(fields[1..], sep);
    }
  }

  lemma {:induction false} JoinEndsLast(fields: seq<string>, sep: char)
    requires fields != [] && fields[|fields| - 1] != ""
    ensures var text, last := Join(fields, sep), fields[|fields| - 1];
      text != "" && text[|text| - 1] == last[|last| - 1]
  {
    if |fields| > 1 { JoinEndsLast(fields[1..], sep); }
  }

  lemma ResultLineIsStripped(k: Key, units: int)
    requires PrintableKey(k)
    ensures Strip(ResultLine(k, units)) == ResultLine(k, units) && "RESULT," <= ResultLine(k, units)
  {
    var fields := ResultFields(k, units);
    ResultFieldsAreTokens(k, units);
    JoinEnds(fields, ',');
    StripKeeps(ResultLine(k, units));
    assert ResultLine(k, units) == "RESULT" + [','] + Join(fields[1..], ',');
    assert "RESULT" + [','] == "RESULT,";
  }

  /** A printed RESULT line adds its cell and nothing else. */
  lemma ResultLineParses(r: Parsed, k: Key, units: int)
    requires PrintableKey(k)
    ensures AddLine(r, ResultLine(k, units)) == AddRow(r, Row(k, Number(units, Places(k.metric))))
  {
    ResultLineIsStripped(k, units);
    RowParses(k, units);
  }

  predicate Distinct(keys: seq<Key>) {
    forall i, j :: 0 <= i < j < |keys| ==> keys[i] != keys[j]
  }

  /** The values as the parser sees them. */
  function AsNumbers(results: Results, keys: seq<Key>): map<Key, Number>
    requires Listed(results, keys)
  {
    map k | k in keys :: Number(results[k], Places(k.metric))
  }

  ghost predicate AllPrintable(keys: seq<Key>) {
    forall i :: 0 <= i < |keys| ==> PrintableKey(keys[i])
  }

  lemma AddOneCell(r: Parsed, results: Results, keys: seq<Key>, n: nat)
    requires keys != [] && Listed(results, keys) && Distinct(keys)
    ensures var last := |keys| - 1;
      AddRow(r.(cells := AsNumbers(results, keys[..last]), resultLines := n),
             Row(keys[last], Number(results[keys[last]], Places(keys[last].metric))))
      == r.(cells := AsNumbers(results, keys), resultLines := n + 1)
  {
    var last := |keys| - 1;
    var k := keys[last];
    assert k !in keys[..last];
    assert keys == keys[..last] + [k];
    assert AsNumbers(results, keys) == AsNumbers(results, keys[..last])[k := Number(results[k], Places(k.metric))];
  }

  lemma {:induction false} ResultLinesParse(r: Parsed, results: Results, keys: seq<Key>)
    requires Listed(results, keys) && AllPrintable(keys) && Distinct(keys) && r.cells == map[]
    ensures AddLines(r, ResultLines(results, keys))
         == r.(cells := AsNumbers(results, keys), resultLines := r.resultLines + |keys|)
    decreases |keys|
  {
    if keys != [] {
      var last := |keys| - 1;
      ResultLinesParse(r, results, keys[..last]);
      assert ResultLines(results, keys)[..last] == ResultLines(results, keys[..last]);
      ResultLineParses(AddLines(r, ResultLines(results, keys[..last])), keys[last], results[keys[last]]);
      AddOneCell(r, results, keys, r.resultLines + last);
    }
  }

  // --- the completion section ---

  lemma {:induction false} PartitionFinds(name: string, text: string)
    requires ':' !in name
    ensures Partition(name + ":" + text) == Some((name, text))
  {
    var line := name + ":" + text;
    if name == "" {
      assert line[1..] == text;
    } else {
      assert line[1..] == name[1..] + ":" + text;
      PartitionFinds(name[1..], text);
      assert [name[0]] + name[1..] == name;
    }
  }

  lemma CountText(n: nat)
    ensures CountValue(" " + Decimal(n)) == (n, true)
  {
    DecimalValue(n);
    DigitsAreTokens(Decimal(n));
    TokenKeeps(Decimal(n));
    assert (" " + Decimal(n))[1..] == Decimal(n);
    ParseIntInverts(n);
  }

  lemma FieldLineParses(r: Parsed, name: string, text: string)
    requires ':' !in name && name != "" && name[0] == '-' && text != "" && !IsSpace(text[|text| - 1])
    ensures AddLine(r, name + ":" + text) == AddField(r, FieldOf(name), text)
  {
    var line := name + ":" + text;
    StripKeeps(line);
    PartitionFinds(name, text);
  }

  lemma CountLineParses(r: Parsed, name: string, n: nat, field: Field)
    requires ':' !in name && name != "" && name[0] == '-' && FieldOf(name) == field && !field.RunStatus?
    ensures AddLine(r, CountLine(name, n)) ==
      match field
      case SkipCount => r.(skip := n)
      case FailCount => r.(fail := n)
      case UnsupportedCount => r.(unsupported := Some(n))
      case ErrorCount => r.(error := Some(n))
      case ExpectedLines => r.(expected := Some(n))
      case ActualLines => r.(actual := Some(n))
      case _ => r
  {
    DecimalValue(n);
    var digits := Decimal(n);
    assert IsDigit(digits[|digits| - 1]);
    FieldLineParses(r, name, " " + digits);
    CountText(n);
  }

  lemma StatusText(word: string)
    requires Token(word) && forall i :: 0 <= i < |word| ==> !('A' <= word[i] <= 'Z')
    ensures Lower(Strip(" " + word)) == word
  {
    assert (" " + word)[1..] == word;
    TokenKeeps(word);
    LowerKeeps(word);
  }

  lemma StatusLineParses(r: Parsed, word: string)
    requires Token(word) && forall i :: 0 <= i < |word| ==> !('A' <= word[i] <= 'Z')
    ensures AddLine(r, "- status" + ":" + (" " + word)) == r.(status := word)
  {
    assert FieldOf("- status") == RunStatus;
    FieldLineParses(r, "- status", " " + word);
    StatusText(word);
  }

  /** What the completion section leaves in the parsed report. */
  function WithTotals(r: Parsed, t: Totals): Parsed {
    r.(unsupported := Some(t.unsupported), skip := t.skip, fail := t.fail,
       status := StatusWord(t), expected := Some(t.expected), actual := Some(t.actual))
  }

  lemma SuccessLine(r: Parsed, n: nat)
    ensures AddLine(r, CountLine("- success", n)) == r
  {
    CountLineParses(r, "- success", n, NoField);
  }

  lemma UnsupportedLine(r: Parsed, n: nat)
    ensures AddLine(r, CountLine("- unsupported", n)) == r.(unsupported := Some(n))
  {
    CountLineParses(r, "- unsupported", n, UnsupportedCount);
  }

  lemma SkipLine(r: Parsed, n: nat)
    ensures AddLine(r, CountLine("- skip", n)) == r.(skip := n)
  {
    CountLineParses(r, "- skip", n, SkipCount);
  }

  lemma FailLine(r: Parsed, n: nat)
    ensures AddLine(r, CountLine("- fail", n)) == r.(fail := n)
  {
    CountLineParses(r, "- fail", n, FailCount);
  }

  lemma ExpectedLine(r: Parsed, n: nat)
    ensures AddLine(r, CountLine("- expected_result_lines", n)) == r.(expected := Some(n))
  {
    CountLineParses(r, "- expected_result_lines", n, ExpectedLines);
  }

  lemma ActualLine(r: Parsed, n: nat)
    ensures AddLine(r, CountLine("- actual_result_lines", n)) == r.(actual := Some(n))
  {
    CountLineParses(r, "- actual_result_lines", n, ActualLines);
  }

  lemma HeaderLine(r: Parsed)
    ensures AddLine(r, "## Completion") == r
  {
    InertLine(r, "## Completion");
  }

  lemma CountLinesParse(r: Parsed, t: Totals)
    ensures AddLines(r, CountLines(t)) == r.(unsupported := Some(t.unsupported), skip := t.skip, fail := t.fail)
  {
    HeaderLine(r);
    SuccessLine(r, t.success);
    UnsupportedLine(r, t.unsupported);
    var r1 := r.(unsupported := Some(t.unsupported));
    SkipLine(r1, t.skip);
    FailLine(r1.(skip := t.skip), t.fail);
    FiveLines(r, "## Completion", CountLine("- success", t.success), CountLine("- unsupported", t.unsupported),
              CountLine("- skip", t.skip), CountLine("- fail", t.fail));
  }

  lemma StatusLinesParse(r: Parsed, t: Totals)
    ensures AddLines(r, StatusLines(t)) ==
      r.(status := StatusWord(t), expected := Some(t.expected), actual := Some(t.actual))
  {
    StatusLineParses(r, StatusWord(t));
    var r1 := r.(status := StatusWord(t));
    ExpectedLine(r1, t.expected);
    ActualLine(r1.(expected := Some(t.expected)), t.actual);
    ThreeLines(r, "- status" + ":" + (" " + StatusWord(t)), CountLine("- expected_result_lines", t.expected),
               CountLine("- actual_result_lines", t.actual));
  }

  lemma CompletionParses(r: Parsed, t: Totals)
    ensures AddLines(r, CompletionLines(t)) == WithTotals(r, t)
  {
    AddLinesConcat(r, CountLines(t), StatusLines(t));
    CountLinesParse(r, t);
    StatusLinesParse(AddLines(r, CountLines(t)), t);
  }

  lemma InertLine(r: Parsed, line: string)
    requires line != "" && line[0] == '#' && !IsSpace(line[|line| - 1]) && ':' !in line && |line| > 11
    ensures AddLine(r, line) == r
  {
    StripKeeps(line);
    NoColon(line);
  }

  lemma {:induction false} NoColon(line: string)
    requires ':' !in line
    ensures Partition(line) == None
  {
    if line != "" { NoColon(line[1..]); }
  }

  lemma AddTwo(r: Parsed, a: string, b: string)
    ensures AddLines(r, [a, b]) == AddLine(AddLine(r, a), b)
  {
    assert [a, b][..1] == [a] && [a][..0] == [];
    assert AddLines(r, [a]) == AddLine(AddLines(r, []), a);
  }

  lemma ThreeLines(r: Parsed, a: string, b: string, c: string)
    ensures AddLines(r, [a, b, c]) == AddLine(AddLine(AddLine(r, a), b), c)
  {
    assert [a, b, c][..2] == [a, b];
    AddTwo(r, a, b);
  }

  lemma FiveLines(r: Parsed, a: string, b: string, c: string, d: string, e: string)
    ensures AddLines(r, [a, b, c, d, e]) == AddLine(AddLine(AddLine(AddLine(AddLine(r, a), b), c), d), e)
  {
    AddLinesConcat(r, [a, b, c], [d, e]);
    assert [a, b, c] + [d, e] == [a, b, c, d, e];
    ThreeLines(r, a, b, c);
    AddTwo(AddLines(r, [a, b, c]), d, e);
  }

  // --- the whole report ---

  predicate Section(line: string) {
    line == "## Skips" || line == "## Failures"
  }

  /** A line that neither is a RESULT nor sets a field. */
  predicate Passive(raw: string) {
    var line := Strip(raw);
    && !("RESULT," <= line)
    && match Partition(line)
       case Some((name, _)) => FieldOf(name) == NoField
       case None => true
  }

  predicate AllPassive(lines: seq<string>) {
    forall i :: 0 <= i < |lines| ==> Passive(lines[i])
  }

  /** The sections among the lines, as the issues they cause. */
  function Sections(lines: seq<string>): seq<Issue>
    decreases |lines|
  {
    if lines == [] then []
    else
      var line := Strip(lines[|lines| - 1]);
      Sections(lines[..|lines| - 1]) + (if Section(line) then [SectionPresent(line)] else [])
  }

  lemma SectionHasNoColon(line: string)
    requires Section(line)
    ensures Partition(line) == None
  {
    NoColon(line);
  }

  lemma PassiveLine(r: Parsed, raw: string)
    requires Passive(raw)
    ensures AddLine(r, raw) == if Section(Strip(raw)) then r.(issues := r.issues + [SectionPresent(Strip(raw))]) else r
  {
    var line := Strip(raw);
    if Section(line) { SectionHasNoColon(line); }
  }

  /** Passive lines change nothing but the issues, by one for each section. */
  lemma {:induction false} PassiveLines(r: Parsed, lines: seq<string>)
    requires AllPassive(lines)
    ensures AddLines(r, lines) == r.(issues := r.issues + Sections(lines))
    decreases |lines|
  {
    if lines != [] {
      PassiveLines(r, lines[..|lines| - 1]);
      PassiveLine(AddLines(r, lines[..|lines| - 1]), lines[|lines| - 1]);
    }
  }

  function PrintedReport(before: seq<string>, results: Results, keys: seq<Key>, t: Totals, after: seq<string>): seq<string>
    requires Listed(results, keys)
  {
    before + ResultLines(results, keys) + CompletionLines(t) + after
  }

  /** What the parser makes of a printed report. */
  function ParsedBack(results: Results, keys: seq<Key>, t: Totals, issues: seq<Issue>): Parsed
    requires Listed(results, keys)
  {
    WithTotals(BLANK.(cells := AsNumbers(results, keys), resultLines := |keys|, issues := issues), t)
  }

  /** Parsing a printed report gives back the result map at printed precision, once per
      key, with the totals of the completion section; the lines around it only add an
      issue for every section of skips or failures. */
  lemma ReportRoundTrip(before: seq<string>, results: Results, keys: seq<Key>, t: Totals, after: seq<string>)
    requires Listed(results, keys) && AllPrintable(keys) && Distinct(keys)
    requires AllPassive(before) && AllPassive(after)
    ensures AddLines(BLANK, PrintedReport(before, results, keys, t, after))
         == ParsedBack(results, keys, t, Sections(before) + Sections(after))
  {
    var body := before + ResultLines(results, keys);
    BodyParses(before, results, keys);
    AddInTwo(BLANK, body, CompletionLines(t), after);
    TailParses(AddLines(BLANK, body), t, after);
  }

  lemma AddInTwo(r: Parsed, body: seq<string>, middle: seq<string>, tail: seq<string>)
    ensures AddLines(r, body + middle + tail) == AddLines(AddLines(r, body), middle + tail)
  {
    assert body + middle + tail == body + (middle + tail);
    AddLinesConcat(r, body, middle + tail);
  }

  lemma BodyParses(before: seq<string>, results: Results, keys: seq<Key>)
    requires Listed(results, keys) && AllPrintable(keys) && Distinct(keys) && AllPassive(before)
    ensures AddLines(BLANK, before + ResultLines(results, keys))
         == BLANK.(cells := AsNumbers(results, keys), resultLines := |keys|, issues := Sections(before))
  {
    PassiveLines(BLANK, before);
    AddLinesConcat(BLANK, before, ResultLines(results, keys));
    ResultLinesParse(AddLines(BLANK, before), results, keys);
  }

  lemma TailParses(r: Parsed, t: Totals, after: seq<string>)
    requires AllPassive(after)
    ensures AddLines(r, CompletionLines(t) + after) == WithTotals(r.(issues := r.issues + Sections(after)), t)
  {
    AddLinesConcat(r, CompletionLines(t), after);
    CompletionParses(r, t);
    PassiveLines(WithTotals(r, t), after);
  }

  // --- the completion checks of the round-trip gate ---

  datatype Problem =
    | MissingField(field: Field)
    | Nonzero(field: Field)
    | StatusNotComplete
    | ExpectedDiffersFromActual
    | ActualDiffersFromLines
    | NotPositive(key: Key)

  predicate Positive(n: Number) { n.units > 0 }

  /** `_completion_errors`. */
  method CompletionErrors(p: Parsed) returns (problems: seq<Problem>)
    ensures problems == [] <==> CompletionOk(p)
  {
    problems := [];
    if p.unsupported.None? { problems := problems + [MissingField(UnsupportedCount)]; }
    else if p.unsupported.value != 0 { problems := problems + [Nonzero(UnsupportedCount)]; }
    if p.skip != 0 { problems := problems + [Nonzero(SkipCount)]; }
    if p.fail != 0 { problems := problems + [Nonzero(FailCount)]; }
    if p.expected.None? { problems := problems + [MissingField(ExpectedLines)]; }
    if p.actual.None? { problems := problems + [MissingField(ActualLines)]; }
    if p.status != "complete" { problems := problems + [StatusNotComplete]; }
    if p.expected.Some? && p.actual.Some? {
      if p.expected.value != p.actual.value { problems := problems + [ExpectedDiffersFromActual]; }
      if p.actual.value != p.resultLines { problems := problems + [ActualDiffersFromLines]; }
    }
    if p.error.Some? && p.error.value != 0 { problems := problems + [Nonzero(ErrorCount)]; }
    ghost var sofar := problems;
    var todo := p.cells.Keys;
    while todo != {}
      invariant todo <= p.cells.Keys
      invariant problems == [] <==> sofar == [] && forall k :: k in p.cells && k !in todo ==> Positive(p.cells[k])
      decreases todo
    {
      var k :| k in todo;
      todo := todo - {k};
      if !Positive(p.cells[k]) { problems := problems + [NotPositive(k)]; }
    }
  }

  predicate CompletionOk(p: Parsed) {
    && p.unsupported == Some(0) && p.skip == 0 && p.fail == 0
    && p.expected.Some? && p.actual.Some? && p.status == "complete"
    && p.expected.value == p.actual.value == p.resultLines
    && (p.error.Some? ==> p.error.value == 0)
    && forall k :: k in p.cells ==> Positive(p.cells[k])
  }

  /** A gate accepts a report when parsing found no issue, no cell occurs twice and the
      completion checks are silent. */
  predicate Accepted(p: Parsed) {
    p.issues == [] && p.duplicates == [] && CompletionOk(p)
  }

  lemma ParsedBackAccepted(results: Results, keys: seq<Key>, t: Totals, issues: seq<Issue>)
    requires Listed(results, keys) && keys != []
    requires t.unsupported == t.skip == t.fail == 0 && t.expected == t.actual == |keys|
    ensures Accepted(FinalChecks(ParsedBack(results, keys, t, issues)))
       <==> issues == [] && forall i :: 0 <= i < |keys| ==> results[keys[i]] > 0
  {
    var p := ParsedBack(results, keys, t, issues);
    assert keys[0] in p.cells;
    assert FinalChecks(p) == p;
    if forall i :: 0 <= i < |keys| ==> results[keys[i]] > 0 {
      assert forall k :: k in p.cells ==> Positive(p.cells[k]);
    }
    if Accepted(p) {
      forall i | 0 <= i < |keys| ensures results[keys[i]] > 0 {
        assert Positive(p.cells[keys[i]]);
      }
    }
  }

  /** For a run without unsupported, skipped or failed cells whose totals count its
      printed lines, a non-empty report is accepted exactly when every printed value is
      positive and no section of skips or failures is present. */
  lemma CleanReportAcceptance(before: seq<string>, results: Results, keys: seq<Key>, t: Totals, after: seq<string>)
    requires Listed(results, keys) && AllPrintable(keys) && Distinct(keys) && keys != []
    requires AllPassive(before) && AllPassive(after)
    requires t.unsupported == t.skip == t.fail == 0 && t.expected == t.actual == |keys|
    ensures Accepted(FinalChecks(AddLines(BLANK, PrintedReport(before, results, keys, t, after))))
       <==> Sections(before) + Sections(after) == [] && forall i :: 0 <= i < |keys| ==> results[keys[i]] > 0
  {
    ReportRoundTrip(before, results, keys, t, after);
    ParsedBackAccepted(results, keys, t, Sections(before) + Sections(after));
  }

  /** Conversely, a report with a failed, skipped or unsupported cell is never accepted. */
  lemma UncleanReportRejected(before: seq<string>, results: Results, keys: seq<Key>, t: Totals, after: seq<string>)
    requires Listed(results, keys) && AllPrintable(keys) && Distinct(keys)
    requires AllPassive(before) && AllPassive(after)
    requires t.unsupported != 0 || t.skip != 0 || t.fail != 0 || t.expected != t.actual
    ensures !Accepted(FinalChecks(AddLines(BLANK, PrintedReport(before, results, keys, t, after))))
  {
    ReportRoundTrip(before, results, keys, t, after);
  }
}
