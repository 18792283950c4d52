/** What the report parser makes of any text: which cells it takes, which lines it objects
    to, and when a report has nothing to object to. */
module ReportAudit {
  import opened Options
  import opened Text
  import opened Report

  // --- what a line says ---

  /** A RESULT line, a named count or status, the heading of a section of skips or failures,
      or anything else. */
  datatype Entry =
    | ResultEntry(row: Row)
    | CountEntry(field: Field, count: int, wellFormed: bool)
    | StatusEntry(status: string)
    | SectionEntry(name: string)
    | OtherEntry

  function Read(raw: string): Entry {
    var line := Strip(raw);
    if "RESULT," <= line then ResultEntry(ParseRow(line))
    else match Partition(line)
      case Some((name, text)) => ReadField(FieldOf(name), text)
      case None => if line == "## Skips" || line == "## Failures" then SectionEntry(line) else OtherEntry
  }

  function ReadField(field: Field, text: string): Entry {
    if field.NoField? then OtherEntry
    else if field.RunStatus? then StatusEntry(Lower(Strip(text)))
    else CountEntry(field, CountValue(text).0, CountValue(text).1)
  }

  function ReadAll(lines: seq<string>): (entries: seq<Entry>)
    ensures |entries| == |lines| && forall i :: 0 <= i < |lines| ==> entries[i] == Read(lines[i])
  {
    seq(|lines|, i requires 0 <= i < |lines| => Read(lines[i]))
  }

  /** A RESULT line is accepted exactly if it has seven fields with a pattern, a whole size, a
      known metric and a number among them. */
  lemma RowAcceptedExactly(line: string)
    ensures ParseRow(line).Row? <==>
      var parts := Split(line, ',');
      && |parts| == 7
      && Upper(Strip(parts[2])) != ""
      && ParseInt(Strip(parts[4])).Some?
      && MetricOf(Lower(Strip(parts[5]))).Some?
      && ParseNumber(Strip(parts[6])).Some?
  {
  }

  // --- the parser on entries ---

  function SetCount(p: Parsed, field: Field, n: int): Parsed {
    match field
    case SkipCount => p.(skip := n)
    case FailCount => p.(fail := n)
    case UnsupportedCount => p.(unsupported := Some(n))
    case ErrorCount => p.(error := Some(n))
    case ExpectedLines => p.(expected := Some(n))
    case ActualLines => p.(actual := Some(n))
    case _ => p
  }

  function Take(p: Parsed, e: Entry): Parsed {
    match e
    case ResultEntry(row) => AddRow(p, row)
    case CountEntry(field, n, ok) => SetCount(Note(p, ok, field), field, n)
    case StatusEntry(status) => p.(status := status)
    case SectionEntry(name) => p.(issues := p.issues + [SectionPresent(name)])
    case OtherEntry => p
  }

  function TakeAll(entries: seq<Entry>): Parsed
    decreases |entries|
  {
    if entries == [] then BLANK else Take(TakeAll(entries[..|entries| - 1]), entries[|entries| - 1])
  }

  lemma FieldTaken(p: Parsed, field: Field, text: string)
    ensures AddField(p, field, text) == Take(p, ReadField(field, text))
  {
  }

  lemma LineTaken(p: Parsed, raw: string)
    ensures AddLine(p, raw) == Take(p, Read(raw))
  {
    var line := Strip(raw);
    if !("RESULT," <= line) {
      match Partition(line)
      case Some((name, text)) => FieldTaken(p, FieldOf(name), text);
      case None =>
    }
  }

  lemma {:induction false} LinesTaken(lines: seq<string>)
    ensures AddLines(BLANK, lines) == TakeAll(ReadAll(lines))
    decreases |lines|
  {
    if lines != [] {
      var last := |lines| - 1;
      LinesTaken(lines[..last]);
      LineTaken(AddLines(BLANK, lines[..last]), lines[last]);
      assert ReadAll(lines)[..last] == ReadAll(lines[..last]);
    }
  }

  // --- the cells and the repeated cells ---

  predicate Gives(e: Entry, k: Key) {
    e.ResultEntry? && e.row.Row? && e.row.key == k
  }

  predicate Given(entries: seq<Entry>, k: Key) {
    exists i :: 0 <= i < |entries| && Gives(entries[i], k)
  }

  predicate GivenTwice(entries: seq<Entry>, k: Key) {
    exists i, j :: 0 <= i < j < |entries| && Gives(entries[i], k) && Gives(entries[j], k)
  }

  /** The entry is the first one that gives its cell. */
  predicate FirstGiven(entries: seq<Entry>, i: nat, k: Key) {
    i < |entries| && Gives(entries[i], k) && forall j :: 0 <= j < i ==> !Gives(entries[j], k)
  }

  function CountResults(entries: seq<Entry>): nat
    decreases |entries|
  {
    if entries == [] then 0
    else CountResults(entries[..|entries| - 1]) + if entries[|entries| - 1].ResultEntry? then 1 else 0
  }

  lemma GivenSnoc(entries: seq<Entry>, e: Entry, k: Key)
    ensures Given(entries + [e], k) <==> Given(entries, k) || Gives(e, k)
    ensures GivenTwice(entries + [e], k) <==> GivenTwice(entries, k) || (Given(entries, k) && Gives(e, k))
  {
    var all := entries + [e];
    assert all[|entries|] == e && forall i :: 0 <= i < |entries| ==> all[i] == entries[i];
  }

  lemma FirstSnoc(entries: seq<Entry>, e: Entry, i: nat, k: Key)
    requires FirstGiven(entries + [e], i, k)
    ensures if i < |entries| then FirstGiven(entries, i, k) else Gives(e, k) && !Given(entries, k)
  {
    var all := entries + [e];
    assert all[|entries|] == e && forall i :: 0 <= i < |entries| ==> all[i] == entries[i];
  }

  /** The parser holds the first value of every cell given and lists the cells given again. */
  ghost predicate CellsMatch(p: Parsed, entries: seq<Entry>) {
    && p.resultLines == CountResults(entries)
    && (forall k :: k in p.cells <==> Given(entries, k))
    && (forall i: nat, k :: FirstGiven(entries, i, k) ==> k in p.cells && p.cells[k] == entries[i].row.value)
    && (forall k :: k in p.duplicates <==> GivenTwice(entries, k))
  }

  lemma ValueStep(p: Parsed, entries: seq<Entry>, e: Entry, i: nat, k: Key)
    requires CellsMatch(p, entries) && FirstGiven(entries + [e], i, k)
    ensures k in Take(p, e).cells && Take(p, e).cells[k] == (entries + [e])[i].row.value
  {
    FirstSnoc(entries, e, i, k);
    if i < |entries| { assert (entries + [e])[i] == entries[i]; }
  }

  lemma CellsStep(p: Parsed, entries: seq<Entry>, e: Entry)
    requires CellsMatch(p, entries)
    ensures CellsMatch(Take(p, e), entries + [e])
  {
    var all := entries + [e];
    assert all[..|entries|] == entries;
    forall k
      ensures k in Take(p, e).cells <==> Given(all, k)
      ensures k in Take(p, e).duplicates <==> GivenTwice(all, k)
    {
      GivenSnoc(entries, e, k);
    }
    forall i: nat, k | FirstGiven(all, i, k)
      ensures k in Take(p, e).cells && Take(p, e).cells[k] == all[i].row.value
    {
      ValueStep(p, entries, e, i, k);
    }
  }

  /** For any text, the parser takes exactly the cells of the well-formed RESULT lines, each
      with its first value, and reports exactly those given more than once. */
  lemma {:induction false} CellsAreExact(entries: seq<Entry>)
    ensures CellsMatch(TakeAll(entries), entries)
    decreases |entries|
  {
    if entries != [] {
      var last := |entries| - 1;
      CellsAreExact(entries[..last]);
      CellsStep(TakeAll(entries[..last]), entries[..last], entries[last]);
      assert entries == entries[..last] + [entries[last]];
    }
  }

  // --- the objections ---

  /** The parser has nothing to object to in the line itself. */
  predicate InOrder(e: Entry) {
    match e
    case ResultEntry(row) => row.Row?
    case CountEntry(_, _, wellFormed) => wellFormed
    case StatusEntry(_) => true
    case SectionEntry(_) => false
    case OtherEntry => true
  }

  predicate AllInOrder(entries: seq<Entry>) {
    forall i :: 0 <= i < |entries| ==> InOrder(entries[i])
  }

  lemma ObjectionStep(p: Parsed, e: Entry)
    ensures Take(p, e).issues == [] <==> p.issues == [] && InOrder(e)
  {
  }

  /** For any text, the parser objects to something exactly when some line is not in order: a
      malformed RESULT line, a count that is no number, or a section of skips or failures. */
  lemma {:induction false} ObjectionsAreExact(entries: seq<Entry>)
    ensures TakeAll(entries).issues == [] <==> AllInOrder(entries)
    decreases |entries|
  {
    if entries != [] {
      var last := |entries| - 1;
      ObjectionsAreExact(entries[..last]);
      ObjectionStep(TakeAll(entries[..last]), entries[last]);
    }
  }

  // --- the counts ---

  /** The last count given for the field, or 0. */
  function LastCount(entries: seq<Entry>, field: Field): int
    decreases |entries|
  {
    if entries == [] then 0
    else
      var e := entries[|entries| - 1];
      if e.CountEntry? && e.field == field then e.count else LastCount(entries[..|entries| - 1], field)
  }

  function LastStatus(entries: seq<Entry>): string
    decreases |entries|
  {
    if entries == [] then ""
    else
      var e := entries[|entries| - 1];
      if e.StatusEntry? then e.status else LastStatus(entries[..|entries| - 1])
  }

  /** For any text, the counts and the status are those of the last lines that give them. */
  lemma {:induction false} CountsAreExact(entries: seq<Entry>)
    ensures var p := TakeAll(entries);
      && p.skip == LastCount(entries, SkipCount) && p.fail == LastCount(entries, FailCount)
      && p.status == LastStatus(entries)
    decreases |entries|
  {
    if entries != [] { CountsAreExact(entries[..|entries| - 1]); }
  }

  // --- the whole report ---

  ghost predicate NoneTwice(entries: seq<Entry>) {
    forall k :: !GivenTwice(entries, k)
  }

  ghost predicate SomeCell(entries: seq<Entry>) {
    exists k :: Given(entries, k)
  }

  lemma NothingRepeated(p: Parsed, entries: seq<Entry>)
    requires CellsMatch(p, entries)
    ensures p.duplicates == [] <==> NoneTwice(entries)
    ensures p.cells == map[] <==> !SomeCell(entries)
  {
    if p.duplicates != [] { assert p.duplicates[0] in p.duplicates && GivenTwice(entries, p.duplicates[0]); }
    if k :| Given(entries, k) {
      assert k in p.cells;
    } else {
      assert forall k :: k !in p.cells;
      assert p.cells == map[];
    }
  }

  /** For any text, a report is free of errors and repeated cells if and only if every line is
      in order, every cell is given once and there is one, nothing was skipped or failed, and
      the status, if there is one, is complete. */
  lemma CleanExactly(lines: seq<string>)
    ensures var p, entries := FinalChecks(AddLines(BLANK, lines)), ReadAll(lines);
      p.issues == [] && p.duplicates == [] <==>
        && AllInOrder(entries) && NoneTwice(entries) && SomeCell(entries)
        && LastCount(entries, SkipCount) == 0 && LastCount(entries, FailCount) == 0
        && (LastStatus(entries) == "" || LastStatus(entries) == "complete")
  {
    var entries := ReadAll(lines);
    LinesTaken(lines);
    CellsAreExact(entries);
    ObjectionsAreExact(entries);
    CountsAreExact(entries);
    NothingRepeated(TakeAll(entries), entries);
  }

  /** The cells of any text, whatever else is wrong with it. */
  lemma ParsedCells(lines: seq<string>)
    ensures CellsMatch(FinalChecks(AddLines(BLANK, lines)), ReadAll(lines))
  {
    LinesTaken(lines);
    CellsAreExact(ReadAll(lines));
  }

  predicate ShowsCount(line: string, name: string, n: nat) {
    match Partition(line)
    case Some((head, text)) => head == name && CountValue(text) == (n, true)
    case None => false
  }

  /** The completion section also shows the number of successes, which the parser skips. */
  lemma SuccessesAreShown(t: Totals)
    ensures exists i :: 0 <= i < |CompletionLines(t)| && ShowsCount(CompletionLines(t)[i], "- success", t.success)
  {
    var text := " " + Decimal(t.success);
    assert CompletionLines(t)[1] == "- success" + ":" + text;
    PartitionFinds("- success", text);
    CountText(t.success);
  }
}
