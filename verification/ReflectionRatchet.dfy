/** The allowlist of reflective test accesses: it must match the sources exactly and may
    only shrink from one revision to the next. */
module ReflectionRatchet {
  import opened Options

  type Path = string
  type Identity = string

  /** How often each access occurs in a file. */
  type Counter = map<Identity, int>

  function Count(c: Counter, id: Identity): int {
    if id in c then c[id] else 0
  }

  /** Counter subtraction keeps positive differences only; a negative count on the right
      counts as positive when the left side lacks the element. */
  function Minus(a: Counter, b: Counter): Counter {
    (map id | id in b && id !in a && b[id] < 0 :: -b[id])
    + (map id | id in a && a[id] > Count(b, id) :: a[id] - Count(b, id))
  }

  predicate Positive(c: Counter) {
    forall id :: id in c ==> c[id] >= 1
  }

  /** On positive counters an empty difference means inclusion. */
  lemma EmptyDifference(a: Counter, b: Counter)
    requires Positive(a) && Positive(b)
    ensures Minus(a, b) == map[] <==> forall id :: Count(a, id) <= Count(b, id)
  {
    var d := Minus(a, b);
    assert forall id :: id in d <==> id in a && a[id] > Count(b, id);
    if d == map[] {
      forall id ensures Count(a, id) <= Count(b, id) { assert id !in d; }
    }
  }

  lemma EqualCounters(a: Counter, b: Counter)
    requires Positive(a) && Positive(b)
    ensures Minus(a, b) == map[] && Minus(b, a) == map[] <==> a == b
  {
    EmptyDifference(a, b);
    EmptyDifference(b, a);
    if forall id :: Count(a, id) == Count(b, id) {
      forall id ensures id in a <==> id in b { assert Count(a, id) == Count(b, id); }
      forall id | id in a ensures a[id] == b[id] { assert Count(a, id) == Count(b, id); }
    }
  }

  // --- the allowlist ---

  /** An entry as written: the parts the reader checks. */
  datatype Entry = Entry(relative: bool, reason: string, accesses: Counter)

  type Allowlist = map<Path, Entry>

  predicate Blank(s: string) {
    forall i :: 0 <= i < |s| ==> s[i] in " \t\n\r"
  }

  predicate HexDigest(id: Identity) {
    |id| == 64 && forall i :: 0 <= i < |id| ==> '0' <= id[i] <= '9' || 'a' <= id[i] <= 'f'
  }

  predicate Wellformed(e: Entry) {
    && e.relative && !Blank(e.reason) && e.accesses != map[]
    && forall id :: id in e.accesses ==> HexDigest(id) && e.accesses[id] >= 1
  }

  /** `read_allowlist`: the entries are used only if every one of them is well formed. */
  method ReadAllowlist(entries: Allowlist) returns (r: Result<Allowlist>)
    ensures r.Ok? <==> forall p :: p in entries ==> Wellformed(entries[p])
    ensures r.Ok? ==> r.value == entries
  {
    var todo := entries.Keys;
    while todo != {}
      invariant todo <= entries.Keys
      invariant forall p :: p in entries && p !in todo ==> Wellformed(entries[p])
      decreases todo
    {
      var p :| p in todo;
      if !Wellformed(entries[p]) { return Err("Invalid allowlist entry: " + p); }
      todo := todo - {p};
    }
    return Ok(entries);
  }

  ghost predicate Readable(a: Allowlist) {
    forall p :: p in a ==> Wellformed(a[p])
  }

  // --- the check ---

  /** The accesses found by path; a path without accesses has no entry. */
  type Sites = map<Path, Counter>

  ghost predicate Scanned(s: Sites) {
    forall p :: p in s ==> s[p] != map[] && Positive(s[p])
  }

  function Found(s: Sites, p: Path): Counter {
    if p in s then s[p] else map[]
  }

  function Allowed(a: Allowlist, p: Path): Counter {
    if p in a then a[p].accesses else map[]
  }

  datatype Problem = Unlisted(path: Path) | Stale(path: Path) | Grown(path: Path) | PrivateAccess(text: string)

  predicate Covered(a: Counter, b: Counter) { Minus(a, b) == map[] }

  predicate AgreesAt(actual: Sites, allowlist: Allowlist, p: Path) {
    Covered(Found(actual, p), Allowed(allowlist, p)) && Covered(Allowed(allowlist, p), Found(actual, p))
  }

  method CompareSites(actual: Sites, allowlist: Allowlist) returns (problems: seq<Problem>)
    ensures problems == [] <==> forall p :: AgreesAt(actual, allowlist, p)
  {
    problems := [];
    var todo := actual.Keys + allowlist.Keys;
    while todo != {}
      invariant todo <= actual.Keys + allowlist.Keys
      invariant problems == [] <==> forall p :: p !in todo ==> AgreesAt(actual, allowlist, p)
      decreases todo
    {
      var p :| p in todo;
      var found, allowed := Found(actual, p), Allowed(allowlist, p);
      if Minus(found, allowed) != map[] { problems := problems + [Unlisted(p)]; }
      if Minus(allowed, found) != map[] { problems := problems + [Stale(p)]; }
      todo := todo - {p};
    }
  }

  method CompareBaseline(allowlist: Allowlist, baseline: Allowlist) returns (problems: seq<Problem>)
    ensures problems == [] <==> forall p :: p in allowlist ==> Covered(allowlist[p].accesses, Allowed(baseline, p))
  {
    problems := [];
    var todo := allowlist.Keys;
    while todo != {}
      invariant todo <= allowlist.Keys
      invariant problems == [] <==> forall p :: p in allowlist && p !in todo ==>
        Covered(allowlist[p].accesses, Allowed(baseline, p))
      decreases todo
    {
      var p :| p in todo;
      if Minus(allowlist[p].accesses, Allowed(baseline, p)) != map[] { problems := problems + [Grown(p)]; }
      todo := todo - {p};
    }
  }

  /** The sources hold exactly the accesses of the allowlist. */
  ghost predicate Matches(actual: Sites, allowlist: Allowlist) {
    actual == map p | p in allowlist :: allowlist[p].accesses
  }

  /** No access is allowed more often than before. */
  ghost predicate Shrunk(allowlist: Allowlist, baseline: Allowlist) {
    forall p, id :: Count(Allowed(allowlist, p), id) <= Count(Allowed(baseline, p), id)
  }

  lemma AllowedIsPositive(a: Allowlist, p: Path)
    requires Readable(a)
    ensures Positive(Allowed(a, p)) && (Allowed(a, p) == map[] <==> p !in a)
  {
  }

  lemma AgreementAt(actual: Sites, allowlist: Allowlist, p: Path)
    requires Scanned(actual) && Readable(allowlist)
    ensures AgreesAt(actual, allowlist, p)
       <==> (p in actual <==> p in allowlist) && (p in actual ==> actual[p] == allowlist[p].accesses)
  {
    AllowedIsPositive(allowlist, p);
    EqualCounters(Found(actual, p), Allowed(allowlist, p));
  }

  lemma SitesMatch(actual: Sites, allowlist: Allowlist)
    requires Scanned(actual) && Readable(allowlist)
    ensures Matches(actual, allowlist) <==> forall p :: AgreesAt(actual, allowlist, p)
  {
    var expected := map p | p in allowlist :: allowlist[p].accesses;
    if actual == expected {
      forall p ensures AgreesAt(actual, allowlist, p) { AgreementAt(actual, allowlist, p); }
    }
    if forall p :: AgreesAt(actual, allowlist, p) {
      forall p ensures (p in actual <==> p in expected) && (p in actual ==> actual[p] == expected[p]) {
        AgreementAt(actual, allowlist, p);
      }
    }
  }

  lemma BaselineMeaning(allowlist: Allowlist, baseline: Allowlist)
    requires Readable(allowlist) && Readable(baseline)
    ensures Shrunk(allowlist, baseline)
       <==> forall p :: p in allowlist ==> Covered(allowlist[p].accesses, Allowed(baseline, p))
  {
    forall p | p in allowlist
      ensures Covered(allowlist[p].accesses, Allowed(baseline, p))
         <==> forall id :: Count(Allowed(allowlist, p), id) <= Count(Allowed(baseline, p), id)
    {
      AllowedIsPositive(allowlist, p);
      AllowedIsPositive(baseline, p);
      EmptyDifference(allowlist[p].accesses, Allowed(baseline, p));
    }
    forall p, id | p !in allowlist ensures Count(Allowed(allowlist, p), id) <= Count(Allowed(baseline, p), id) {
      AllowedIsPositive(baseline, p);
    }
  }

  ghost predicate Passes(actual: Sites, allowlist: Allowlist, baseline: Option<Allowlist>) {
    Matches(actual, allowlist) && (baseline.Some? ==> Shrunk(allowlist, baseline.value))
  }

  /** `check`: it succeeds exactly when the sources match the allowlist, the allowlist did
      not grow, and the scan found no access to a private member. */
  method Check(actual: Sites, privateAccesses: seq<string>, allowlist: Allowlist, baseline: Option<Allowlist>)
    returns (problems: seq<Problem>)
    requires Scanned(actual) && Readable(allowlist) && (baseline.Some? ==> Readable(baseline.value))
    ensures problems == [] <==> Passes(actual, allowlist, baseline) && privateAccesses == []
  {
    problems := CompareSites(actual, allowlist);
    SitesMatch(actual, allowlist);
    if baseline.Some? {
      var grown := CompareBaseline(allowlist, baseline.value);
      BaselineMeaning(allowlist, baseline.value);
      problems := problems + grown;
    }
    problems := problems + seq(|privateAccesses|, i requires 0 <= i < |privateAccesses| => PrivateAccess(privateAccesses[i]));
  }

  // --- chains of revisions ---

  datatype Revision = Revision(actual: Sites, allowlist: Allowlist)

  /** Each revision passes against the allowlist of the one before it. */
  ghost predicate PassingHistory(revisions: seq<Revision>) {
    && (forall i :: 0 <= i < |revisions| ==> Matches(revisions[i].actual, revisions[i].allowlist))
    && (forall i :: 0 <= i < |revisions| - 1 ==>
          Passes(revisions[i + 1].actual, revisions[i + 1].allowlist, Some(revisions[i].allowlist)))
  }

  lemma MatchingCounts(r: Revision, p: Path)
    requires Matches(r.actual, r.allowlist)
    ensures Found(r.actual, p) == Allowed(r.allowlist, p)
  {
  }

  /** The accesses of a file never grow along a history, in number or in kind. */
  lemma {:induction false} AccessesNeverGrow(revisions: seq<Revision>, i: nat, j: nat, p: Path, id: Identity)
    requires PassingHistory(revisions) && i <= j < |revisions|
    ensures Count(Found(revisions[j].actual, p), id) <= Count(Found(revisions[i].actual, p), id)
    decreases j - i
  {
    if i < j {
      AccessesNeverGrow(revisions, i, j - 1, p, id);
      MatchingCounts(revisions[j - 1], p);
      MatchingCounts(revisions[j], p);
      assert Passes(revisions[j - 1 + 1].actual, revisions[j - 1 + 1].allowlist, Some(revisions[j - 1].allowlist));
      assert Shrunk(revisions[j].allowlist, revisions[j - 1].allowlist);
    }
  }

  /** An access that was removed never returns, and a file that became free of accesses
      never has one again. */
  lemma RemovedAccessesStayRemoved(revisions: seq<Revision>, i: nat, j: nat, p: Path)
    requires PassingHistory(revisions) && i <= j < |revisions| && Scanned(revisions[j].actual)
    ensures forall id :: id in Found(revisions[j].actual, p) ==> id in Found(revisions[i].actual, p)
    ensures p in revisions[j].actual ==> p in revisions[i].actual
  {
    forall id | id in Found(revisions[j].actual, p) ensures id in Found(revisions[i].actual, p) {
      AccessesNeverGrow(revisions, i, j, p, id);
      assert Count(Found(revisions[j].actual, p), id) >= 1;
    }
    if p in revisions[j].actual {
      var id :| id in revisions[j].actual[p];
      assert id in Found(revisions[i].actual, p);
    }
  }
}
