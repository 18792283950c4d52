/** Where the guarantee for provenance ends: runs in which one of its conditions fails. */
module CacheLimits {
  import opened Options
  import opened PackageLayout
  import opened InputTrees
  import opened CacheModel
  import opened CacheProvenance
  import opened CacheRuns

  /** The run publishes a package that was not built from the inputs of its key. */
  ghost predicate BreaksProvenance(r: Run) {
    Valid(r) && !AllBuiltFromKey(After(r).disk)
  }

  lemma OtherCopyBreaks(plan: Plan, times: Times) returns (r: Run)
    requires Ready(plan) && Passing(plan, times) && AsHashed(CopyOf(times.copy)) != TornInputs(times.key)
    ensures BreaksProvenance(r) && ShownWithin(r, History(times))
  {
    r := AnyPassingTimesPublish(plan, times);
    assert SlotOf(plan, times) in After(r).disk.cache;
  }

  // --- a tree with one file ---

  function OneFile(content: char): Inputs {
    map[InputName(Bindings, "a") := PlainFile(false, [content])]
  }

  function OneFileTree(head: char, index: char, work: char): Tree {
    Tree(OneFile(head), OneFile(index), OneFile(work), "")
  }

  lemma OneFileIsHashed(head: char, index: char, work: char)
    ensures TornInputs(Whole(OneFileTree(head, index, work))) == AsHashed(OneFile(work))
  {
    WholeInputs(OneFileTree(head, index, work));
    assert Listed(OneFileTree(head, index, work)) == OneFile(work).Keys;
  }

  lemma OneFileIsCopied(head: char, index: char, work: char)
    ensures CopyOf(OneFileTree(head, index, work)) == OneFile(work)
  {
  }

  lemma OneFileDiffers(a: char, b: char)
    requires a != b
    ensures OneFile(a) != OneFile(b) && AsHashed(OneFile(a)) != AsHashed(OneFile(b))
  {
    var n := InputName(Bindings, "a");
    assert [a][0] != [b][0];
    assert OneFile(a)[n] != OneFile(b)[n] && AsHashed(OneFile(a))[n] != AsHashed(OneFile(b))[n];
  }

  /** A prefix of a history that never returns never returns. */
  lemma PrefixNeverReturns(g: seq<Tree>, h: seq<Tree>)
    requires g <= h
    ensures TreeNeverReturns(h) ==> TreeNeverReturns(g)
    ensures ContentNeverReturns(h) ==> ContentNeverReturns(g)
  {
    assert forall i :: 0 <= i < |g| ==> g[i] == h[i];
  }

  /** If the whole history of a run never returns, no `prepare` saw anything return. */
  lemma ShownNeverReturn(r: Run, h: seq<Tree>)
    requires ShownWithin(r, h)
    ensures TreeNeverReturns(h) ==> forall x :: Shown(r, x) ==> TreeNeverReturns(x)
    ensures ContentNeverReturns(h) ==> forall x :: Shown(r, x) ==> ContentNeverReturns(x)
  {
    forall x | Shown(r, x) ensures TreeNeverReturns(h) ==> TreeNeverReturns(x)
                           ensures ContentNeverReturns(h) ==> ContentNeverReturns(x)
    {
      PrefixNeverReturns(x, h);
    }
  }

  predicate Ascending(ranks: seq<nat>) {
    forall i, j :: 0 <= i < j < |ranks| ==> ranks[i] <= ranks[j]
  }

  // --- no tree returns ---

  /** The tree as it is when the key is computed, then committed differently, staged anew,
      edited once more for the copy, and committed as it was hashed first. */
  function DetourTree(rank: nat): Tree {
    if rank == 0 then OneFileTree('c', 'c', 'h')
    else if rank == 1 then OneFileTree('c', 'c', 'c')
    else if rank == 2 then OneFileTree('c', 'h', 'h')
    else if rank == 3 then OneFileTree('c', 'h', 'x')
    else OneFileTree('h', 'h', 'h')
  }

  function DetourTimes(): Times {
    Times(Whole(DetourTree(0)), DetourTree(1), DetourTree(1), Whole(DetourTree(2)), DetourTree(3), DetourTree(4),
          Whole(DetourTree(4)))
  }

  lemma DetourPasses(plan: Plan)
    ensures Passing(plan, DetourTimes()) && AsHashed(CopyOf(DetourTimes().copy)) != TornInputs(DetourTimes().key)
  {
    OneFileIsHashed('c', 'c', 'h');
    OneFileIsHashed('c', 'h', 'h');
    OneFileIsHashed('h', 'h', 'h');
    OneFileIsCopied('c', 'h', 'x');
    OneFileDiffers('x', 'h');
  }

  lemma DetourTreesDiffer(a: nat, b: nat)
    requires a < b < 5
    ensures DetourTree(a) != DetourTree(b)
  {
    OneFileDiffers('c', 'h');
    OneFileDiffers('c', 'x');
    OneFileDiffers('x', 'h');
  }

  function Detour(ranks: seq<nat>): seq<Tree> {
    seq(|ranks|, i requires 0 <= i < |ranks| => DetourTree(ranks[i]))
  }

  lemma DetourNeverReturns(ranks: seq<nat>)
    requires Ascending(ranks) && forall i :: 0 <= i < |ranks| ==> ranks[i] < 5
    ensures TreeNeverReturns(Detour(ranks))
  {
    forall i, k | 0 <= i < k < |ranks| && Detour(ranks)[i] == Detour(ranks)[k] ensures ranks[i] == ranks[k] {
      if ranks[i] < ranks[k] { DetourTreesDiffer(ranks[i], ranks[k]); }
    }
  }

  lemma DetourHistory()
    ensures TreeNeverReturns(History(DetourTimes()))
  {
    var ranks := [0, 0, 1, 1, 2, 2, 3, 4, 4, 4];
    assert History(DetourTimes()) == Detour(ranks);
    DetourNeverReturns(ranks);
  }

  /** It is not enough that no whole tree returns: in this run they are all different, and
      yet the keys agree and each clean check passes on another tree. */
  lemma DistinctTreesBreakProvenance(plan: Plan) returns (r: Run)
    requires Ready(plan)
    ensures BreaksProvenance(r) && forall h :: Shown(r, h) ==> TreeNeverReturns(h)
  {
    DetourPasses(plan);
    r := OtherCopyBreaks(plan, DetourTimes());
    DetourHistory();
    ShownNeverReturn(r, History(DetourTimes()));
  }

  // --- no content returns ---

  /** A clean tree with one file in each scope. */
  function PairTree(a: char, b: char): Tree {
    Tree(Pair(a, b), Pair(a, b), Pair(a, b), "")
  }

  function Pair(a: char, b: char): Inputs {
    map[InputName(Bindings, "a") := PlainFile(false, [a]), InputName(LocalPackage, "b") := PlainFile(false, [b])]
  }

  /** The bindings are read before and the scripts after an edit, in each of the three keys. */
  function TornTimes(): Times {
    Times(Torn(PairTree('a', 'b'), PairTree('c', 'a')), PairTree('c', 'b'), PairTree('c', 'b'),
          Torn(PairTree('a', 'e'), PairTree('f', 'a')), PairTree('d', 'd'), PairTree('d', 'e'),
          Torn(PairTree('a', 'i'), PairTree('j', 'a')))
  }

  lemma PairIsRead(a: char, x: char, y: char, b: char)
    ensures TornInputs(Torn(PairTree(a, x), PairTree(y, b))) == AsHashed(Pair(a, b))
  {
    var na, nb := InputName(Bindings, "a"), InputName(LocalPackage, "b");
    var t, u := PairTree(a, x), PairTree(y, b);
    assert Listed(t) == {na, nb} == Listed(u);
    assert HashedScope(t, Bindings).Keys == {na} && HashedScope(u, LocalPackage).Keys == {nb};
  }

  lemma PairDiffers(a: char, b: char, c: char, d: char)
    requires a != c || b != d
    ensures Pair(a, b) != Pair(c, d) && AsHashed(Pair(a, b)) != AsHashed(Pair(c, d))
  {
    var na, nb := InputName(Bindings, "a"), InputName(LocalPackage, "b");
    var x, y := Pair(a, b), Pair(c, d);
    assert [a][0] != [c][0] || [b][0] != [d][0];
    assert x[na] != y[na] || x[nb] != y[nb];
    assert AsHashed(x)[na] != AsHashed(y)[na] || AsHashed(x)[nb] != AsHashed(y)[nb];
  }

  lemma PairIsCopied(a: char, b: char)
    ensures CopyOf(PairTree(a, b)) == Pair(a, b)
  {
  }

  lemma TornKeysAgree()
    ensures TornInputs(TornTimes().key) == TornInputs(TornTimes().sameKey) == TornInputs(TornTimes().sameKeyAgain)
         == AsHashed(Pair('a', 'a'))
  {
    PairIsRead('a', 'b', 'c', 'a');
    PairIsRead('a', 'e', 'f', 'a');
    PairIsRead('a', 'i', 'j', 'a');
  }

  lemma TornPasses(plan: Plan)
    ensures Passing(plan, TornTimes()) && AsHashed(CopyOf(TornTimes().copy)) != TornInputs(TornTimes().key)
  {
    TornKeysAgree();
    PairIsCopied('d', 'd');
    PairDiffers('d', 'd', 'a', 'a');
  }

  lemma PairContentDiffers(a: char, b: char, c: char, d: char)
    requires a != c || b != d
    ensures ContentOf(PairTree(a, b)) != ContentOf(PairTree(c, d))
  {
    CleanHash(PairTree(a, b));
    CleanHash(PairTree(c, d));
    PairDiffers(a, b, c, d);
  }

  function Pairs(names: seq<(char, char)>): seq<Tree> {
    seq(|names|, i requires 0 <= i < |names| => PairTree(names[i].0, names[i].1))
  }

  function Height(name: (char, char)): nat {
    name.0 as nat + name.1 as nat
  }

  /** Each pair is higher than the one before it, or the same. */
  predicate Climbs(names: seq<(char, char)>) {
    forall i :: 0 <= i < |names| - 1 ==> names[i] == names[i + 1] || Height(names[i]) < Height(names[i + 1])
  }

  lemma {:induction false} HigherOrSame(names: seq<(char, char)>, i: nat, k: nat)
    requires Climbs(names) && i <= k < |names|
    ensures Height(names[i]) < Height(names[k]) || forall j :: i <= j <= k ==> names[j] == names[i]
    decreases k
  {
    if i < k { HigherOrSame(names, i, k - 1); }
  }

  lemma PairsNeverReturn(names: seq<(char, char)>)
    requires Climbs(names)
    ensures ContentNeverReturns(Pairs(names))
  {
    forall i, j, k | 0 <= i < j < k < |names| && ContentOf(Pairs(names)[i]) == ContentOf(Pairs(names)[k])
      ensures ContentOf(Pairs(names)[j]) == ContentOf(Pairs(names)[i])
    {
      if names[i] != names[k] { PairContentDiffers(names[i].0, names[i].1, names[k].0, names[k].1); }
      HigherOrSame(names, i, k);
    }
  }

  function TornNames(): seq<(char, char)> {
    [('a', 'b'), ('c', 'a'), ('c', 'b'), ('c', 'b'), ('a', 'e'), ('f', 'a'), ('d', 'd'), ('d', 'e'), ('a', 'i'), ('j', 'a')]
  }

  lemma TornNamesClimb()
    ensures Climbs(TornNames())
  {
  }

  lemma TornHistory()
    ensures History(TornTimes()) == Pairs(TornNames())
  {
  }

  lemma TornHistoryNeverReturns()
    ensures ContentNeverReturns(History(TornTimes()))
  {
    TornHistory();
    TornNamesClimb();
    PairsNeverReturn(TornNames());
  }

  /** Nor is it enough that what is hashed never returns as a whole: a key read in two parts
      is the key of no tree that was ever there. */
  lemma TornKeysBreakProvenance(plan: Plan) returns (r: Run)
    requires Ready(plan)
    ensures BreaksProvenance(r) && forall h :: Shown(r, h) ==> ContentNeverReturns(h)
  {
    TornPasses(plan);
    r := OtherCopyBreaks(plan, TornTimes());
    TornHistoryNeverReturns();
    ShownNeverReturn(r, History(TornTimes()));
  }

  // --- only one component returns ---

  /** A tree that changes for the copy only. */
  function CopyDetour(t: Tree, u: Tree): Times {
    Times(Whole(t), t, t, Whole(t), u, t, Whole(t))
  }

  lemma CopyDetourHistory(t: Tree, u: Tree)
    ensures History(CopyDetour(t, u)) == [t, t, t, t, t, t, u, t, t, t]
  {
  }

  lemma EitherTree(h: seq<Tree>, t: Tree, u: Tree, i: nat)
    requires h <= [t, t, t, t, t, t, u, t, t, t] && i < |h|
    ensures h[i] == t || h[i] == u
  {
    assert h[i] == [t, t, t, t, t, t, u, t, t, t][i];
  }

  /** A file edited for the copy and edited back: listing and index never change at all. */
  lemma ReturningFileBreaksProvenance(plan: Plan) returns (r: Run)
    requires Ready(plan)
    ensures BreaksProvenance(r) && forall h :: Shown(r, h) ==> ListingNeverReturns(h) && IndexNeverReturns(h)
  {
    var t, u := OneFileTree('h', 'h', 'h'), OneFileTree('h', 'h', 'x');
    OneFileIsHashed('h', 'h', 'h');
    OneFileIsCopied('h', 'h', 'x');
    OneFileDiffers('x', 'h');
    r := OtherCopyBreaks(plan, CopyDetour(t, u));
    CopyDetourHistory(t, u);
    assert Listed(t) == Listed(u) && t.index == u.index;
    forall h | Shown(r, h) ensures ListingNeverReturns(h) && IndexNeverReturns(h) { SameListing(h, t, u); }
  }

  lemma SameListing(h: seq<Tree>, t: Tree, u: Tree)
    requires h <= [t, t, t, t, t, t, u, t, t, t] && Listed(t) == Listed(u) && t.index == u.index
    ensures ListingNeverReturns(h) && IndexNeverReturns(h)
  {
    forall i | 0 <= i < |h| ensures Listed(h[i]) == Listed(t) && h[i].index == t.index { EitherTree(h, t, u, i); }
  }

  function TwoFiles(): Inputs {
    map[InputName(Bindings, "a") := PlainFile(false, "h"), InputName(Bindings, "b") := PlainFile(false, "h")]
  }

  /** Both files are there, but one of them is not in the index. */
  function HalfTracked(): Tree {
    Tree(TwoFiles(), OneFile('h'), TwoFiles(), "")
  }

  lemma HalfTrackedCopy()
    ensures Listed(HalfTracked()) == TwoFiles().Keys
    ensures AsHashed(CopyOf(HalfTracked())) != Hashed(Tree(TwoFiles(), TwoFiles(), TwoFiles(), ""))
  {
    var b := InputName(Bindings, "b");
    assert b in Hashed(Tree(TwoFiles(), TwoFiles(), TwoFiles(), ""));
    assert b !in OneFile('h');
    assert b !in AsHashed(CopyOf(HalfTracked()));
  }

  /** A file taken out of the index for the copy and put back: listing and files never
      change at all. */
  lemma ReturningIndexBreaksProvenance(plan: Plan) returns (r: Run)
    requires Ready(plan)
    ensures BreaksProvenance(r) && forall h :: Shown(r, h) ==> ListingNeverReturns(h) && FilesNeverReturn(h)
  {
    var t, u := Tree(TwoFiles(), TwoFiles(), TwoFiles(), ""), HalfTracked();
    HalfTrackedCopy();
    WholeInputs(t);
    r := OtherCopyBreaks(plan, CopyDetour(t, u));
    CopyDetourHistory(t, u);
    forall h | Shown(r, h) ensures ListingNeverReturns(h) && FilesNeverReturn(h) { SameFiles(h, t, u); }
  }

  lemma SameFiles(h: seq<Tree>, t: Tree, u: Tree)
    requires h <= [t, t, t, t, t, t, u, t, t, t] && Listed(t) == Listed(u) && t.work == u.work
    ensures ListingNeverReturns(h) && FilesNeverReturn(h)
  {
    forall i | 0 <= i < |h| ensures Listed(h[i]) == Listed(t) && h[i].work == t.work { EitherTree(h, t, u, i); }
  }
}

/** Where the guarantee for links ends: runs in which a prune does not scan an output. */
module CacheScanLimits {
  import opened Options
  import opened PackageLayout
  import opened InputTrees
  import opened CacheModel
  import opened CacheLocks
  import opened CacheLinks
  import opened CacheRuns

  /** The run ends with process 0 alone and the given disk, and so far every prune scans
      exactly the given outputs. */
  ghost predicate Alone(r: Run, proc: Process, d: Disk, outs: set<Output>) {
    Valid(r) && After(r).procs == map[0 := proc] && After(r).disk == d && ScansExactly(r, outs)
  }

  predicate ScansOnly(e: Event, outs: set<Output>) {
    e.Prune? ==> (e.prune.ListRoots? ==> e.prune.outputs == outs) && !e.prune.SkipOutput?
  }

  /** Every prune of the run scans exactly these outputs. */
  predicate ScansExactly(r: Run, outs: set<Output>) {
    forall i :: 0 <= i < |r.events| ==> ScansOnly(r.events[i], outs)
  }

  lemma AloneNext(r: Run, e: Event, proc: Process, d: Disk, outs: set<Output>) returns (later: Run)
    requires Valid(r) && ScansExactly(r, outs) && Enabled(After(r), e) && ScansOnly(e, outs)
    requires Apply(After(r), e).procs == map[0 := proc] && Apply(After(r), e).disk == d
    ensures Alone(later, proc, d, outs) && Extends(r, later) && later.events == r.events + [e]
  {
    later := Then(r, e);
    ThenIsValid(r, e);
  }

  lemma CommitAlone(s: State, proc: Process, effect: Effect, d: Disk)
    requires s.procs == map[0 := proc] && Fits(s, 0, effect) && !effect.End?
    ensures Commit(s, 0, effect, d).procs == map[0 := effect.next] && Commit(s, 0, effect, d).disk == d
  {
    CommitIsLocal(s, 0, effect, d);
    assert (map[0 := proc])[0 := effect.next] == map[0 := effect.next];
  }

  lemma AloneAfterPrepare(s: State, proc: Process, step: PrepareStep)
    requires LocksAgree(s) && s.procs == map[0 := proc] && EnabledPrepare(s, 0, step) && !PrepareEffect(s, 0, step).End?
    ensures var t := Apply(s, Prepare(0, step));
      t.procs == map[0 := PrepareEffect(s, 0, step).next] && t.disk == PrepareDisk(s, 0, step)
  {
    PrepareFits(s, 0, step);
    CommitAlone(s.(seen := PrepareSeen(s, 0, step)), proc, PrepareEffect(s, 0, step), PrepareDisk(s, 0, step));
  }

  lemma PrepareAlone(r: Run, proc: Process, d: Disk, outs: set<Output>, step: PrepareStep) returns (later: Run)
    requires Alone(r, proc, d, outs) && EnabledPrepare(After(r), 0, step) && !PrepareEffect(After(r), 0, step).End?
    ensures Alone(later, PrepareEffect(After(r), 0, step).next, PrepareDisk(After(r), 0, step), outs)
  {
    LocksAlwaysAgree(r, |r.events|);
    AloneAfterPrepare(After(r), proc, step);
    later := AloneNext(r, Prepare(0, step), PrepareEffect(After(r), 0, step).next, PrepareDisk(After(r), 0, step), outs);
  }

  lemma PruneAlone(r: Run, proc: Process, d: Disk, outs: set<Output>, step: PruneStep) returns (later: Run)
    requires Alone(r, proc, d, outs) && EnabledPrune(After(r), 0, step) && !PruneEffect(After(r), 0, step).End?
    requires ScansOnly(Prune(0, step), outs)
    ensures Alone(later, PruneEffect(After(r), 0, step).next, PruneDisk(After(r), 0, step), outs)
    ensures Extends(r, later) && later.events == r.events + [Prune(0, step)]
  {
    var s, effect := After(r), PruneEffect(After(r), 0, step);
    PruneFits(s, 0, step);
    CommitIsLocal(s, 0, effect, PruneDisk(s, 0, step));
    later := AloneNext(r, Prune(0, step), effect.next, PruneDisk(s, 0, step), outs);
  }

  // --- linking one package ---

  function OneEntry(slot: Slot, entry: Package, links: map<LinkPath, Target>): Disk {
    Disk(map[slot := entry], {}, links)
  }

  /** A `prepare` with one language left, whose package is the given one. */
  predicate Owns(b: Process, slot: Slot, entry: Package) {
    && b.Holding? && b.left == [slot.language] && b.key == slot.key
    && entry.marker.Some? && entry.marker.value.files == Digests(entry.files)
  }

  /** The records of some of the package files. */
  function Records(entry: Package, names: set<Path>): map<Path, Digest> {
    map n | n in names && n in entry.files :: Digest(entry.files[n])
  }

  lemma CanVerify(s: State, b: Process, slot: Slot, entry: Package)
    requires Owns(b, slot, entry) && Verify(entry, slot.language, VersionOf(b.versions, slot.language))
    requires s.procs == map[0 := With(b, Verifying)] && s.disk.cache == map[slot := entry]
    ensures EnabledPrepare(s, 0, VerifyEntry)
    ensures PrepareEffect(s, 0, VerifyEntry) == Become(With(b, Linking(Digests(entry.files))))
  {
  }

  lemma AllRecords(entry: Package)
    ensures Records(entry, entry.files.Keys) == Digests(entry.files)
  {
  }

  /** The next state of process 0, alone, after a check of its package. */
  lemma VerifiedNext(s: State, b: Process, slot: Slot, entry: Package)
    requires Owns(b, slot, entry) && Verify(entry, slot.language, VersionOf(b.versions, slot.language)) && LocksAgree(s)
    requires s.procs == map[0 := With(b, Verifying)] && s.disk == OneEntry(slot, entry, map[])
    ensures Enabled(s, Prepare(0, VerifyEntry))
    ensures var t := Apply(s, Prepare(0, VerifyEntry));
      t.procs == map[0 := With(b, Linking(Digests(entry.files)))] && t.disk == s.disk
  {
    CanVerify(s, b, slot, entry);
    AloneAfterPrepare(s, With(b, Verifying), VerifyEntry);
  }

  lemma VerifyAlone(r: Run, b: Process, slot: Slot, entry: Package, outs: set<Output>) returns (later: Run)
    requires Owns(b, slot, entry) && Verify(entry, slot.language, VersionOf(b.versions, slot.language))
    requires Alone(r, With(b, Verifying), OneEntry(slot, entry, map[]), outs)
    ensures Alone(later, With(b, Linking(Records(entry, entry.files.Keys))), OneEntry(slot, entry, map[]), outs)
  {
    LocksAlwaysAgree(r, |r.events|);
    VerifiedNext(After(r), b, slot, entry);
    AllRecords(entry);
    later := AloneNext(r, Prepare(0, VerifyEntry), With(b, Linking(Digests(entry.files))), OneEntry(slot, entry, map[]), outs);
  }

  lemma LinkOne(r: Run, b: Process, slot: Slot, entry: Package, names: set<Path>, links: map<LinkPath, Target>,
                outs: set<Output>, n: Path) returns (later: Run)
    requires Owns(b, slot, entry) && n in names && names <= entry.files.Keys
    requires Alone(r, With(b, Linking(Records(entry, names))), OneEntry(slot, entry, links), outs)
    ensures Alone(later, With(b, Linking(Records(entry, names - {n}))),
                  OneEntry(slot, entry, links[LinkPath(b.job.output, n) := CacheFile(slot, n)]), outs)
  {
    assert Records(entry, names) - {n} == Records(entry, names - {n});
    later := PrepareAlone(r, With(b, Linking(Records(entry, names))), OneEntry(slot, entry, links), outs, LinkFile(n));
  }

  /** All links are in the output of the process and lead to its package. */
  predicate OwnLinks(o: Output, slot: Slot, entry: Package, links: map<LinkPath, Target>) {
    forall path :: path in links ==>
      path.output == o && links[path] == CacheFile(slot, path.name) && path.name in entry.files
  }

  predicate Linked(o: Output, links: map<LinkPath, Target>, names: set<Path>) {
    forall n :: n in names ==> LinkPath(o, n) in links
  }

  lemma LinkNames(r: Run, b: Process, slot: Slot, entry: Package, names: set<Path>, links: map<LinkPath, Target>,
                  outs: set<Output>) returns (later: Run, links': map<LinkPath, Target>)
    requires Owns(b, slot, entry) && names <= entry.files.Keys && OwnLinks(b.job.output, slot, entry, links)
    requires Linked(b.job.output, links, entry.files.Keys - names)
    requires Alone(r, With(b, Linking(Records(entry, names))), OneEntry(slot, entry, links), outs)
    ensures OwnLinks(b.job.output, slot, entry, links') && Linked(b.job.output, links', entry.files.Keys)
    ensures Alone(later, With(b, Linking(map[])), OneEntry(slot, entry, links'), outs)
    decreases |names|
  {
    if names == {} {
      later, links' := r, links;
      assert Records(entry, names) == map[];
    } else {
      var n :| n in names;
      later := LinkOne(r, b, slot, entry, names, links, outs, n);
      later, links' := LinkNames(later, b, slot, entry, names - {n},
                                 links[LinkPath(b.job.output, n) := CacheFile(slot, n)], outs);
    }
  }

  lemma FinishAlone(r: Run, b: Process, d: Disk, outs: set<Output>) returns (later: Run)
    requires b.Holding? && |b.left| == 1 && Alone(r, With(b, Linking(map[])), d, outs)
    ensures Alone(later, With(b.(left := []), NextLanguage), d, outs)
  {
    later := PrepareAlone(r, With(b, Linking(map[])), d, outs, FinishLanguage);
    assert b.left[1..] == [];
  }

  /** The `prepare` ends, and a prune of its key starts. */
  lemma StartPruneAlone(r: Run, b: Process, d: Disk, outs: set<Output>) returns (later: Run)
    requires b.Holding? && b.left == [] && Alone(r, With(b, NextLanguage), d, outs)
    ensures Alone(later, NextVictim([b.key]), d, outs)
  {
    ThenIsValid(r, Prepare(0, FinishPrepare));
    later := Then(r, Prepare(0, FinishPrepare));
    assert After(later).procs == map[];
    later := AloneNext(later, StartPrune(0, [b.key]), NextVictim([b.key]), d, outs);
  }

  lemma LinkAll(r: Run, b: Process, slot: Slot, entry: Package, outs: set<Output>)
    returns (later: Run, links: map<LinkPath, Target>)
    requires Owns(b, slot, entry) && Verify(entry, slot.language, VersionOf(b.versions, slot.language))
    requires Alone(r, With(b, Verifying), OneEntry(slot, entry, map[]), outs)
    ensures OwnLinks(b.job.output, slot, entry, links) && Linked(b.job.output, links, entry.files.Keys)
    ensures Alone(later, NextVictim([slot.key]), OneEntry(slot, entry, links), outs)
  {
    later := VerifyAlone(r, b, slot, entry, outs);
    assert entry.files.Keys - entry.files.Keys == {};
    later, links := LinkNames(later, b, slot, entry, entry.files.Keys, map[], outs);
    later := FinishAlone(later, b, OneEntry(slot, entry, links), outs);
    later := StartPruneAlone(later, b.(left := []), OneEntry(slot, entry, links), outs);
  }

  // --- a prune that does not scan the output ---

  lemma LockAlone(r: Run, key: Key, d: Disk, outs: set<Output>) returns (later: Run)
    requires Alone(r, NextVictim([key]), d, outs)
    ensures Alone(later, Locked(key, []), d, outs)
  {
    LocksAlwaysAgree(r, |r.events|);
    assert After(r).keyLocks == map[];
    assert [key][1..] == [];
    later := PruneAlone(r, NextVictim([key]), d, outs, TryKey);
  }

  lemma ListAlone(r: Run, key: Key, d: Disk, outs: set<Output>) returns (later: Run)
    requires Alone(r, Locked(key, []), d, outs)
    ensures Alone(later, Scanning(key, [], outs, None, false), d, outs)
  {
    later := PruneAlone(r, Locked(key, []), d, outs, ListRoots(outs));
  }

  predicate NoLinksIn(d: Disk, outs: set<Output>) {
    forall path :: path in d.links ==> path.output !in outs
  }

  /** The continuation consists of steps that no output can miss. */
  predicate Onward(r: Run, later: Run) {
    && Extends(r, later)
    && forall i :: |r.events| <= i < |later.events| ==>
         later.events[i].Prune? && !later.events[i].prune.ListRoots? && !later.events[i].prune.SkipOutput?
  }

  lemma OnwardByOne(r: Run, at: Run, later: Run, e: Event)
    requires Onward(r, at) && Extends(at, later) && later.events == at.events + [e]
    requires e.Prune? && !e.prune.ListRoots? && !e.prune.SkipOutput?
    ensures Onward(r, later)
  {
  }

  /** One step of a scan that goes on. */
  lemma ScanAlone(r: Run, at: Run, proc: Process, d: Disk, outs: set<Output>, step: PruneStep, next: Process)
    returns (later: Run)
    requires Onward(r, at) && Alone(at, proc, d, outs) && EnabledPrune(After(at), 0, step)
    requires !step.ListRoots? && !step.SkipOutput? && PruneEffect(After(at), 0, step) == Become(next)
    ensures Onward(r, later) && Alone(later, next, PruneDisk(After(at), 0, step), outs)
  {
    later := PruneAlone(at, proc, d, outs, step);
    OnwardByOne(r, at, later, Prune(0, step));
  }

  function At(key: Key, outs: set<Output>, walk: Option<Walk>): Process {
    Scanning(key, [], outs, walk, false)
  }

  lemma OpenEmpty(r: Run, at: Run, key: Key, d: Disk, left: set<Output>, outs: set<Output>, o: Output) returns (later: Run)
    requires Onward(r, at) && Alone(at, At(key, left, None), d, outs) && o in left
    ensures Onward(r, later) && Alone(later, At(key, left - {o}, Some(Walk(o, {[]}, {}))), d, outs)
  {
    later := ScanAlone(r, at, At(key, left, None), d, outs, OpenOutput(o), At(key, left - {o}, Some(Walk(o, {[]}, {}))));
  }

  lemma ListEmpty(r: Run, at: Run, key: Key, d: Disk, left: set<Output>, outs: set<Output>, o: Output) returns (later: Run)
    requires Onward(r, at) && Alone(at, At(key, left, Some(Walk(o, {[]}, {}))), d, outs) && NoLinksIn(d, {o})
    ensures Onward(r, later) && Alone(later, At(key, left, Some(Walk(o, {}, {}))), d, outs)
  {
    assert LinksIn(d, o, []) == {} && DirsIn(d, o, []) == {};
    assert ListInto(d, Walk(o, {[]}, {}), []) == Walk(o, {}, {});
    later := ScanAlone(r, at, At(key, left, Some(Walk(o, {[]}, {}))), d, outs, ListDirectory([]),
                       At(key, left, Some(Walk(o, {}, {}))));
  }

  lemma LeaveEmpty(r: Run, at: Run, key: Key, d: Disk, left: set<Output>, outs: set<Output>, o: Output) returns (later: Run)
    requires Onward(r, at) && Alone(at, At(key, left, Some(Walk(o, {}, {}))), d, outs)
    ensures Onward(r, later) && Alone(later, At(key, left, None), d, outs)
  {
    later := ScanAlone(r, at, At(key, left, Some(Walk(o, {}, {}))), d, outs, FinishOutput, At(key, left, None));
  }

  /** A scan of outputs without links goes on to remove the key. */
  lemma ScanFindsNothing(r: Run, at: Run, key: Key, d: Disk, left: set<Output>, outs: set<Output>) returns (later: Run)
    requires Onward(r, at) && Alone(at, At(key, left, None), d, outs) && NoLinksIn(d, left)
    ensures Onward(r, later) && Alone(later, Removing(key, []), d, outs)
    decreases |left|
  {
    if left == {} {
      later := ScanAlone(r, at, At(key, left, None), d, outs, FinishScan, Removing(key, []));
    } else {
      var o :| o in left;
      later := OpenEmpty(r, at, key, d, left, outs, o);
      later := ListEmpty(r, later, key, d, left - {o}, outs, o);
      later := LeaveEmpty(r, later, key, d, left - {o}, outs, o);
      later := ScanFindsNothing(r, later, key, d, left - {o}, outs);
    }
  }

  lemma RemoveUnderLink(r: Run, at: Run, o: Output, slot: Slot, entry: Package, links: map<LinkPath, Target>,
                        outs: set<Output>, n: Path) returns (later: Run)
    requires n in entry.files && Scannable(n) && OwnLinks(o, slot, entry, links) && Linked(o, links, entry.files.Keys)
    requires Onward(r, at) && Alone(at, Removing(slot.key, []), OneEntry(slot, entry, links), outs)
    ensures Onward(r, later) && Valid(later) && ScansExactly(later, outs) && Dangles(After(later), o, LinkPath(o, n))
  {
    assert LinkPath(o, n) in links;
    later := ScanAlone(r, at, Removing(slot.key, []), OneEntry(slot, entry, links), outs, RemoveFile(slot, n),
                       Removing(slot.key, []));
  }

  // --- the runs ---

  /** Package files lie outside the build tree, where links are scanned. */
  lemma PackageFilesAreScannable(l: Language, version: string, n: Path)
    requires Selects(LayoutOf(l, version), n)
    ensures Scannable(n)
  {
  }

  /** A worktree that stays clean and unchanged. */
  function Still(t: Tree): Times {
    Times(Whole(t), t, t, Whole(t), t, t, Whole(t))
  }

  lemma StagedVerifies(built: map<Path, Item>, l: Language, version: string, copied: Inputs)
    requires PackageFiles(built, LayoutOf(l, version)).Ok?
    ensures var entry, kept := StagedEntry(built, l, version, copied), Selection(built, LayoutOf(l, version));
      entry.files == kept && entry.marker == Some(Manifest(version, Digests(kept))) && Verify(entry, l, version)
  {
    SelectionKeepsPackageFiles(built, LayoutOf(l, version));
  }

  lemma StagedIsOwned(b: Process, built: map<Path, Item>, l: Language, version: string, copied: Inputs)
    requires PackageFiles(built, LayoutOf(l, version)).Ok? && b.Holding? && b.left == [l]
    ensures Owns(b, Slot(b.key, l), StagedEntry(built, l, version, copied))
  {
    StagedVerifies(built, l, version, copied);
  }

  lemma EntryIsOwned(plan: Plan, t: Tree)
    requires Ready(plan) && |plan.job.languages| == 1
    ensures Owns(Busy(plan, Still(t)), SlotOf(plan, Still(t)), EntryOf(plan, Still(t)))
  {
    StagedIsOwned(Busy(plan, Still(t)), plan.built, FirstLanguage(plan), Version(plan), CopyOf(t));
  }

  lemma EntryVerifies(plan: Plan, t: Tree)
    requires Ready(plan)
    ensures EntryOf(plan, Still(t)).files == PackageOf(plan)
    ensures Verify(EntryOf(plan, Still(t)), FirstLanguage(plan), Version(plan))
  {
    StagedVerifies(plan.built, FirstLanguage(plan), Version(plan), CopyOf(t));
  }

  /** The package of a plan, published by a `prepare` that is about to link it. */
  lemma ReachPublished(plan: Plan, t: Tree, outs: set<Output>) returns (r: Run)
    requires Ready(plan) && Clean(t)
    ensures Alone(r, With(Busy(plan, Still(t)), Verifying), OneEntry(SlotOf(plan, Still(t)), EntryOf(plan, Still(t)), map[]), outs)
  {
    r := AnyPassingTimesPublish(plan, Still(t));
  }

  lemma OwnLinksLead(o: Output, slot: Slot, entry: Package, links: map<LinkPath, Target>)
    requires OwnLinks(o, slot, entry, links)
    ensures LinksLead(OneEntry(slot, entry, links), o)
  {
  }

  /** A published package is linked, and a prune lists other outputs. */
  lemma LinkAndList(r: Run, b: Process, slot: Slot, entry: Package, outs: set<Output>)
    returns (later: Run, links: map<LinkPath, Target>)
    requires Owns(b, slot, entry) && Verify(entry, slot.language, VersionOf(b.versions, slot.language))
    requires Alone(r, With(b, Verifying), OneEntry(slot, entry, map[]), outs)
    ensures OwnLinks(b.job.output, slot, entry, links) && Linked(b.job.output, links, entry.files.Keys)
    ensures Alone(later, At(slot.key, outs, None), OneEntry(slot, entry, links), outs)
  {
    later, links := LinkAll(r, b, slot, entry, outs);
    later := LockAlone(later, slot.key, OneEntry(slot, entry, links), outs);
    later := ListAlone(later, slot.key, OneEntry(slot, entry, links), outs);
  }

  lemma ScanElsewhere(r: Run, o: Output, slot: Slot, entry: Package, links: map<LinkPath, Target>, outs: set<Output>, n: Path)
    returns (later: Run)
    requires n in entry.files && Scannable(n) && OwnLinks(o, slot, entry, links) && Linked(o, links, entry.files.Keys)
    requires o !in outs && Alone(r, At(slot.key, outs, None), OneEntry(slot, entry, links), outs)
    ensures Onward(r, later) && Valid(later) && ScansExactly(later, outs) && Dangles(After(later), o, LinkPath(o, n))
  {
    later := ScanFindsNothing(r, r, slot.key, OneEntry(slot, entry, links), outs, outs);
    later := RemoveUnderLink(r, later, o, slot, entry, links, outs, n);
  }

  /** A complete prepare for any job of one language on any clean tree, and a prune that
      scans any outputs but that of the job. */
  lemma UnscannedRun(plan: Plan, t: Tree, outs: set<Output>, n: Path) returns (r: Run, later: Run)
    requires Ready(plan) && |plan.job.languages| == 1 && Clean(t) && plan.job.output !in outs && n in PackageOf(plan)
    ensures Valid(r) && LinksLead(After(r).disk, plan.job.output)
    ensures Onward(r, later) && Valid(later) && ScansExactly(later, outs)
    ensures Dangles(After(later), plan.job.output, LinkPath(plan.job.output, n))
  {
    var o, slot, entry := plan.job.output, SlotOf(plan, Still(t)), EntryOf(plan, Still(t));
    PackageFilesAreScannable(FirstLanguage(plan), Version(plan), n);
    EntryIsOwned(plan, t);
    EntryVerifies(plan, t);
    var links;
    r := ReachPublished(plan, t, outs);
    r, links := LinkAndList(r, Busy(plan, Still(t)), slot, entry, outs);
    OwnLinksLead(o, slot, entry, links);
    later := ScanElsewhere(r, o, slot, entry, links, outs, n);
  }

  /** Whatever other outputs a prune scans, a link in an output it does not scan can be
      left without its target. */
  lemma UnregisteredLinksMayDangle(plan: Plan, t: Tree, outs: set<Output>, n: Path) returns (r: Run)
    requires Ready(plan) && |plan.job.languages| == 1 && Clean(t) && plan.job.output !in outs && n in PackageOf(plan)
    ensures Valid(r) && ScansExactly(r, outs)
    ensures Dangles(After(r), plan.job.output, LinkPath(plan.job.output, n))
  {
    var _, later := UnscannedRun(plan, t, outs, n);
    r := later;
  }

  /** An output that joins in the middle of a scan, with links that all lead, can lose
      their targets although every prune from then on scans it. */
  lemma LateRegistrationMayDangle(plan: Plan, t: Tree, outs: set<Output>, n: Path) returns (r: Run, later: Run)
    requires Ready(plan) && |plan.job.languages| == 1 && Clean(t) && plan.job.output !in outs && n in PackageOf(plan)
    ensures Valid(r) && LinksLead(After(r).disk, plan.job.output) && Continues(r, later, plan.job.output)
    ensures Dangles(After(later), plan.job.output, LinkPath(plan.job.output, n)) && !Covered(After(r), plan.job.output)
  {
    r, later := UnscannedRun(plan, t, outs, n);
    CoverageIsExact(r, plan.job.output);
    assert Continues(r, later, plan.job.output) && !LinksLead(After(later).disk, plan.job.output);
  }
}
