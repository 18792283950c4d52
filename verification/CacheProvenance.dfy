/** What a published package was built from. Keys are computed and sources are copied name
    by name while the worktree may change; clean checks come before the copy and after the
    build, and a second key is computed at the end. */
module CacheProvenance {
  import opened Options
  import opened PackageLayout
  import opened InputTrees
  import opened CacheModel
  import opened CacheLocks

  /** The source copy holds exactly the inputs the key was computed from. */
  predicate BuiltFromKey(entry: Package, key: Key) {
    AsHashed(entry.builtFrom) == key.inputs
  }

  ghost predicate AllBuiltFromKey(d: Disk) {
    forall slot :: slot in d.cache ==> BuiltFromKey(d.cache[slot], slot.key)
  }

  // --- worktrees that do not return ---

  /** Whether git lists the name does not return. */
  ghost predicate ListingSteady(h: seq<Tree>, n: InputName) {
    forall i, j, k :: 0 <= i < j < k < |h| && (n in Listed(h[i]) <==> n in Listed(h[k])) ==>
      (n in Listed(h[j]) <==> n in Listed(h[i]))
  }

  /** What is on disk under the name does not return. */
  ghost predicate FileSteady(h: seq<Tree>, n: InputName) {
    forall i, j, k :: 0 <= i < j < k < |h| && Observe(h[i].work, n) == Observe(h[k].work, n) ==>
      Observe(h[j].work, n) == Observe(h[i].work, n)
  }

  /** What the index holds under the name does not return. */
  ghost predicate IndexSteady(h: seq<Tree>, n: InputName) {
    forall i, j, k :: 0 <= i < j < k < |h| && Observe(h[i].index, n) == Observe(h[k].index, n) ==>
      Observe(h[j].index, n) == Observe(h[i].index, n)
  }

  ghost predicate ListingNeverReturns(h: seq<Tree>) {
    forall n :: ListingSteady(h, n)
  }

  ghost predicate FilesNeverReturn(h: seq<Tree>) {
    forall n :: FileSteady(h, n)
  }

  ghost predicate IndexNeverReturns(h: seq<Tree>) {
    forall n :: IndexSteady(h, n)
  }

  /** What is hashed of an unchanging tree never returns as a whole. */
  ghost predicate ContentNeverReturns(h: seq<Tree>) {
    forall i, j, k :: 0 <= i < j < k < |h| && ContentOf(h[i]) == ContentOf(h[k]) ==> ContentOf(h[j]) == ContentOf(h[i])
  }

  /** The tree never returns as a whole. */
  ghost predicate TreeNeverReturns(h: seq<Tree>) {
    forall i, j, k :: 0 <= i < j < k < |h| && h[i] == h[k] ==> h[j] == h[i]
  }

  ghost predicate NoneReturns(h: seq<Tree>) {
    ListingNeverReturns(h) && FilesNeverReturn(h) && IndexNeverReturns(h)
  }

  /** At some moment of the run this is what a `prepare` has seen since it began its key. */
  ghost predicate Shown(r: Run, h: seq<Tree>) {
    exists i, p :: 0 <= i < |r.states| && p in r.states[i].seen && r.states[i].seen[p] == h
  }

  /** No name returns in any respect while a `prepare` works on the tree. */
  ghost predicate NeverReturns(r: Run) {
    forall h :: Shown(r, h) ==> NoneReturns(h)
  }

  // --- what a key computation has read ---

  predicate ListedIn(h: seq<Tree>, from: nat, to: nat, n: InputName) {
    exists q :: from <= q < to && q < |h| && n in Listed(h[q])
  }

  predicate UnlistedIn(h: seq<Tree>, from: nat, to: nat, n: InputName) {
    exists q :: from <= q < to && q < |h| && n !in Listed(h[q])
  }

  predicate ReadIn(h: seq<Tree>, from: nat, to: nat, n: InputName, v: Observed) {
    exists q :: from <= q < to && q < |h| && Observe(h[q].work, n) == v
  }

  /** Between the two moments the name was listed and read with the given result, or found
      not to be listed. */
  predicate FoundIn(h: seq<Tree>, from: nat, to: nat, n: InputName, inputs: map<InputName, Observed>) {
    if n in inputs then ListedIn(h, from, to, n) && ReadIn(h, from, to, n, inputs[n]) else UnlistedIn(h, from, to, n)
  }

  /** The inputs were read between the two moments, each name at a moment of its own. */
  ghost predicate ReadBetween(h: seq<Tree>, from: nat, to: nat, inputs: map<InputName, Observed>) {
    forall n :: FoundIn(h, from, to, n, inputs)
  }

  /** How far the computation has got with one name. */
  predicate ScannedName(h: seq<Tree>, from: nat, scan: KeyScan, n: InputName) {
    if n in scan.names then ListedIn(h, from, |h|, n)
    else n.scope in scan.scopes || FoundIn(h, from, |h|, n, scan.read)
  }

  ghost predicate Scanned(h: seq<Tree>, from: nat, scan: KeyScan) {
    && (forall n :: ScannedName(h, from, scan, n))
    && (forall n :: n in scan.names || n in scan.read ==> n.scope !in scan.scopes)
    && (scan.scopes == [Bindings, LocalPackage] || scan.scopes == [LocalPackage] || scan.scopes == [])
  }

  lemma FreshIsScanned(h: seq<Tree>, from: nat)
    ensures Scanned(h, from, FRESH_SCAN)
  {
    forall n ensures ScannedName(h, from, FRESH_SCAN, n) {
      assert n.scope == Bindings || n.scope == LocalPackage;
    }
  }

  lemma ListNextIsScanned(h: seq<Tree>, from: nat, scan: KeyScan)
    requires from < |h| && Scanned(h, from, scan) && CanListNext(scan)
    ensures Scanned(h, from, ListNext(scan, h[|h| - 1]))
  {
    var t, next := h[|h| - 1], ListNext(scan, h[|h| - 1]);
    assert next.scopes == if scan.scopes[0] == Bindings then [LocalPackage] else [];
    assert forall sc :: sc in scan.scopes <==> sc == scan.scopes[0] || sc in next.scopes;
    forall n ensures ScannedName(h, from, next, n) {
      assert ScannedName(h, from, scan, n);
      if n.scope == scan.scopes[0] {
        assert n !in scan.read;
        if n !in Listed(t) { assert UnlistedIn(h, from, |h|, n); }
      }
    }
  }

  lemma ReadNameIsScanned(h: seq<Tree>, from: nat, scan: KeyScan, n: InputName)
    requires from < |h| && Scanned(h, from, scan) && n in scan.names
    ensures Scanned(h, from, ReadName(scan, h[|h| - 1], n))
  {
    var t, next := h[|h| - 1], ReadName(scan, h[|h| - 1], n);
    forall m ensures ScannedName(h, from, next, m) {
      assert ScannedName(h, from, scan, m);
      if m == n { assert ReadIn(h, from, |h|, n, Observe(t.work, n)); }
    }
  }

  lemma DoneIsRead(h: seq<Tree>, from: nat, scan: KeyScan)
    requires Scanned(h, from, scan) && ScanDone(scan)
    ensures ReadBetween(h, from, |h|, scan.read)
  {
    forall n ensures FoundIn(h, from, |h|, n, scan.read) { assert ScannedName(h, from, scan, n); }
  }

  // --- more trees seen ---

  lemma FoundInLonger(h: seq<Tree>, from: nat, to: nat, u: Tree, to': nat, n: InputName, inputs: map<InputName, Observed>)
    requires to <= |h| && to <= to' && FoundIn(h, from, to, n, inputs)
    ensures FoundIn(h + [u], from, to', n, inputs)
  {
    var g := h + [u];
    assert forall q :: 0 <= q < |h| ==> g[q] == h[q];
  }

  lemma ReadBetweenLonger(h: seq<Tree>, from: nat, to: nat, u: Tree, to': nat, inputs: map<InputName, Observed>)
    requires to <= |h| && to <= to' && ReadBetween(h, from, to, inputs)
    ensures ReadBetween(h + [u], from, to', inputs)
  {
    forall n ensures FoundIn(h + [u], from, to', n, inputs) { FoundInLonger(h, from, to, u, to', n, inputs); }
  }

  lemma ScannedLonger(h: seq<Tree>, from: nat, scan: KeyScan, u: Tree)
    requires Scanned(h, from, scan)
    ensures Scanned(h + [u], from, scan)
  {
    var g := h + [u];
    assert forall q :: 0 <= q < |h| ==> g[q] == h[q];
    forall n ensures ScannedName(g, from, scan, n) {
      assert ScannedName(h, from, scan, n);
      if n !in scan.names && n.scope !in scan.scopes { FoundInLonger(h, from, |h|, u, |g|, n, scan.read); }
    }
  }

  // --- two equal keys ---

  lemma ListedBetween(h: seq<Tree>, i: nat, q: nat, k: nat, n: InputName)
    requires ListingNeverReturns(h) && i <= q <= k < |h| && (n in Listed(h[i]) <==> n in Listed(h[k]))
    ensures n in Listed(h[q]) <==> n in Listed(h[i])
  {
    assert ListingSteady(h, n);
  }

  lemma FileBetween(h: seq<Tree>, i: nat, q: nat, k: nat, n: InputName)
    requires FilesNeverReturn(h) && i <= q <= k < |h| && Observe(h[i].work, n) == Observe(h[k].work, n)
    ensures Observe(h[q].work, n) == Observe(h[i].work, n)
  {
    assert FileSteady(h, n);
  }

  /** A name read with the same result before and after a moment had that value at it. */
  lemma FoundTwice(h: seq<Tree>, a: nat, q: nat, n: InputName, inputs: map<InputName, Observed>)
    requires ListingNeverReturns(h) && FilesNeverReturn(h) && a <= q < |h|
    requires FoundIn(h, 0, a + 1, n, inputs) && FoundIn(h, q, |h|, n, inputs)
    ensures n in Listed(h[q]) <==> n in inputs
    ensures n in inputs ==> Observe(h[q].work, n) == inputs[n]
  {
    if n in inputs {
      var i :| 0 <= i < a + 1 && i < |h| && n in Listed(h[i]);
      var k :| q <= k < |h| && n in Listed(h[k]);
      ListedBetween(h, i, q, k, n);
      var x :| 0 <= x < a + 1 && x < |h| && Observe(h[x].work, n) == inputs[n];
      var z :| q <= z < |h| && Observe(h[z].work, n) == inputs[n];
      FileBetween(h, x, q, z, n);
    } else {
      var i :| 0 <= i < a + 1 && i < |h| && n !in Listed(h[i]);
      var k :| q <= k < |h| && n !in Listed(h[k]);
      ListedBetween(h, i, q, k, n);
    }
  }

  lemma LaterRead(h: seq<Tree>, from: nat, q: nat, inputs: map<InputName, Observed>, n: InputName)
    requires q <= from && FoundIn(h, from, |h|, n, inputs)
    ensures FoundIn(h, q, |h|, n, inputs)
  {
  }

  /** Two equal keys, read before and after, fix what is hashed at every moment between. */
  lemma HashedBetween(h: seq<Tree>, a: nat, b: nat, q: nat, inputs: map<InputName, Observed>)
    requires NoneReturns(h) && a <= q <= b < |h| && ReadBetween(h, 0, a + 1, inputs) && ReadBetween(h, b, |h|, inputs)
    ensures Hashed(h[q]) == inputs
  {
    forall n ensures n in Hashed(h[q]) <==> n in inputs
             ensures n in inputs ==> Observe(h[q].work, n) == inputs[n]
    {
      assert FoundIn(h, 0, a + 1, n, inputs) && FoundIn(h, b, |h|, n, inputs);
      LaterRead(h, b, q, inputs, n);
      FoundTwice(h, a, q, n, inputs);
    }
    assert Hashed(h[q]).Keys == inputs.Keys;
  }

  /** An index that is the same before and after is the same between. */
  lemma IndexBetween(h: seq<Tree>, a: nat, b: nat, q: nat)
    requires IndexNeverReturns(h) && a <= q <= b < |h| && h[a].index == h[b].index
    ensures h[q].index == h[a].index
  {
    forall n ensures Observe(h[q].index, n) == Observe(h[a].index, n) {
      assert IndexSteady(h, n) && Observe(h[a].index, n) == Observe(h[b].index, n);
    }
    SameObserved(h[q].index, h[a].index);
  }

  lemma SameObserved(x: Inputs, y: Inputs)
    requires forall n :: Observe(x, n) == Observe(y, n)
    ensures x == y
  {
    forall n ensures n in x <==> n in y { assert Observe(x, n) == Observe(y, n); }
    forall n | n in x ensures x[n] == y[n] { assert Observe(x, n) == Observe(y, n); }
  }

  /** The index and the files stay what they were at the first moment. */
  predicate Calm(h: seq<Tree>, from: nat, to: nat) {
    forall q :: from <= q < to && q < |h| && from < |h| ==> h[q].index == h[from].index == h[q].work
  }

  /** Clean at both ends and hashed alike all the time, the tree does not change between. */
  lemma EqualKeysMeanCalm(h: seq<Tree>, a: nat, b: nat, inputs: map<InputName, Observed>)
    requires NoneReturns(h) && a <= b < |h| && Clean(h[a]) && Clean(h[b])
    requires ReadBetween(h, 0, a + 1, inputs) && ReadBetween(h, b, |h|, inputs)
    ensures Calm(h, a, b + 1) && AsHashed(h[a].index) == inputs
  {
    HashedBetween(h, a, b, a, inputs);
    HashedBetween(h, a, b, b, inputs);
    CleanHash(h[a]);
    CleanHash(h[b]);
    AsHashedIsInjective(h[a].index, h[b].index);
    forall q | a <= q < b + 1 ensures h[q].index == h[a].index == h[q].work {
      HashedBetween(h, a, b, q, inputs);
      IndexBetween(h, a, b, q);
      HashesLikeIndex(h[q]);
    }
  }

  // --- what a prepare knows about its copy ---

  /** How far a copy of an unchanging tree has got. */
  predicate PartialCopy(base: Inputs, scopes: seq<Scope>, names: set<InputName>, copied: Inputs) {
    && base.Keys == copied.Keys + names + (set n | n in base && n.scope in scopes)
    && forall n :: n in copied ==> n in base && copied[n] == base[n]
  }

  /** What a process between its first key and the clean check under the lock has read. */
  predicate KnowsKey(proc: Process) {
    proc.HaveKey? || proc.Deciding? || proc.WantKey? || proc.Rechecking?
  }

  predicate FoundClean(proc: Process) {
    proc.Rechecked? || proc.Holding?
  }

  /** `h` is what the process has seen, ending with what its worktree holds now. */
  ghost predicate Watches(h: seq<Tree>, t: Tree, proc: Process) {
    && (proc.Keying? || KnowsKey(proc) || FoundClean(proc) ==> h != [] && h[|h| - 1] == t)
    && (proc.Keying? ==> Scanned(h, 0, proc.scan))
    && (KnowsKey(proc) ==> ReadBetween(h, 0, |h|, proc.key.inputs))
    && (FoundClean(proc) ==>
          1 <= proc.cleanAt <= |h| && Clean(h[proc.cleanAt - 1]) && ReadBetween(h, 0, proc.cleanAt, proc.key.inputs))
  }

  /** What a copy is worth: exact as long as the tree was calm. */
  ghost predicate CopyTracked(h: seq<Tree>, from: nat, work: Work, key: Key)
    requires from < |h|
  {
    match work
    case Copying(scopes, names, copied) =>
      Calm(h, from, |h|) ==> PartialCopy(h[from].index, scopes, names, copied)
    case Staged(entry) => Calm(h, from, |h|) ==> entry.builtFrom == h[from].index
    case StagedClean(entry, again, scan) =>
      && from < again <= |h| && Clean(h[again - 1]) && Scanned(h, again - 1, scan)
      && (Calm(h, from, again) ==> entry.builtFrom == h[from].index)
    case Checked(entry) => BuiltFromKey(entry, key)
    case _ => true
  }

  ghost predicate Tracked(h: seq<Tree>, t: Tree, proc: Process) {
    Watches(h, t, proc) && (proc.Holding? ==> CopyTracked(h, proc.cleanAt - 1, proc.work, proc.key))
  }

  ghost predicate TrackedIn(s: State, p: Pid)
    requires p in s.procs
  {
    IsPrepare(s.procs[p]) ==> Tracked(SeenBy(s, p), TreeOf(s, s.procs[p].job.root), s.procs[p])
  }

  ghost predicate AllTracked(s: State) {
    s.seen.Keys <= s.procs.Keys && forall p :: p in s.procs ==> TrackedIn(s, p)
  }

  // --- the copy ---

  lemma ListingExtendsCopy(base: Inputs, scopes: seq<Scope>, copied: Inputs)
    requires scopes != [] && PartialCopy(base, scopes, {}, copied)
    ensures PartialCopy(base, scopes[1..], (set n | n in base && n.scope == scopes[0]), copied)
  {
    assert forall sc :: sc in scopes <==> sc == scopes[0] || sc in scopes[1..];
  }

  lemma CopyingExtendsCopy(base: Inputs, scopes: seq<Scope>, names: set<InputName>, copied: Inputs, n: InputName)
    requires n in names && n in base && PartialCopy(base, scopes, names, copied)
    ensures PartialCopy(base, scopes, names - {n}, copied[n := base[n]])
  {
    assert copied[n := base[n]].Keys + (names - {n}) == copied.Keys + names;
  }

  lemma FreshCopy(base: Inputs)
    ensures PartialCopy(base, [Bindings, LocalPackage], {}, map[])
  {
    assert forall n :: n in base ==> n.scope == Bindings || n.scope == LocalPackage;
  }

  lemma FinishedCopy(base: Inputs, copied: Inputs)
    requires PartialCopy(base, [], {}, copied)
    ensures copied == base
  {
    assert copied.Keys == base.Keys;
  }

  lemma ListStepTracked(h: seq<Tree>, from: nat, scopes: seq<Scope>, copied: Inputs, key: Key)
    requires from < |h| && scopes != [] && CopyTracked(h, from, Copying(scopes, {}, copied), key)
    ensures CopyTracked(h, from,
      Copying(scopes[1..], (set n | n in h[|h| - 1].index && n.scope == scopes[0]), copied), key)
  {
    if Calm(h, from, |h|) { ListingExtendsCopy(h[from].index, scopes, copied); }
  }

  lemma CopyStepTracked(h: seq<Tree>, from: nat, scopes: seq<Scope>, names: set<InputName>, copied: Inputs, key: Key,
                        n: InputName)
    requires from < |h| && CopyTracked(h, from, Copying(scopes, names, copied), key)
    requires n in names && n in h[|h| - 1].work
    ensures CopyTracked(h, from, Copying(scopes, names - {n}, copied[n := h[|h| - 1].work[n]]), key)
  {
    if Calm(h, from, |h|) { CopyingExtendsCopy(h[from].index, scopes, names, copied, n); }
  }

  lemma BuildStepTracked(h: seq<Tree>, from: nat, copied: Inputs, entry: Package, key: Key)
    requires from < |h| && CopyTracked(h, from, Copying([], {}, copied), key) && entry.builtFrom == copied
    ensures CopyTracked(h, from, Staged(entry), key)
  {
    if Calm(h, from, |h|) { FinishedCopy(h[from].index, copied); }
  }

  lemma CheckCleanTracked(h: seq<Tree>, from: nat, entry: Package, key: Key)
    requires from < |h| && CopyTracked(h, from, Staged(entry), key) && Clean(h[|h| - 1])
    ensures CopyTracked(h, from, StagedClean(entry, |h|, FRESH_SCAN), key)
  {
    FreshIsScanned(h, |h| - 1);
  }

  /** The last key check: equal keys and two clean checks make the copy exact. */
  lemma CheckKeyTracked(h: seq<Tree>, from: nat, entry: Package, again: nat, scan: KeyScan, key: Key)
    requires from < |h| && CopyTracked(h, from, StagedClean(entry, again, scan), key)
    requires NoneReturns(h) && Clean(h[from]) && ReadBetween(h, 0, from + 1, key.inputs)
    requires ScanDone(scan) && scan.read == key.inputs
    ensures BuiltFromKey(entry, key)
  {
    DoneIsRead(h, again - 1, scan);
    EqualKeysMeanCalm(h, from, again - 1, key.inputs);
  }

  // --- every step of a prepare ---

  /** What the effect leaves of the process agrees with what it has seen by then. */
  ghost predicate EffectTracked(s: State, p: Pid, effect: Effect) {
    !effect.End? && IsPrepare(effect.next) ==> Tracked(SeenBy(s, p), TreeOf(s, effect.next.job.root), effect.next)
  }

  ghost predicate TrackedNext(s: State, p: Pid, step: PrepareStep)
    requires p in s.procs && EnabledPrepare(s, p, step)
  {
    EffectTracked(s.(seen := PrepareSeen(s, p, step)), p, PrepareEffect(s, p, step))
  }

  /** A holder that only changes its work has to account for that alone. */
  lemma ChangedWork(h: seq<Tree>, t: Tree, proc: Process, work: Work)
    requires proc.Holding? && Watches(h, t, proc) && CopyTracked(h, proc.cleanAt - 1, work, proc.key)
    ensures Tracked(h, t, proc.(work := work))
  {
  }

  lemma WorkTracked(s: State, p: Pid, work: Work)
    requires p in s.procs && s.procs[p].Holding? && TrackedIn(s, p)
    requires CopyTracked(SeenBy(s, p), s.procs[p].cleanAt - 1, work, s.procs[p].key)
    ensures EffectTracked(s, p, Become(s.procs[p].(work := work)))
  {
    ChangedWork(SeenBy(s, p), TreeOf(s, s.procs[p].job.root), s.procs[p], work);
  }

  lemma CopyTrackedNext(s: State, p: Pid, step: PrepareStep)
    requires p in s.procs && EnabledPrepare(s, p, step) && CopyStep(step) && TrackedIn(s, p)
    ensures TrackedNext(s, p, step)
  {
    var proc, h := s.procs[p], SeenBy(s, p);
    var from, work := proc.cleanAt - 1, PrepareEffect(s, p, step).next.work;
    match step {
      case PickLanguage => FreshCopy(h[from].index);
      case ListScope => ListStepTracked(h, from, proc.work.scopes, proc.work.copied, proc.key);
      case CopyFile(n) =>
        CopyStepTracked(h, from, proc.work.scopes, proc.work.names, proc.work.copied, proc.key, n);
    }
    WorkTracked(s, p, work);
  }

  lemma BuildTrackedNext(s: State, p: Pid, step: PrepareStep)
    requires p in s.procs && EnabledPrepare(s, p, step) && (step.Build? || step.CheckClean?) && TrackedIn(s, p)
    ensures TrackedNext(s, p, step)
  {
    var proc, h := s.procs[p], SeenBy(s, p);
    var from, work := proc.cleanAt - 1, PrepareEffect(s, p, step).next.work;
    match step {
      case Build(_) => BuildStepTracked(h, from, proc.work.copied, work.entry, proc.key);
      case CheckClean => CheckCleanTracked(h, from, proc.work.entry, proc.key);
    }
    WorkTracked(s, p, work);
  }

  lemma CheckedIsBuiltFromKey(h: seq<Tree>, t: Tree, proc: Process)
    requires proc.Holding? && proc.work.StagedClean? && Tracked(h, t, proc) && NoneReturns(h)
    requires ScanDone(proc.work.scan) && KeyFrom(proc.work.scan, proc.job.tools) == proc.key
    ensures BuiltFromKey(proc.work.entry, proc.key)
  {
    CheckKeyTracked(h, proc.cleanAt - 1, proc.work.entry, proc.work.again, proc.work.scan, proc.key);
  }

  lemma PublishTrackedNext(s: State, p: Pid, step: PrepareStep)
    requires p in s.procs && EnabledPrepare(s, p, step) && (step.CheckKey? || step.Publish?)
    requires TrackedIn(s, p) && NoneReturns(SeenBy(s, p))
    ensures TrackedNext(s, p, step)
  {
    var proc := s.procs[p];
    if step.CheckKey? { CheckedIsBuiltFromKey(SeenBy(s, p), TreeOf(s, proc.job.root), proc); }
    WorkTracked(s, p, PrepareEffect(s, p, step).next.work);
  }

  /** One step of a key computation. */
  lemma ScanTracked(h: seq<Tree>, from: nat, scan: KeyScan, next: KeyScan, step: PrepareStep)
    requires from < |h| && Scanned(h, from, scan)
    requires step.ListKeyScope? ==> CanListNext(scan) && next == ListNext(scan, h[|h| - 1])
    requires step.ReadKeyInput? ==> step.input in scan.names && next == ReadName(scan, h[|h| - 1], step.input)
    requires step.ReadKeyCore? ==> next == scan.(core := next.core)
    requires ScanStep(step)
    ensures Scanned(h, from, next)
  {
    match step
    case ListKeyScope => ListNextIsScanned(h, from, scan);
    case ReadKeyInput(n) => ReadNameIsScanned(h, from, scan, n);
    case ReadKeyCore =>
      forall n ensures ScannedName(h, from, next, n) { assert ScannedName(h, from, scan, n); }
  }

  /** The scan a step of a key computation leads to. */
  function ScanAfter(s: State, p: Pid, step: PrepareStep): KeyScan
    requires p in s.procs && EnabledPrepare(s, p, step) && ScanStep(step)
  {
    var scan, t := ScanOf(s.procs[p]).value, TreeOf(s, s.procs[p].job.root);
    match step
    case ListKeyScope => ListNext(scan, t)
    case ReadKeyInput(n) => ReadName(scan, t, n)
    case ReadKeyCore => scan.(core := Some(t.core))
  }

  lemma ScanEffect(s: State, p: Pid, step: PrepareStep)
    requires p in s.procs && EnabledPrepare(s, p, step) && ScanStep(step)
    ensures PrepareEffect(s, p, step) == Become(WithScan(s.procs[p], ScanAfter(s, p, step)))
    ensures PrepareSeen(s, p, step) == s.seen
  {
  }

  lemma WithScanTracked(h: seq<Tree>, t: Tree, proc: Process, next: KeyScan)
    requires IsPrepare(proc) && Tracked(h, t, proc) && ScanOf(proc).Some?
    requires proc.Keying? ==> Scanned(h, 0, next)
    requires proc.Holding? ==> Scanned(h, proc.work.again - 1, next)
    ensures Tracked(h, t, WithScan(proc, next))
  {
  }

  lemma ScanTrackedNext(s: State, p: Pid, step: PrepareStep)
    requires p in s.procs && EnabledPrepare(s, p, step) && ScanStep(step) && TrackedIn(s, p)
    ensures TrackedNext(s, p, step)
  {
    var proc, h := s.procs[p], SeenBy(s, p);
    var next := ScanAfter(s, p, step);
    ScanEffect(s, p, step);
    if proc.Keying? { ScanTracked(h, 0, proc.scan, next, step); }
    if proc.Holding? { ScanTracked(h, proc.work.again - 1, proc.work.scan, next, step); }
    WithScanTracked(h, TreeOf(s, proc.job.root), proc, next);
  }

  lemma StartKeyTracked(s: State, p: Pid)
    requires p in s.procs && EnabledPrepare(s, p, StartKey) && TrackedIn(s, p)
    ensures TrackedNext(s, p, StartKey)
  {
    FreshIsScanned([TreeOf(s, s.procs[p].job.root)], 0);
  }

  lemma ComputeKeyTracked(s: State, p: Pid)
    requires p in s.procs && EnabledPrepare(s, p, ComputeKey) && TrackedIn(s, p)
    ensures TrackedNext(s, p, ComputeKey)
  {
    DoneIsRead(SeenBy(s, p), 0, s.procs[p].scan);
  }

  lemma EarlyTrackedNext(s: State, p: Pid, step: PrepareStep)
    requires p in s.procs && EnabledPrepare(s, p, step) && EarlyStep(step) && TrackedIn(s, p)
    ensures TrackedNext(s, p, step)
  {
    if step.StartKey? { StartKeyTracked(s, p); }
    if step.ComputeKey? { ComputeKeyTracked(s, p); }
  }

  lemma LinkTrackedNext(s: State, p: Pid, step: PrepareStep)
    requires p in s.procs && EnabledPrepare(s, p, step) && LinkStep(step) && TrackedIn(s, p)
    ensures TrackedNext(s, p, step)
  {
  }

  lemma PrepareTracked(s: State, p: Pid, step: PrepareStep)
    requires p in s.procs && EnabledPrepare(s, p, step) && TrackedIn(s, p) && NoneReturns(SeenBy(s, p))
    ensures TrackedNext(s, p, step)
  {
    if EarlyStep(step) {
      EarlyTrackedNext(s, p, step);
    } else if ScanStep(step) {
      ScanTrackedNext(s, p, step);
    } else if CopyStep(step) {
      CopyTrackedNext(s, p, step);
    } else if step.Build? || step.CheckClean? {
      BuildTrackedNext(s, p, step);
    } else if BuildStep(step) {
      PublishTrackedNext(s, p, step);
    } else {
      LinkTrackedNext(s, p, step);
    }
  }

  // --- every step ---

  ghost predicate OthersTracked(s: State, p: Pid) {
    forall q :: q in s.procs && q != p ==> TrackedIn(s, q)
  }

  /** A step of one process leaves the others as they were. */
  lemma CommitTracked(s: State, p: Pid, effect: Effect, d: Disk)
    requires s.seen.Keys <= s.procs.Keys && p in s.procs && Fits(s, p, effect)
    requires OthersTracked(s, p) && EffectTracked(s, p, effect)
    ensures AllTracked(Commit(s, p, effect, d))
  {
    var t := Commit(s, p, effect, d);
    CommitIsLocal(s, p, effect, d);
    forall q | q in t.procs ensures TrackedIn(t, q) {
      assert SeenBy(t, q) == SeenBy(s, q);
      if q != p { assert TrackedIn(s, q); }
    }
  }

  lemma SeenByOthers(s: State, p: Pid, step: PrepareStep, q: Pid)
    requires p in s.procs && EnabledPrepare(s, p, step) && q in s.procs && q != p && TrackedIn(s, q)
    ensures TrackedIn(s.(seen := PrepareSeen(s, p, step)), q)
  {
    var t := s.(seen := PrepareSeen(s, p, step));
    assert SeenBy(t, q) == SeenBy(s, q);
  }

  lemma OthersNoted(s: State, p: Pid, step: PrepareStep)
    requires AllTracked(s) && p in s.procs && EnabledPrepare(s, p, step)
    ensures var noted := s.(seen := PrepareSeen(s, p, step));
      OthersTracked(noted, p) && noted.seen.Keys <= noted.procs.Keys
  {
    forall q | q in s.procs && q != p ensures TrackedIn(s.(seen := PrepareSeen(s, p, step)), q) {
      SeenByOthers(s, p, step, q);
    }
  }

  lemma PrepareKeepsTracked(s: State, p: Pid, step: PrepareStep)
    requires LocksAgree(s) && AllTracked(s) && p in s.procs && EnabledPrepare(s, p, step) && NoneReturns(SeenBy(s, p))
    ensures AllTracked(Apply(s, Prepare(p, step)))
  {
    assert TrackedIn(s, p);
    PrepareTracked(s, p, step);
    PrepareFits(s, p, step);
    OthersNoted(s, p, step);
    CommitTracked(s.(seen := PrepareSeen(s, p, step)), p, PrepareEffect(s, p, step), PrepareDisk(s, p, step));
  }

  lemma PruneKeepsTracked(s: State, p: Pid, step: PruneStep)
    requires AllTracked(s) && p in s.procs && EnabledPrune(s, p, step)
    ensures AllTracked(Apply(s, Prune(p, step)))
  {
    PruneFits(s, p, step);
    if !PruneEffect(s, p, step).End? { PruneStays(s, p, step); }
    CommitTracked(s, p, PruneEffect(s, p, step), PruneDisk(s, p, step));
  }

  lemma CalmShrinks(h: seq<Tree>, from: nat, to: nat, u: Tree, to': nat)
    requires from < |h| && to <= |h| && to <= to' && Calm(h + [u], from, to')
    ensures Calm(h, from, to)
  {
    var g := h + [u];
    assert forall q :: 0 <= q < |h| ==> g[q] == h[q];
    forall q | from <= q < to && q < |h| ensures h[q].index == h[from].index == h[q].work {
      assert g[q].index == g[from].index == g[q].work;
    }
  }

  lemma EditCopyTracked(h: seq<Tree>, from: nat, work: Work, key: Key, u: Tree)
    requires from < |h| && CopyTracked(h, from, work, key)
    ensures CopyTracked(h + [u], from, work, key)
  {
    var g := h + [u];
    assert g[from] == h[from];
    match work
    case StagedClean(entry, again, scan) =>
      assert g[again - 1] == h[again - 1];
      ScannedLonger(h, again - 1, scan, u);
      if Calm(g, from, again) { CalmShrinks(h, from, again, u, again); }
    case _ =>
      if Calm(g, from, |g|) { CalmShrinks(h, from, |h|, u, |g|); }
  }

  lemma EditWatches(h: seq<Tree>, t: Tree, proc: Process, u: Tree)
    requires Watches(h, t, proc) && h != []
    ensures Watches(h + [u], u, proc)
  {
    var g := h + [u];
    if proc.Keying? { ScannedLonger(h, 0, proc.scan, u); }
    if KnowsKey(proc) { ReadBetweenLonger(h, 0, |h|, u, |g|, proc.key.inputs); }
    if FoundClean(proc) {
      assert g[proc.cleanAt - 1] == h[proc.cleanAt - 1];
      ReadBetweenLonger(h, 0, proc.cleanAt, u, proc.cleanAt, proc.key.inputs);
    }
  }

  lemma EditTracked(h: seq<Tree>, t: Tree, proc: Process, u: Tree)
    requires Tracked(h, t, proc) && h != []
    ensures Tracked(h + [u], u, proc)
  {
    EditWatches(h, t, proc, u);
    if proc.Holding? { EditCopyTracked(h, proc.cleanAt - 1, proc.work, proc.key, u); }
  }

  predicate Idle(proc: Process) {
    !proc.Keying? && !KnowsKey(proc) && !FoundClean(proc)
  }

  lemma EditKeepsTracked(s: State, root: Root, u: Tree)
    requires AllTracked(s)
    ensures AllTracked(Apply(s, Edit(root, u)))
  {
    var t := Apply(s, Edit(root, u));
    forall p | p in t.procs ensures TrackedIn(t, p) {
      var proc := s.procs[p];
      assert TrackedIn(s, p);
      if WorksOn(proc, root) {
        if !Idle(proc) { EditTracked(SeenBy(s, p), TreeOf(s, root), proc, u); }
      } else {
        assert SeenBy(t, p) == SeenBy(s, p);
      }
    }
  }

  lemma StartTracked(s: State, p: Pid, proc: Process)
    requires AllTracked(s) && p !in s.procs && (proc.WantOutput? || proc.NextVictim?)
    ensures AllTracked(s.(procs := s.procs[p := proc]))
  {
    var t := s.(procs := s.procs[p := proc]);
    forall q | q in t.procs ensures TrackedIn(t, q) {
      assert SeenBy(t, q) == SeenBy(s, q);
      if q != p { assert TrackedIn(s, q); }
    }
  }

  lemma DropTracked(s: State, path: LinkPath)
    requires AllTracked(s)
    ensures AllTracked(Apply(s, DropLink(path)))
  {
    var t := Apply(s, DropLink(path));
    forall p | p in t.procs ensures TrackedIn(t, p) { assert TrackedIn(s, p); }
  }

  /** Nothing a running `prepare` has seen returned. */
  ghost predicate NoneReturned(s: State) {
    forall p :: p in s.seen ==> NoneReturns(s.seen[p])
  }

  lemma StepKeepsTracked(s: State, e: Event)
    requires LocksAgree(s) && AllTracked(s) && Enabled(s, e) && NoneReturned(s)
    ensures AllTracked(Apply(s, e))
  {
    match e
    case StartPrepare(p, job) => StartTracked(s, p, WantOutput(job));
    case StartPrune(p, victims) => StartTracked(s, p, NextVictim(victims));
    case Prepare(p, step) => PrepareKeepsTracked(s, p, step);
    case Prune(p, step) => PruneKeepsTracked(s, p, step);
    case Crash(p) => CommitTracked(s, p, End, s.disk);
    case Edit(root, u) => EditKeepsTracked(s, root, u);
    case DropLink(path) => DropTracked(s, path);
  }

  lemma PrepareDiskBuiltFromKey(s: State, p: Pid, step: PrepareStep)
    requires p in s.procs && EnabledPrepare(s, p, step) && AllBuiltFromKey(s.disk) && TrackedIn(s, p)
    ensures AllBuiltFromKey(PrepareDisk(s, p, step))
  {
  }

  lemma PruneDiskBuiltFromKey(s: State, p: Pid, step: PruneStep)
    requires p in s.procs && EnabledPrune(s, p, step) && AllBuiltFromKey(s.disk)
    ensures AllBuiltFromKey(PruneDisk(s, p, step))
  {
  }

  lemma StepKeepsBuilt(s: State, e: Event)
    requires LocksAgree(s) && AllTracked(s) && AllBuiltFromKey(s.disk) && Enabled(s, e)
    ensures AllBuiltFromKey(Apply(s, e).disk)
  {
    match e
    case Prepare(p, step) =>
      assert TrackedIn(s, p);
      PrepareDiskBuiltFromKey(s, p, step);
      PrepareFits(s, p, step);
      CommitIsLocal(s.(seen := PrepareSeen(s, p, step)), p, PrepareEffect(s, p, step), PrepareDisk(s, p, step));
    case Prune(p, step) =>
      PruneDiskBuiltFromKey(s, p, step);
      PruneFits(s, p, step);
      CommitIsLocal(s, p, PruneEffect(s, p, step), PruneDisk(s, p, step));
    case _ =>
  }

  /** Every step keeps the link between what a process has seen, its copy and its key, as
      long as no name it has seen returned. */
  lemma StepKeepsProvenance(s: State, e: Event)
    requires LocksAgree(s) && AllTracked(s) && AllBuiltFromKey(s.disk) && Enabled(s, e) && NoneReturned(s)
    ensures AllTracked(Apply(s, e)) && AllBuiltFromKey(Apply(s, e).disk)
  {
    StepKeepsTracked(s, e);
    StepKeepsBuilt(s, e);
  }

  lemma ProvenanceNext(r: Run, i: nat)
    requires Valid(r) && i < |r.events| && NeverReturns(r) && AllTracked(r.states[i]) && AllBuiltFromKey(r.states[i].disk)
    ensures AllTracked(r.states[i + 1]) && AllBuiltFromKey(r.states[i + 1].disk)
  {
    LocksAlwaysAgree(r, i);
    var s := r.states[i];
    forall p | p in s.seen ensures NoneReturns(s.seen[p]) { assert Shown(r, s.seen[p]); }
    assert StepAt(r, i);
    StepKeepsProvenance(s, r.events[i]);
  }

  /** If no name of a worktree returns, in the listing, on disk or in the index, while a
      `prepare` works on it, every package in the cache was built from exactly the inputs
      its key stands for, although keys and copies are read name by name. */
  lemma {:induction false} PackagesComeFromTheirKey(r: Run, i: nat)
    requires Valid(r) && NeverReturns(r) && i < |r.states|
    ensures AllTracked(r.states[i]) && AllBuiltFromKey(r.states[i].disk)
    decreases i
  {
    if i > 0 {
      PackagesComeFromTheirKey(r, i - 1);
      ProvenanceNext(r, i - 1);
    }
  }
}
