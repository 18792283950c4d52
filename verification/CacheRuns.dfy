/** Runs of the cache protocol with a single process, step by step: whatever a worktree
    shows at the moments a `prepare` reads it, there is a run in which it shows that. */
module CacheRuns {
  import opened Options
  import opened PackageLayout
  import opened InputTrees
  import opened CacheModel
  import opened CacheLocks
  import opened CacheProvenance

  /** All a `prepare` has seen at any moment of the run is the beginning of `h`. */
  ghost predicate ShownWithin(r: Run, h: seq<Tree>) {
    forall x :: Shown(r, x) ==> x <= h
  }

  predicate NoPrune(r: Run) {
    forall i :: 0 <= i < |r.events| ==> !r.events[i].Prune?
  }

  /** What process 0, alone, finds and has seen. */
  predicate Here(s: State, proc: Process, d: Disk, t: Tree, h: seq<Tree>) {
    && s.procs == map[0 := proc] && s.disk == d
    && (IsPrepare(proc) ==> TreeOf(s, proc.job.root) == t)
    && s.seen == if h == [] then map[] else map[0 := h]
  }

  /** The run ends with process 0 alone, the given disk, tree and trees seen. */
  ghost predicate At(r: Run, proc: Process, d: Disk, t: Tree, h: seq<Tree>) {
    Valid(r) && Here(After(r), proc, d, t, h) && ShownWithin(r, h) && NoPrune(r)
  }

  lemma ShownStep(r: Run, s: State, e: Event, h: seq<Tree>, g: seq<Tree>)
    requires ShownWithin(r, h) && h <= g && forall p :: p in s.seen ==> s.seen[p] <= g
    ensures ShownWithin(Run(r.events + [e], r.states + [s]), g)
  {
    var later := Run(r.events + [e], r.states + [s]);
    forall x | Shown(later, x) ensures x <= g {
      var i, p :| 0 <= i < |later.states| && p in later.states[i].seen && later.states[i].seen[p] == x;
      if i < |r.states| {
        assert later.states[i] == r.states[i];
        assert Shown(r, x);
      }
    }
  }

  /** One more event, with what it leaves behind. */
  lemma AtNext(r: Run, e: Event, proc: Process, d: Disk, t: Tree, h: seq<Tree>, g: seq<Tree>) returns (later: Run)
    requires Valid(r) && ShownWithin(r, h) && NoPrune(r) && Enabled(After(r), e) && !e.Prune? && h <= g
    requires Here(Apply(After(r), e), proc, d, t, g)
    ensures At(later, proc, d, t, g)
  {
    later := Then(r, e);
    ThenIsValid(r, e);
    ShownStep(r, Apply(After(r), e), e, h, g);
  }

  lemma HereAfterEdit(s: State, proc: Process, d: Disk, t: Tree, h: seq<Tree>, u: Tree)
    requires Here(s, proc, d, t, h) && IsPrepare(proc)
    ensures Here(Apply(s, Edit(proc.job.root, u)), proc, d, u, if h == [] then [] else h + [u])
  {
  }

  lemma EditAt(r: Run, proc: Process, d: Disk, t: Tree, h: seq<Tree>, u: Tree) returns (later: Run)
    requires At(r, proc, d, t, h) && IsPrepare(proc)
    ensures At(later, proc, d, u, if h == [] then [] else h + [u])
  {
    HereAfterEdit(After(r), proc, d, t, h, u);
    later := AtNext(r, Edit(proc.job.root, u), proc, d, u, h, if h == [] then [] else h + [u]);
  }

  lemma HereAfterCommit(s: State, proc: Process, effect: Effect, d: Disk, t: Tree, h: seq<Tree>)
    requires s.procs == map[0 := proc] && Fits(s, 0, effect) && !effect.End?
    requires IsPrepare(effect.next) && TreeOf(s, effect.next.job.root) == t
    requires s.seen == if h == [] then map[] else map[0 := h]
    ensures Here(Commit(s, 0, effect, d), effect.next, d, t, h)
  {
    CommitIsLocal(s, 0, effect, d);
    assert (map[0 := proc])[0 := effect.next] == map[0 := effect.next];
  }

  lemma HereAfterPrepare(s: State, proc: Process, d: Disk, t: Tree, h: seq<Tree>, step: PrepareStep)
    requires LocksAgree(s) && Here(s, proc, d, t, h) && EnabledPrepare(s, 0, step) && !PrepareEffect(s, 0, step).End?
    ensures Here(Apply(s, Prepare(0, step)), PrepareEffect(s, 0, step).next, PrepareDisk(s, 0, step), t,
                 if step.StartKey? then [t] else h)
  {
    JobStays(s, 0, step);
    PrepareFits(s, 0, step);
    HereAfterCommit(s.(seen := PrepareSeen(s, 0, step)), proc, PrepareEffect(s, 0, step), PrepareDisk(s, 0, step), t,
                    if step.StartKey? then [t] else h);
  }

  lemma PrepareAt(r: Run, proc: Process, d: Disk, t: Tree, h: seq<Tree>, step: PrepareStep) returns (later: Run)
    requires At(r, proc, d, t, h) && EnabledPrepare(After(r), 0, step) && !PrepareEffect(After(r), 0, step).End?
    requires step.StartKey? ==> h == []
    ensures At(later, PrepareEffect(After(r), 0, step).next, PrepareDisk(After(r), 0, step), t,
               if step.StartKey? then [t] else h)
  {
    LocksAlwaysAgree(r, |r.events|);
    HereAfterPrepare(After(r), proc, d, t, h, step);
    later := AtNext(r, Prepare(0, step), PrepareEffect(After(r), 0, step).next, PrepareDisk(After(r), 0, step), t, h,
                    if step.StartKey? then [t] else h);
  }

  /** A step that only changes the process. */
  lemma BecomeAt(r: Run, proc: Process, d: Disk, t: Tree, h: seq<Tree>, step: PrepareStep, next: Process)
    returns (later: Run)
    requires At(r, proc, d, t, h) && EnabledPrepare(After(r), 0, step) && !step.StartKey?
    requires PrepareEffect(After(r), 0, step) == Become(next) && PrepareDisk(After(r), 0, step) == d
    ensures At(later, next, d, t, h)
  {
    later := PrepareAt(r, proc, d, t, h, step);
  }

  /** When process 0 holds no lock, none is held. */
  lemma NoLocks(r: Run, proc: Process, d: Disk, t: Tree, h: seq<Tree>)
    requires At(r, proc, d, t, h)
    ensures HeldKey(proc).None? ==> After(r).keyLocks == map[]
    ensures HeldOutput(proc).None? ==> After(r).outputLocks == map[]
  {
    LocksAlwaysAgree(r, |r.events|);
  }

  // --- a key computation ---

  /** What one scope of a tree contributes to a key. */
  function HashedScope(t: Tree, scope: Scope): map<InputName, Observed> {
    map n | n in Listed(t) && n.scope == scope :: Observe(t.work, n)
  }

  /** The tree while the bindings and the version are read, and the one while the scripts are. */
  datatype Torn = Torn(bindings: Tree, scripts: Tree)

  function Whole(t: Tree): Torn {
    Torn(t, t)
  }

  function TornInputs(k: Torn): map<InputName, Observed> {
    HashedScope(k.bindings, Bindings) + HashedScope(k.scripts, LocalPackage)
  }

  function TornKey(k: Torn, tools: string): Key {
    Key(TornInputs(k), k.bindings.core, tools)
  }

  lemma WholeInputs(t: Tree)
    ensures TornInputs(Whole(t)) == Hashed(t)
  {
    assert forall n :: n in Listed(t) ==> n.scope == Bindings || n.scope == LocalPackage;
  }

  function Observations(t: Tree, names: set<InputName>): map<InputName, Observed> {
    map n | n in names :: Observe(t.work, n)
  }

  lemma ReadOneAt(r: Run, proc: Process, k: KeyScan, d: Disk, t: Tree, h: seq<Tree>, n: InputName) returns (later: Run)
    requires ScanOf(proc).Some? && At(r, WithScan(proc, k), d, t, h) && n in k.names
    ensures At(later, WithScan(proc, ReadName(k, t, n)), d, t, h)
  {
    later := BecomeAt(r, WithScan(proc, k), d, t, h, ReadKeyInput(n), WithScan(proc, ReadName(k, t, n)));
  }

  lemma ObservationsStep(t: Tree, names: set<InputName>, read: map<InputName, Observed>, n: InputName)
    requires n in names
    ensures read[n := Observe(t.work, n)] + Observations(t, names - {n}) == read + Observations(t, names)
  {
  }

  lemma ReadNamesAt(r: Run, proc: Process, k: KeyScan, d: Disk, t: Tree, h: seq<Tree>) returns (later: Run)
    requires ScanOf(proc).Some? && At(r, WithScan(proc, k), d, t, h)
    ensures At(later, WithScan(proc, k.(names := {}, read := k.read + Observations(t, k.names))), d, t, h)
    decreases |k.names|
  {
    if k.names == {} {
      later := r;
      assert k.read + Observations(t, k.names) == k.read;
    } else {
      var n :| n in k.names;
      later := ReadOneAt(r, proc, k, d, t, h, n);
      later := ReadNamesAt(later, proc, ReadName(k, t, n), d, t, h);
      ObservationsStep(t, k.names, k.read, n);
    }
  }

  lemma ListNextAt(r: Run, proc: Process, k: KeyScan, d: Disk, t: Tree, h: seq<Tree>) returns (later: Run)
    requires ScanOf(proc).Some? && At(r, WithScan(proc, k), d, t, h) && CanListNext(k)
    ensures At(later, WithScan(proc, ListNext(k, t)), d, t, h)
  {
    later := BecomeAt(r, WithScan(proc, k), d, t, h, ListKeyScope, WithScan(proc, ListNext(k, t)));
  }

  lemma ReadCoreAt(r: Run, proc: Process, k: KeyScan, d: Disk, t: Tree, h: seq<Tree>) returns (later: Run)
    requires ScanOf(proc).Some? && At(r, WithScan(proc, k), d, t, h) && CanReadCore(k)
    ensures At(later, WithScan(proc, k.(core := Some(t.core))), d, t, h)
  {
    later := BecomeAt(r, WithScan(proc, k), d, t, h, ReadKeyCore, WithScan(proc, k.(core := Some(t.core))));
  }

  lemma ScanScopeAt(r: Run, proc: Process, k: KeyScan, d: Disk, t: Tree, h: seq<Tree>) returns (later: Run)
    requires ScanOf(proc).Some? && At(r, WithScan(proc, k), d, t, h) && CanListNext(k)
    ensures At(later, WithScan(proc, KeyScan(k.scopes[1..], {}, k.read + HashedScope(t, k.scopes[0]), k.core)), d, t, h)
  {
    later := ListNextAt(r, proc, k, d, t, h);
    later := ReadNamesAt(later, proc, ListNext(k, t), d, t, h);
    assert Observations(t, ListNext(k, t).names) == HashedScope(t, k.scopes[0]);
  }

  /** A whole key computation; the tree may change between its two scopes. */
  lemma ScanTornAt(r: Run, proc: Process, d: Disk, k: Torn, h: seq<Tree>) returns (later: Run)
    requires ScanOf(proc).Some? && IsPrepare(proc) && h != [] && At(r, WithScan(proc, FRESH_SCAN), d, k.bindings, h)
    ensures At(later, WithScan(proc, KeyScan([], {}, TornInputs(k), Some(k.bindings.core))), d, k.scripts, h + [k.scripts])
  {
    var t, u, core := k.bindings, k.scripts, Some(k.bindings.core);
    later := ScanScopeAt(r, proc, FRESH_SCAN, d, t, h);
    assert [Bindings, LocalPackage][1..] == [LocalPackage] && [LocalPackage][1..] == [];
    assert map[] + HashedScope(t, Bindings) == HashedScope(t, Bindings);
    var half := KeyScan([LocalPackage], {}, HashedScope(t, Bindings), None);
    later := ReadCoreAt(later, proc, half, d, t, h);
    later := EditAt(later, WithScan(proc, half.(core := core)), d, t, h, u);
    later := ScanScopeAt(later, proc, half.(core := core), d, u, h + [u]);
  }

  // --- a prepare that builds its first language ---

  datatype Plan = Plan(job: Job, versions: map<Language, string>, built: map<Path, Item>)

  function FirstLanguage(plan: Plan): Language
    requires plan.job.languages != []
  {
    plan.job.languages[0]
  }

  function Version(plan: Plan): string
    requires plan.job.languages != []
  {
    VersionOf(plan.versions, FirstLanguage(plan))
  }

  function PackageOf(plan: Plan): map<Path, Content>
    requires plan.job.languages != []
  {
    Selection(plan.built, LayoutOf(FirstLanguage(plan), Version(plan)))
  }

  /** Some language is asked for, and the build of the first one passes the package check. */
  predicate Ready(plan: Plan) {
    plan.job.languages != [] && PackageFiles(plan.built, LayoutOf(FirstLanguage(plan), Version(plan))).Ok?
  }

  /** What the worktree shows at each read of it. */
  datatype Times = Times(key: Torn, dirty: Tree, clean: Tree, sameKey: Torn, copy: Tree, cleanAgain: Tree,
                         sameKeyAgain: Torn)

  function KeyAt(plan: Plan, times: Times): Key {
    TornKey(times.key, plan.job.tools)
  }

  /** Every check passes and every file to be copied exists. */
  predicate Passing(plan: Plan, times: Times) {
    && Clean(times.dirty) && Clean(times.clean) && TornKey(times.sameKey, plan.job.tools) == KeyAt(plan, times)
    && times.copy.index.Keys <= times.copy.work.Keys
    && Clean(times.cleanAgain) && TornKey(times.sameKeyAgain, plan.job.tools) == KeyAt(plan, times)
  }

  function CopyOf(t: Tree): Inputs {
    map n | n in t.index && n in t.work :: t.work[n]
  }

  function Files(t: Tree, names: set<InputName>): Inputs {
    map n | n in names && n in t.work :: t.work[n]
  }

  lemma ReachKeying(job: Job, t: Tree) returns (r: Run)
    ensures At(r, Keying(job, FRESH_SCAN), EMPTY_DISK, t, [t])
  {
    var d := EMPTY_DISK;
    r := AtNext(START, StartPrepare(0, job), WantOutput(job), d, TreeOf(INIT, job.root), [], []);
    r := EditAt(r, WantOutput(job), d, TreeOf(INIT, job.root), [], t);
    NoLocks(r, WantOutput(job), d, t, []);
    r := PrepareAt(r, WantOutput(job), d, t, [], AcquireOutput);
    r := PrepareAt(r, HaveOutput(job), d, t, [], StartKey);
  }

  lemma ComputeKeyAt(r: Run, job: Job, scan: KeyScan, d: Disk, t: Tree, h: seq<Tree>) returns (later: Run)
    requires At(r, Keying(job, scan), d, t, h) && ScanDone(scan)
    ensures At(later, HaveKey(job, KeyFrom(scan, job.tools)), d, t, h)
  {
    later := BecomeAt(r, Keying(job, scan), d, t, h, ComputeKey, HaveKey(job, KeyFrom(scan, job.tools)));
  }

  lemma ReachKey(job: Job, k: Torn) returns (r: Run)
    ensures At(r, HaveKey(job, TornKey(k, job.tools)), EMPTY_DISK, k.scripts, [k.bindings, k.scripts])
  {
    var scan := KeyScan([], {}, TornInputs(k), Some(k.bindings.core));
    r := ReachKeying(job, k.bindings);
    r := ScanTornAt(r, Keying(job, FRESH_SCAN), EMPTY_DISK, k, [k.bindings]);
    assert [k.bindings] + [k.scripts] == [k.bindings, k.scripts];
    r := ComputeKeyAt(r, job, scan, EMPTY_DISK, k.scripts, [k.bindings, k.scripts]);
  }

  lemma ReadVersionsAt(r: Run, job: Job, key: Key, v: map<Language, string>, t: Tree, h: seq<Tree>) returns (later: Run)
    requires At(r, HaveKey(job, key), EMPTY_DISK, t, h)
    ensures At(later, Deciding(job, key, v), EMPTY_DISK, t, h)
  {
    later := BecomeAt(r, HaveKey(job, key), EMPTY_DISK, t, h, ReadVersions(v), Deciding(job, key, v));
  }

  lemma DecideAt(r: Run, job: Job, key: Key, v: map<Language, string>, t: Tree, h: seq<Tree>) returns (later: Run)
    requires At(r, Deciding(job, key, v), EMPTY_DISK, t, h) && Clean(t)
    ensures At(later, WantKey(job, key, v), EMPTY_DISK, t, h)
  {
    later := BecomeAt(r, Deciding(job, key, v), EMPTY_DISK, t, h, Decide(false), WantKey(job, key, v));
  }

  lemma AcquireKeyAt(r: Run, job: Job, key: Key, v: map<Language, string>, t: Tree, h: seq<Tree>) returns (later: Run)
    requires At(r, WantKey(job, key, v), EMPTY_DISK, t, h)
    ensures At(later, Rechecking(job, key, v), EMPTY_DISK, t, h)
  {
    NoLocks(r, WantKey(job, key, v), EMPTY_DISK, t, h);
    later := PrepareAt(r, WantKey(job, key, v), EMPTY_DISK, t, h, AcquireKey);
  }

  lemma TakeLock(r: Run, job: Job, key: Key, v: map<Language, string>, t: Tree, h: seq<Tree>, u: Tree) returns (later: Run)
    requires At(r, HaveKey(job, key), EMPTY_DISK, t, h) && h != [] && Clean(u)
    ensures At(later, Rechecking(job, key, v), EMPTY_DISK, u, h + [u])
  {
    later := EditAt(r, HaveKey(job, key), EMPTY_DISK, t, h, u);
    later := ReadVersionsAt(later, job, key, v, u, h + [u]);
    later := DecideAt(later, job, key, v, u, h + [u]);
    later := AcquireKeyAt(later, job, key, v, u, h + [u]);
  }

  lemma RecheckCleanAt(r: Run, job: Job, key: Key, v: map<Language, string>, t: Tree, h: seq<Tree>) returns (later: Run)
    requires At(r, Rechecking(job, key, v), EMPTY_DISK, t, h) && Clean(t) && h != []
    ensures At(later, Rechecked(job, key, v, |h|, FRESH_SCAN), EMPTY_DISK, t, h)
  {
    later := BecomeAt(r, Rechecking(job, key, v), EMPTY_DISK, t, h, RecheckClean, Rechecked(job, key, v, |h|, FRESH_SCAN));
  }

  lemma RecheckKeyAt(r: Run, job: Job, key: Key, v: map<Language, string>, n: nat, scan: KeyScan, t: Tree, h: seq<Tree>) returns (later: Run)
    requires At(r, Rechecked(job, key, v, n, scan), EMPTY_DISK, t, h) && ScanDone(scan) && KeyFrom(scan, job.tools) == key
    ensures At(later, Holding(job, key, v, n, job.languages, NextLanguage), EMPTY_DISK, t, h)
  {
    later := BecomeAt(r, Rechecked(job, key, v, n, scan), EMPTY_DISK, t, h, RecheckKey,
             Holding(job, key, v, n, job.languages, NextLanguage));
  }

  lemma RecheckCleanOn(r: Run, job: Job, key: Key, v: map<Language, string>, t: Tree, h: seq<Tree>, c: Tree)
    returns (later: Run)
    requires At(r, Rechecking(job, key, v), EMPTY_DISK, t, h) && h != [] && Clean(c)
    ensures At(later, Rechecked(job, key, v, |h| + 1, FRESH_SCAN), EMPTY_DISK, c, h + [c])
  {
    later := EditAt(r, Rechecking(job, key, v), EMPTY_DISK, t, h, c);
    later := RecheckCleanAt(later, job, key, v, c, h + [c]);
  }

  lemma RecheckKeyOn(r: Run, job: Job, key: Key, v: map<Language, string>, n: nat, t: Tree, h: seq<Tree>, k: Torn)
    returns (later: Run)
    requires At(r, Rechecked(job, key, v, n, FRESH_SCAN), EMPTY_DISK, t, h) && h != [] && TornKey(k, job.tools) == key
    ensures At(later, Holding(job, key, v, n, job.languages, NextLanguage), EMPTY_DISK, k.scripts,
               h + [k.bindings] + [k.scripts])
  {
    var rechecked := Rechecked(job, key, v, n, FRESH_SCAN);
    later := EditAt(r, rechecked, EMPTY_DISK, t, h, k.bindings);
    later := ScanTornAt(later, rechecked, EMPTY_DISK, k, h + [k.bindings]);
    later := RecheckKeyAt(later, job, key, v, n, KeyScan([], {}, TornInputs(k), Some(k.bindings.core)), k.scripts,
                          h + [k.bindings] + [k.scripts]);
  }

  /** The clean check and the key check under the lock, on trees of their own. */
  lemma RecheckBoth(r: Run, job: Job, key: Key, v: map<Language, string>, t: Tree, h: seq<Tree>, c: Tree, k: Torn)
    returns (later: Run)
    requires At(r, Rechecking(job, key, v), EMPTY_DISK, t, h) && h != [] && Clean(c) && TornKey(k, job.tools) == key
    ensures At(later, Holding(job, key, v, |h| + 1, job.languages, NextLanguage), EMPTY_DISK, k.scripts,
               h + [c] + [k.bindings] + [k.scripts])
  {
    later := RecheckCleanOn(r, job, key, v, t, h, c);
    later := RecheckKeyOn(later, job, key, v, |h| + 1, c, h + [c], k);
  }

  function With(proc: Process, work: Work): Process
    requires proc.Holding?
  {
    proc.(work := work)
  }

  lemma PickMissing(r: Run, b: Process, t: Tree, h: seq<Tree>) returns (later: Run)
    requires b.Holding? && b.left != [] && At(r, With(b, NextLanguage), EMPTY_DISK, t, h)
    ensures At(later, With(b, Copying([Bindings, LocalPackage], {}, map[])), EMPTY_DISK, t, h)
  {
    later := BecomeAt(r, With(b, NextLanguage), EMPTY_DISK, t, h, PickLanguage, With(b, Copying([Bindings, LocalPackage], {}, map[])));
  }

  lemma CopyOne(r: Run, b: Process, scopes: seq<Scope>, names: set<InputName>, copied: Inputs, d: Disk, t: Tree,
                h: seq<Tree>, n: InputName) returns (later: Run)
    requires b.Holding? && At(r, With(b, Copying(scopes, names, copied)), d, t, h) && n in names && n in t.work
    ensures At(later, With(b, Copying(scopes, names - {n}, copied[n := t.work[n]])), d, t, h)
  {
    later := BecomeAt(r, With(b, Copying(scopes, names, copied)), d, t, h, CopyFile(n),
             With(b, Copying(scopes, names - {n}, copied[n := t.work[n]])));
  }

  lemma FilesStep(t: Tree, names: set<InputName>, copied: Inputs, n: InputName)
    requires n in names && n in t.work
    ensures copied[n := t.work[n]] + Files(t, names - {n}) == copied + Files(t, names)
  {
  }

  lemma CopyNames(r: Run, b: Process, scopes: seq<Scope>, names: set<InputName>, copied: Inputs, d: Disk, t: Tree,
                  h: seq<Tree>) returns (later: Run)
    requires b.Holding? && At(r, With(b, Copying(scopes, names, copied)), d, t, h) && names <= t.work.Keys
    ensures At(later, With(b, Copying(scopes, {}, copied + Files(t, names))), d, t, h)
    decreases |names|
  {
    if names == {} {
      later := r;
      assert copied + Files(t, names) == copied;
    } else {
      var n :| n in names;
      later := CopyOne(r, b, scopes, names, copied, d, t, h, n);
      later := CopyNames(later, b, scopes, names - {n}, copied[n := t.work[n]], d, t, h);
      FilesStep(t, names, copied, n);
    }
  }

  lemma ListScopeAt(r: Run, b: Process, scopes: seq<Scope>, copied: Inputs, d: Disk, t: Tree, h: seq<Tree>) returns (later: Run)
    requires b.Holding? && At(r, With(b, Copying(scopes, {}, copied)), d, t, h) && scopes != []
    ensures var listed := set n | n in t.index && n.scope == scopes[0];
      At(later, With(b, Copying(scopes[1..], listed, copied)), d, t, h)
  {
    var listed := set n | n in t.index && n.scope == scopes[0];
    later := BecomeAt(r, With(b, Copying(scopes, {}, copied)), d, t, h, ListScope, With(b, Copying(scopes[1..], listed, copied)));
  }

  lemma CopyScope(r: Run, b: Process, scopes: seq<Scope>, copied: Inputs, d: Disk, t: Tree, h: seq<Tree>)
    returns (later: Run)
    requires b.Holding? && At(r, With(b, Copying(scopes, {}, copied)), d, t, h) && t.index.Keys <= t.work.Keys
    requires scopes != []
    ensures var listed := set n | n in t.index && n.scope == scopes[0];
      At(later, With(b, Copying(scopes[1..], {}, copied + Files(t, listed))), d, t, h)
  {
    var listed := set n | n in t.index && n.scope == scopes[0];
    later := ListScopeAt(r, b, scopes, copied, d, t, h);
    later := CopyNames(later, b, scopes[1..], listed, copied, d, t, h);
  }

  lemma ScopesMakeTheCopy(t: Tree)
    ensures map[] + Files(t, set n | n in t.index && n.scope == Bindings)
              + Files(t, set n | n in t.index && n.scope == LocalPackage) == CopyOf(t)
  {
    assert forall n :: n in t.index ==> n.scope == Bindings || n.scope == LocalPackage;
  }

  lemma CopyBoth(r: Run, b: Process, d: Disk, t: Tree, h: seq<Tree>) returns (later: Run)
    requires b.Holding? && At(r, With(b, Copying([Bindings, LocalPackage], {}, map[])), d, t, h)
    requires t.index.Keys <= t.work.Keys
    ensures At(later, With(b, Copying([], {}, CopyOf(t))), d, t, h)
  {
    later := CopyScope(r, b, [Bindings, LocalPackage], map[], d, t, h);
    var copied := map[] + Files(t, set n | n in t.index && n.scope == Bindings);
    assert [Bindings, LocalPackage][1..] == [LocalPackage] && [LocalPackage][1..] == [];
    later := CopyScope(later, b, [LocalPackage], copied, d, t, h);
    ScopesMakeTheCopy(t);
  }

  lemma BuildAt(r: Run, b: Process, l: Language, copied: Inputs, built: map<Path, Item>, d: Disk, t: Tree, h: seq<Tree>) returns (later: Run)
    requires b.Holding? && b.left != [] && b.left[0] == l && At(r, With(b, Copying([], {}, copied)), d, t, h)
    requires PackageFiles(built, LayoutOf(l, VersionOf(b.versions, l))).Ok?
    ensures At(later, With(b, Staged(StagedEntry(built, l, VersionOf(b.versions, l), copied))), d, t, h)
  {
    later := BecomeAt(r, With(b, Copying([], {}, copied)), d, t, h, Build(built),
             With(b, Staged(StagedEntry(built, l, VersionOf(b.versions, l), copied))));
  }

  /** The source copy on one tree, and the build from it. */
  lemma CopyAndBuild(r: Run, b: Process, l: Language, built: map<Path, Item>, t: Tree, h: seq<Tree>, u: Tree)
    returns (later: Run)
    requires b.Holding? && b.left != [] && b.left[0] == l && At(r, With(b, NextLanguage), EMPTY_DISK, t, h) && h != []
    requires u.index.Keys <= u.work.Keys && PackageFiles(built, LayoutOf(l, VersionOf(b.versions, l))).Ok?
    ensures At(later, With(b, Staged(StagedEntry(built, l, VersionOf(b.versions, l), CopyOf(u)))), EMPTY_DISK, u, h + [u])
  {
    later := PickMissing(r, b, t, h);
    later := EditAt(later, With(b, Copying([Bindings, LocalPackage], {}, map[])), EMPTY_DISK, t, h, u);
    later := CopyBoth(later, b, EMPTY_DISK, u, h + [u]);
    later := BuildAt(later, b, l, CopyOf(u), built, EMPTY_DISK, u, h + [u]);
  }

  lemma CheckCleanAt(r: Run, b: Process, entry: Package, d: Disk, t: Tree, h: seq<Tree>) returns (later: Run)
    requires b.Holding? && At(r, With(b, Staged(entry)), d, t, h) && h != [] && Clean(t)
    ensures At(later, With(b, StagedClean(entry, |h|, FRESH_SCAN)), d, t, h)
  {
    later := BecomeAt(r, With(b, Staged(entry)), d, t, h, CheckClean, With(b, StagedClean(entry, |h|, FRESH_SCAN)));
  }

  lemma CheckKeyAt(r: Run, b: Process, entry: Package, again: nat, scan: KeyScan, d: Disk, t: Tree, h: seq<Tree>) returns (later: Run)
    requires b.Holding? && At(r, With(b, StagedClean(entry, again, scan)), d, t, h)
    requires ScanDone(scan) && KeyFrom(scan, b.job.tools) == b.key
    ensures At(later, With(b, Checked(entry)), d, t, h)
  {
    later := BecomeAt(r, With(b, StagedClean(entry, again, scan)), d, t, h, CheckKey, With(b, Checked(entry)));
  }

  /** The clean check and the key check after the build, on trees of their own. */
  lemma CheckBoth(r: Run, b: Process, entry: Package, d: Disk, t: Tree, h: seq<Tree>, c: Tree, k: Torn)
    returns (later: Run)
    requires b.Holding? && At(r, With(b, Staged(entry)), d, t, h) && h != []
    requires Clean(c) && TornKey(k, b.job.tools) == b.key
    ensures At(later, With(b, Checked(entry)), d, k.scripts, h + [c] + [k.bindings] + [k.scripts])
  {
    var n, scan := |h| + 1, KeyScan([], {}, TornInputs(k), Some(k.bindings.core));
    later := EditAt(r, With(b, Staged(entry)), d, t, h, c);
    later := CheckCleanAt(later, b, entry, d, c, h + [c]);
    var staged := With(b, StagedClean(entry, n, FRESH_SCAN));
    later := EditAt(later, staged, d, c, h + [c], k.bindings);
    later := ScanTornAt(later, staged, d, k, h + [c] + [k.bindings]);
    later := CheckKeyAt(later, b, entry, n, scan, d, k.scripts, h + [c] + [k.bindings] + [k.scripts]);
  }

  lemma PublishAt(r: Run, b: Process, l: Language, entry: Package, t: Tree, h: seq<Tree>) returns (later: Run)
    requires b.Holding? && b.left != [] && b.left[0] == l && At(r, With(b, Checked(entry)), EMPTY_DISK, t, h)
    ensures At(later, With(b, Verifying), Disk(map[Slot(b.key, l) := entry], {}, map[]), t, h)
  {
    later := PrepareAt(r, With(b, Checked(entry)), EMPTY_DISK, t, h, Publish(Slot(b.key, l)));
  }

  // --- the whole prepare ---

  function Busy(plan: Plan, times: Times): Process {
    Holding(plan.job, KeyAt(plan, times), plan.versions, 4, plan.job.languages, NextLanguage)
  }

  function EntryOf(plan: Plan, times: Times): Package
    requires Ready(plan)
  {
    StagedEntry(plan.built, FirstLanguage(plan), Version(plan), CopyOf(times.copy))
  }

  function SlotOf(plan: Plan, times: Times): Slot
    requires plan.job.languages != []
  {
    Slot(KeyAt(plan, times), FirstLanguage(plan))
  }

  /** The trees shown up to the check under the lock, and all of them. */
  function Before(times: Times): seq<Tree> {
    [times.key.bindings, times.key.scripts, times.dirty, times.clean, times.sameKey.bindings, times.sameKey.scripts]
  }

  function History(times: Times): seq<Tree> {
    Before(times) + [times.copy] + [times.cleanAgain] + [times.sameKeyAgain.bindings] + [times.sameKeyAgain.scripts]
  }

  lemma ReachHolding(plan: Plan, times: Times) returns (r: Run)
    requires Ready(plan) && Passing(plan, times)
    ensures At(r, Busy(plan, times), EMPTY_DISK, times.sameKey.scripts, Before(times))
  {
    var job, key, v := plan.job, KeyAt(plan, times), plan.versions;
    var h := [times.key.bindings, times.key.scripts];
    r := ReachKey(job, times.key);
    r := TakeLock(r, job, key, v, times.key.scripts, h, times.dirty);
    r := RecheckBoth(r, job, key, v, times.dirty, h + [times.dirty], times.clean, times.sameKey);
    BeforeIs(times);
  }

  lemma BeforeIs(times: Times)
    ensures [times.key.bindings, times.key.scripts] + [times.dirty] + [times.clean] + [times.sameKey.bindings]
              + [times.sameKey.scripts] == Before(times)
  {
  }

  /** Whatever trees a worktree shows at the reads of a `prepare`, if the checks pass on them
      there is a run that publishes the package of its first language, built from the tree
      shown at the copy. */
  lemma AnyPassingTimesPublish(plan: Plan, times: Times) returns (r: Run)
    requires Ready(plan) && Passing(plan, times)
    ensures At(r, With(Busy(plan, times), Verifying), Disk(map[SlotOf(plan, times) := EntryOf(plan, times)], {}, map[]),
               times.sameKeyAgain.scripts, History(times))
    ensures EntryOf(plan, times).builtFrom == CopyOf(times.copy)
  {
    var b, l, entry := Busy(plan, times), FirstLanguage(plan), EntryOf(plan, times);
    r := ReachHolding(plan, times);
    assert b.left != [] && b.left[0] == l && With(b, NextLanguage) == b;
    r := CopyAndBuild(r, b, l, plan.built, times.sameKey.scripts, Before(times), times.copy);
    r := CheckBoth(r, b, entry, EMPTY_DISK, times.copy, Before(times) + [times.copy], times.cleanAgain, times.sameKeyAgain);
    r := PublishAt(r, b, l, entry, times.sameKeyAgain.scripts, History(times));
  }
}
