/** The tracked inputs of a worktree and the cache key computed from them. */
module InputTrees {
  import opened Options

  datatype Scope = Bindings | LocalPackage

  datatype InputName = InputName(scope: Scope, path: string)
  datatype InputRecord = SymbolicLink(target: string) | PlainFile(executable: bool, content: string)

  type Inputs = map<InputName, InputRecord>

  /** The two hashed scopes of a worktree as git sees them: the commit, the index, and
      the files on disk that are tracked or not ignored. `core` is the version file
      outside the scopes that also enters the key. */
  datatype Tree = Tree(head: Inputs, index: Inputs, work: Inputs, core: string)

  /** `git status` prints nothing for the scopes. */
  predicate Clean(t: Tree) {
    t.head == t.index == t.work
  }

  datatype Observed = Present(record: InputRecord) | Deleted

  function Observe(files: Inputs, n: InputName): Observed {
    if n in files then Present(files[n]) else Deleted
  }

  /** The tracked and untracked names git lists. */
  function Listed(t: Tree): set<InputName> {
    t.index.Keys + t.work.Keys
  }

  /** What `tree_hash` reads of a tree that does not change: every listed name, with the
      bytes on disk. */
  function Hashed(t: Tree): map<InputName, Observed> {
    map n | n in Listed(t) :: Observe(t.work, n)
  }

  function AsHashed(copied: Inputs): map<InputName, Observed> {
    map n | n in copied :: Observe(copied, n)
  }

  /** The cache key, taken to be injective in the fields it is computed from. */
  datatype Key = Key(inputs: map<InputName, Observed>, core: string, tools: string)

  function KeyOf(t: Tree, tools: string): Key {
    Key(Hashed(t), t.core, tools)
  }

  /** The part of a tree that the key is computed from. */
  datatype TreeContent = TreeContent(inputs: map<InputName, Observed>, core: string)

  function ContentOf(t: Tree): TreeContent {
    TreeContent(Hashed(t), t.core)
  }

  /** Clean inputs can be read back from what is hashed for them. */
  lemma AsHashedIsInjective(a: Inputs, b: Inputs)
    requires AsHashed(a) == AsHashed(b)
    ensures a == b
  {
    assert a.Keys == AsHashed(a).Keys == AsHashed(b).Keys == b.Keys;
    forall n | n in a ensures a[n] == b[n] {
      assert AsHashed(a)[n] == AsHashed(b)[n];
    }
  }

  /** A tree that hashes like its own index holds that index. */
  lemma HashesLikeIndex(t: Tree)
    requires Hashed(t) == AsHashed(t.index)
    ensures t.work == t.index
  {
    assert Hashed(t).Keys == t.index.Keys;
    forall n | n in t.index ensures n in t.work && t.work[n] == t.index[n] {
      assert Hashed(t)[n] == AsHashed(t.index)[n];
    }
    assert t.work.Keys <= Hashed(t).Keys;
  }

  lemma CleanHash(t: Tree)
    requires Clean(t)
    ensures Hashed(t) == AsHashed(t.work) == AsHashed(t.index)
  {
    assert Listed(t) == t.work.Keys;
  }

  /** Two clean trees with one key are one tree. */
  lemma CleanTreesWithEqualKeys(t: Tree, u: Tree, tools: string)
    requires Clean(t) && Clean(u) && KeyOf(t, tools) == KeyOf(u, tools)
    ensures t == u
  {
    CleanHash(t);
    CleanHash(u);
    AsHashedIsInjective(t.work, u.work);
  }

  // --- a key computed name by name ---

  /** `cache_key` in progress: one scope after the other is listed and then read name by
      name, and the version outside the scopes is read between the two. */
  datatype KeyScan = KeyScan(scopes: seq<Scope>, names: set<InputName>, read: map<InputName, Observed>,
                             core: Option<string>)

  const FRESH_SCAN := KeyScan([Bindings, LocalPackage], {}, map[], None)

  predicate ScanDone(k: KeyScan) {
    k.scopes == [] && k.names == {} && k.core.Some?
  }

  function KeyFrom(k: KeyScan, tools: string): Key
    requires ScanDone(k)
  {
    Key(k.read, k.core.value, tools)
  }

  predicate CanListNext(k: KeyScan) {
    k.scopes != [] && k.names == {} && (|k.scopes| == 1 ==> k.core.Some?)
  }

  function ListNext(k: KeyScan, t: Tree): KeyScan
    requires CanListNext(k)
  {
    k.(scopes := k.scopes[1..], names := set n | n in Listed(t) && n.scope == k.scopes[0])
  }

  function ReadName(k: KeyScan, t: Tree, n: InputName): KeyScan {
    k.(names := k.names - {n}, read := k.read[n := Observe(t.work, n)])
  }

  predicate CanReadCore(k: KeyScan) {
    |k.scopes| == 1 && k.names == {} && k.core.None?
  }
}

/** The shared package cache as a step machine: any number of `prepare` and `prune`
    processes, their file locks, the cache directory, the links in every output
    directory, and the worktrees whose inputs may be edited at any moment, also while a key
    is being computed or an output is being walked. */
module CacheModel {
  import opened Options
  import opened PackageLayout
  import opened InputTrees

  type Pid = nat
  type Root = nat
  type Output = nat

  /** One published directory, `key/language`. */
  datatype Slot = Slot(key: Key, language: Language)
  type Package = Entry<Inputs>

  datatype LinkPath = LinkPath(output: Output, name: Path)
  datatype Target = CacheFile(slot: Slot, name: Path) | PrivateFile

  datatype Job = Job(root: Root, output: Output, tools: string, languages: seq<Language>)

  /** What a `prepare` that holds both locks is doing for the first language left. */
  datatype Work =
    | NextLanguage
    | Copying(scopes: seq<Scope>, names: set<InputName>, copied: Inputs)
    | Staged(entry: Package)
    // `again` counts the trees seen when the inputs were found clean after the build
    | StagedClean(entry: Package, again: nat, scan: KeyScan)
    | Checked(entry: Package)
    | Verifying
    | Linking(records: map<Path, Digest>)

  datatype Process =
    // prepare
    | WantOutput(job: Job)
    | HaveOutput(job: Job)
    | Keying(job: Job, scan: KeyScan)
    | HaveKey(job: Job, key: Key)
    | Deciding(job: Job, key: Key, versions: map<Language, string>)
    | PrivateBuild(job: Job)
    | WantKey(job: Job, key: Key, versions: map<Language, string>)
    | Rechecking(job: Job, key: Key, versions: map<Language, string>)
    // `cleanAt` counts the trees seen when the inputs were found clean under the lock
    | Rechecked(job: Job, key: Key, versions: map<Language, string>, cleanAt: nat, scan: KeyScan)
    | Holding(job: Job, key: Key, versions: map<Language, string>, cleanAt: nat, left: seq<Language>, work: Work)
    // prune
    | NextVictim(victims: seq<Key>)
    | Locked(key: Key, victims: seq<Key>)
    | Scanning(key: Key, victims: seq<Key>, outputs: set<Output>, at: Option<Walk>, found: bool)
    | Removing(key: Key, victims: seq<Key>)

  /** One output directory being walked: the directories still to be listed, and the
      listed links still to be looked at. */
  datatype Walk = Walk(output: Output, dirs: set<Path>, names: set<Path>)

  /** What is on disk: the published directories, those a removal has started to
      empty, and the links in the output directories. */
  datatype Disk = Disk(cache: map<Slot, Package>, torn: set<Slot>, links: map<LinkPath, Target>)

  datatype State = State(
    procs: map<Pid, Process>,
    outputLocks: map<Output, Pid>,
    keyLocks: map<Key, Pid>,
    disk: Disk,
    trees: map<Root, Tree>,
    seen: map<Pid, seq<Tree>>)     // what a worktree has shown since a `prepare` began its key

  /** What a step does to its process and to the lock tables. */
  datatype Effect =
    | Become(next: Process)
    | TakeOutput(next: Process)
    | TakeKey(next: Process)
    | ReleaseKey(next: Process)
    | End

  /** The steps of `prepare`; `Raise` stands for its own error exits. */
  datatype PrepareStep =
    | AcquireOutput
    | StartKey
    | ListKeyScope
    | ReadKeyInput(input: InputName)
    | ReadKeyCore
    | ComputeKey
    | ReadVersions(versions: map<Language, string>)
    | Decide(customFlags: bool)
    | LinkPrivate(name: Path)
    | FinishPrivate
    | AcquireKey
    | RecheckClean
    | RecheckKey
    | PickLanguage
    | ListScope
    | CopyFile(input: InputName)
    | Build(built: map<Path, Item>)
    | CheckClean
    | CheckKey
    | Publish(slot: Slot)
    | VerifyEntry
    | LinkFile(name: Path)
    | FinishLanguage
    | FinishPrepare
    | Raise

  /** The steps of `prune`. The outputs it scans are those of its own worktree list and
      baseline; one that is not a directory when its turn comes is skipped. */
  datatype PruneStep =
    | TryKey
    | ListRoots(outputs: set<Output>)
    | OpenOutput(output: Output)
    | ListDirectory(dir: Path)
    | SkipOutput(output: Output)
    | LookAt(name: Path)
    | FinishOutput
    | FinishScan
    | RemoveFile(slot: Slot, name: Path)
    | RemoveMarker(slot: Slot)
    | RemoveDirectory(slot: Slot)
    | FinishRemoval
    | FinishPrune

  datatype Event =
    | StartPrepare(p: Pid, job: Job)
    | StartPrune(p: Pid, victims: seq<Key>)
    | Prepare(p: Pid, prepare: PrepareStep)
    | Prune(p: Pid, prune: PruneStep)
    // the environment
    | Crash(p: Pid)
    | Edit(root: Root, tree: Tree)
    | DropLink(path: LinkPath)

  const EMPTY_TREE := Tree(map[], map[], map[], "")
  const EMPTY_DISK := Disk(map[], {}, map[])
  const INIT := State(map[], map[], map[], EMPTY_DISK, map[], map[])

  function TreeOf(s: State, root: Root): Tree {
    if root in s.trees then s.trees[root] else EMPTY_TREE
  }

  function SeenBy(s: State, p: Pid): seq<Tree> {
    if p in s.seen then s.seen[p] else []
  }

  predicate IsPrepare(proc: Process) {
    !proc.NextVictim? && !proc.Locked? && !proc.Scanning? && !proc.Removing?
  }

  predicate WorksOn(proc: Process, root: Root) {
    IsPrepare(proc) && proc.job.root == root
  }

  function VersionOf(versions: map<Language, string>, l: Language): string {
    if l in versions then versions[l] else ""
  }

  /** The key computation a process is in, the first one or one of the two repeated ones. */
  function ScanOf(proc: Process): Option<KeyScan> {
    match proc
    case Keying(_, scan) => Some(scan)
    case Rechecked(_, _, _, _, scan) => Some(scan)
    case Holding(_, _, _, _, _, work) => if work.StagedClean? then Some(work.scan) else None
    case _ => None
  }

  function WithScan(proc: Process, scan: KeyScan): Process
    requires ScanOf(proc).Some?
  {
    match proc
    case Keying(job, _) => Keying(job, scan)
    case Rechecked(job, key, versions, cleanAt, _) => Rechecked(job, key, versions, cleanAt, scan)
    case Holding(job, key, versions, cleanAt, left, work) =>
      Holding(job, key, versions, cleanAt, left, StagedClean(work.entry, work.again, scan))
  }

  /** Links below the local build tree are not part of the scan. */
  predicate Scannable(name: Path) {
    name != [] && name[0] != "build"
  }

  predicate DirectlyIn(dir: Path, name: Path) {
    dir < name && |name| == |dir| + 1
  }

  predicate DeepIn(dir: Path, name: Path) {
    dir < name && |name| > |dir| + 1
  }

  /** The links in a directory. */
  function LinksIn(d: Disk, o: Output, dir: Path): set<Path> {
    set path | path in d.links && path.output == o && Scannable(path.name) && DirectlyIn(dir, path.name) :: path.name
  }

  /** The directories in a directory that lead to a link. */
  function DirsIn(d: Disk, o: Output, dir: Path): set<Path> {
    set path | path in d.links && path.output == o && Scannable(path.name) && DeepIn(dir, path.name)
      :: path.name[..|dir| + 1]
  }

  predicate LinksTo(d: Disk, path: LinkPath, key: Key) {
    path in d.links && d.links[path].CacheFile? && d.links[path].slot.key == key
  }

  predicate DigestMatches(d: Disk, slot: Slot, name: Path, digest: Digest) {
    slot in d.cache && name in d.cache[slot].files && Digest(d.cache[slot].files[name]) == digest
  }

  function Commit(s: State, p: Pid, effect: Effect, disk: Disk): State
    requires p in s.procs
    requires effect.TakeOutput? ==> effect.next.HaveOutput?
    requires effect.TakeKey? ==> effect.next.Rechecking? || effect.next.Locked?
    requires effect.ReleaseKey? ==> s.procs[p].Scanning? || s.procs[p].Removing?
  {
    match effect
    case Become(next) => s.(procs := s.procs[p := next], disk := disk)
    case TakeOutput(next) =>
      s.(procs := s.procs[p := next], outputLocks := s.outputLocks[next.job.output := p], disk := disk)
    case TakeKey(next) =>
      s.(procs := s.procs[p := next], keyLocks := s.keyLocks[next.key := p], disk := disk)
    case ReleaseKey(next) =>
      s.(procs := s.procs[p := next], keyLocks := s.keyLocks - {s.procs[p].key}, disk := disk)
    case End => Leave(s.(disk := disk), p)
  }

  /** A process that ends, in whatever way, loses every lock it held. */
  function Leave(s: State, p: Pid): State {
    s.(procs := s.procs - {p},
       seen := s.seen - {p},
       outputLocks := map o | o in s.outputLocks && s.outputLocks[o] != p :: s.outputLocks[o],
       keyLocks := map k | k in s.keyLocks && s.keyLocks[k] != p :: s.keyLocks[k])
  }

  /** The situations in which `prepare` stops with an error of its own. */
  predicate Raises(s: State, proc: Process) {
    match proc
    case Rechecking(job, _, _) => !Clean(TreeOf(s, job.root))
    case Rechecked(job, key, _, _, scan) => ScanDone(scan) && KeyFrom(scan, job.tools) != key
    case Holding(job, key, versions, _, left, work) =>
      (match work
       case Copying(scopes, names, _) =>
         // a listed file is gone, or the build or its package check fails
         (exists n :: n in names && n !in TreeOf(s, job.root).work) || (scopes == [] && names == {})
       case Staged(_) => !Clean(TreeOf(s, job.root))
       case StagedClean(_, _, scan) => ScanDone(scan) && KeyFrom(scan, job.tools) != key
       case Checked(_) => left != [] && Slot(key, left[0]) in s.disk.cache
       case Verifying =>
         left != [] && (Slot(key, left[0]) in s.disk.cache ==>
           !Verify(s.disk.cache[Slot(key, left[0])], left[0], VersionOf(versions, left[0])))
       case _ => false)
    case _ => false
  }

  predicate EnabledPrepare(s: State, p: Pid, e: PrepareStep)
    requires p in s.procs
  {
    var proc := s.procs[p];
    match e
    case AcquireOutput => proc.WantOutput? && proc.job.output !in s.outputLocks
    case StartKey => proc.HaveOutput?
    case ListKeyScope => ScanOf(proc).Some? && CanListNext(ScanOf(proc).value)
    case ReadKeyInput(n) => ScanOf(proc).Some? && n in ScanOf(proc).value.names
    case ReadKeyCore => ScanOf(proc).Some? && CanReadCore(ScanOf(proc).value)
    case ComputeKey => proc.Keying? && ScanDone(proc.scan)
    case ReadVersions(_) => proc.HaveKey?
    case Decide(_) => proc.Deciding?
    case LinkPrivate(_) => proc.PrivateBuild?
    case FinishPrivate => proc.PrivateBuild?
    case AcquireKey => proc.WantKey? && proc.key !in s.keyLocks
    case RecheckClean => proc.Rechecking? && Clean(TreeOf(s, proc.job.root))
    case RecheckKey => proc.Rechecked? && ScanDone(proc.scan) && KeyFrom(proc.scan, proc.job.tools) == proc.key
    case PickLanguage => proc.Holding? && proc.work.NextLanguage? && proc.left != []
    case ListScope =>
      proc.Holding? && proc.work.Copying? && proc.work.scopes != [] && proc.work.names == {}
    case CopyFile(n) =>
      && proc.Holding? && proc.work.Copying?
      && n in proc.work.names && n in TreeOf(s, proc.job.root).work
    case Build(built) =>
      && proc.Holding? && proc.left != [] && proc.work.Copying?
      && proc.work.scopes == [] && proc.work.names == {}
      && PackageFiles(built, LayoutOf(proc.left[0], VersionOf(proc.versions, proc.left[0]))).Ok?
    case CheckClean => proc.Holding? && proc.work.Staged? && Clean(TreeOf(s, proc.job.root))
    case CheckKey =>
      && proc.Holding? && proc.work.StagedClean?
      && ScanDone(proc.work.scan) && KeyFrom(proc.work.scan, proc.job.tools) == proc.key
    case Publish(slot) =>
      && proc.Holding? && proc.work.Checked? && proc.left != []
      && slot == Slot(proc.key, proc.left[0]) && slot !in s.disk.cache
    case VerifyEntry =>
      && proc.Holding? && proc.work.Verifying? && proc.left != []
      && Slot(proc.key, proc.left[0]) in s.disk.cache
      && Verify(s.disk.cache[Slot(proc.key, proc.left[0])], proc.left[0], VersionOf(proc.versions, proc.left[0]))
    case LinkFile(n) =>
      proc.Holding? && proc.work.Linking? && proc.left != [] && n in proc.work.records
    case FinishLanguage =>
      proc.Holding? && proc.work.Linking? && proc.left != [] && proc.work.records == map[]
    case FinishPrepare => proc.Holding? && proc.work.NextLanguage? && proc.left == []
    case Raise => Raises(s, proc)
  }

  function PrepareEffect(s: State, p: Pid, e: PrepareStep): Effect
    requires p in s.procs && EnabledPrepare(s, p, e)
  {
    var proc := s.procs[p];
    match e
    case AcquireOutput => TakeOutput(HaveOutput(proc.job))
    case StartKey => Become(Keying(proc.job, FRESH_SCAN))
    case ListKeyScope => Become(WithScan(proc, ListNext(ScanOf(proc).value, TreeOf(s, proc.job.root))))
    case ReadKeyInput(n) => Become(WithScan(proc, ReadName(ScanOf(proc).value, TreeOf(s, proc.job.root), n)))
    case ReadKeyCore => Become(WithScan(proc, ScanOf(proc).value.(core := Some(TreeOf(s, proc.job.root).core))))
    case ComputeKey => Become(HaveKey(proc.job, KeyFrom(proc.scan, proc.job.tools)))
    case ReadVersions(versions) => Become(Deciding(proc.job, proc.key, versions))
    case Decide(customFlags) =>
      if !Clean(TreeOf(s, proc.job.root)) || customFlags
      then Become(PrivateBuild(proc.job))
      else Become(WantKey(proc.job, proc.key, proc.versions))
    case LinkPrivate(_) => Become(proc)
    case FinishPrivate => End
    case AcquireKey => TakeKey(Rechecking(proc.job, proc.key, proc.versions))
    case RecheckClean => Become(Rechecked(proc.job, proc.key, proc.versions, |SeenBy(s, p)|, FRESH_SCAN))
    case RecheckKey =>
      Become(Holding(proc.job, proc.key, proc.versions, proc.cleanAt, proc.job.languages, NextLanguage))
    case PickLanguage =>
      Become(proc.(work := if Slot(proc.key, proc.left[0]) in s.disk.cache
                           then Verifying
                           else Copying([Bindings, LocalPackage], {}, map[])))
    case ListScope =>
      var index := TreeOf(s, proc.job.root).index;
      var listed := set n | n in index && n.scope == proc.work.scopes[0];
      Become(proc.(work := proc.work.(scopes := proc.work.scopes[1..], names := listed)))
    case CopyFile(n) =>
      Become(proc.(work := proc.work.(names := proc.work.names - {n},
                                      copied := proc.work.copied[n := TreeOf(s, proc.job.root).work[n]])))
    case Build(built) =>
      Become(proc.(work := Staged(
        StagedEntry(built, proc.left[0], VersionOf(proc.versions, proc.left[0]), proc.work.copied))))
    case CheckClean => Become(proc.(work := StagedClean(proc.work.entry, |SeenBy(s, p)|, FRESH_SCAN)))
    case CheckKey => Become(proc.(work := Checked(proc.work.entry)))
    case Publish(_) => Become(proc.(work := Verifying))
    case VerifyEntry =>
      Become(proc.(work := Linking(s.disk.cache[Slot(proc.key, proc.left[0])].marker.value.files)))
    case LinkFile(n) =>
      if DigestMatches(s.disk, Slot(proc.key, proc.left[0]), n, proc.work.records[n])
      then Become(proc.(work := Linking(proc.work.records - {n})))
      else End
    case FinishLanguage => Become(proc.(left := proc.left[1..], work := NextLanguage))
    case FinishPrepare => End
    case Raise => End
  }

  /** The staging directory after the build, the cleanup and the manifest. */
  function StagedEntry(built: map<Path, Item>, l: Language, version: string, copied: Inputs): Package
    requires PackageFiles(built, LayoutOf(l, version)).Ok?
  {
    var layout := LayoutOf(l, version);
    Entry(Selection(built, layout), Some(Manifest(version, PackageFiles(built, layout).value)), copied)
  }

  /** `rename` of the staging directory, and `replace` of a link; a link is in place
      before its digest is compared. */
  function PrepareDisk(s: State, p: Pid, e: PrepareStep): Disk
    requires p in s.procs && EnabledPrepare(s, p, e)
  {
    var proc, d := s.procs[p], s.disk;
    match e
    case LinkPrivate(name) => d.(links := d.links[LinkPath(proc.job.output, name) := PrivateFile])
    case Publish(slot) => d.(cache := d.cache[slot := proc.work.entry])
    case LinkFile(n) =>
      d.(links := d.links[LinkPath(proc.job.output, n) := CacheFile(Slot(proc.key, proc.left[0]), n)])
    case _ => d
  }

  predicate EnabledPrune(s: State, p: Pid, e: PruneStep)
    requires p in s.procs
  {
    var proc := s.procs[p];
    match e
    case TryKey => proc.NextVictim? && proc.victims != []
    case ListRoots(_) => proc.Locked?
    case OpenOutput(o) => proc.Scanning? && proc.at.None? && o in proc.outputs
    case ListDirectory(dir) => proc.Scanning? && proc.at.Some? && dir in proc.at.value.dirs
    case SkipOutput(o) => proc.Scanning? && proc.at.None? && o in proc.outputs
    case LookAt(n) => proc.Scanning? && proc.at.Some? && proc.at.value.dirs == {} && n in proc.at.value.names
    case FinishOutput => proc.Scanning? && proc.at.Some? && proc.at.value.dirs == {} && proc.at.value.names == {}
    case FinishScan => proc.Scanning? && proc.at.None? && proc.outputs == {}
    case RemoveFile(slot, n) =>
      proc.Removing? && slot.key == proc.key && slot in s.disk.cache && n in s.disk.cache[slot].files
    case RemoveMarker(slot) =>
      proc.Removing? && slot.key == proc.key && slot in s.disk.cache && s.disk.cache[slot].marker.Some?
    case RemoveDirectory(slot) =>
      && proc.Removing? && slot.key == proc.key && slot in s.disk.cache
      && s.disk.cache[slot].files == map[] && s.disk.cache[slot].marker.None?
    case FinishRemoval => proc.Removing? && forall slot :: slot in s.disk.cache ==> slot.key != proc.key
    case FinishPrune => proc.NextVictim? && proc.victims == []
  }

  /** One directory of the walk is listed: its links are kept for later, its directories
      are walked in turn. */
  function ListInto(d: Disk, walk: Walk, dir: Path): Walk {
    Walk(walk.output, walk.dirs - {dir} + DirsIn(d, walk.output, dir), walk.names + LinksIn(d, walk.output, dir))
  }

  function PruneEffect(s: State, p: Pid, e: PruneStep): Effect
    requires p in s.procs && EnabledPrune(s, p, e)
  {
    var proc := s.procs[p];
    match e
    case TryKey =>
      var key, rest := proc.victims[0], proc.victims[1..];
      if key in s.keyLocks then Become(NextVictim(rest)) else TakeKey(Locked(key, rest))
    case ListRoots(outputs) => Become(Scanning(proc.key, proc.victims, outputs, None, false))
    case OpenOutput(o) => Become(proc.(outputs := proc.outputs - {o}, at := Some(Walk(o, {[]}, {}))))
    case ListDirectory(dir) => Become(proc.(at := Some(ListInto(s.disk, proc.at.value, dir))))
    case SkipOutput(o) => Become(proc.(outputs := proc.outputs - {o}))
    case LookAt(n) =>
      Become(proc.(at := Some(proc.at.value.(names := proc.at.value.names - {n})),
                   found := proc.found || LinksTo(s.disk, LinkPath(proc.at.value.output, n), proc.key)))
    case FinishOutput => Become(proc.(at := None))
    case FinishScan =>
      if proc.found then ReleaseKey(NextVictim(proc.victims)) else Become(Removing(proc.key, proc.victims))
    case FinishRemoval => ReleaseKey(NextVictim(proc.victims))
    case FinishPrune => End
    case _ => Become(proc)
  }

  /** `rmtree`, one removal at a time and in any order. */
  function PruneDisk(s: State, p: Pid, e: PruneStep): Disk
    requires p in s.procs && EnabledPrune(s, p, e)
  {
    var d := s.disk;
    match e
    case RemoveFile(slot, n) =>
      d.(cache := d.cache[slot := d.cache[slot].(files := d.cache[slot].files - {n})], torn := d.torn + {slot})
    case RemoveMarker(slot) =>
      d.(cache := d.cache[slot := d.cache[slot].(marker := None)], torn := d.torn + {slot})
    case RemoveDirectory(slot) => d.(cache := d.cache - {slot}, torn := d.torn - {slot})
    case _ => d
  }

  /** What a `prepare` has seen of its worktree starts where it begins to compute the key. */
  function PrepareSeen(s: State, p: Pid, step: PrepareStep): map<Pid, seq<Tree>>
    requires p in s.procs && EnabledPrepare(s, p, step)
  {
    if step.StartKey? then s.seen[p := [TreeOf(s, s.procs[p].job.root)]] else s.seen
  }

  predicate Enabled(s: State, e: Event) {
    match e
    case StartPrepare(p, _) => p !in s.procs
    case StartPrune(p, _) => p !in s.procs
    case Edit(_, _) => true
    case DropLink(_) => true
    case Crash(p) => p in s.procs
    case Prepare(p, step) => p in s.procs && EnabledPrepare(s, p, step)
    case Prune(p, step) => p in s.procs && EnabledPrune(s, p, step)
  }

  function Apply(s: State, e: Event): State
    requires Enabled(s, e)
  {
    match e
    case StartPrepare(p, job) => s.(procs := s.procs[p := WantOutput(job)])
    case StartPrune(p, victims) => s.(procs := s.procs[p := NextVictim(victims)])
    case Edit(root, t) =>
      s.(trees := s.trees[root := t],
         seen := map p | p in s.seen ::
           if p in s.procs && WorksOn(s.procs[p], root) then s.seen[p] + [t] else s.seen[p])
    case DropLink(path) => s.(disk := s.disk.(links := s.disk.links - {path}))
    case Crash(p) => Leave(s, p)
    case Prepare(p, step) =>
      Commit(s.(seen := PrepareSeen(s, p, step)), p, PrepareEffect(s, p, step), PrepareDisk(s, p, step))
    case Prune(p, step) => Commit(s, p, PruneEffect(s, p, step), PruneDisk(s, p, step))
  }

  /** A run: events, and the states before, between and after them. */
  datatype Run = Run(events: seq<Event>, states: seq<State>)

  /** The event is enabled where it happens and leads to the next state. */
  predicate StepAt(r: Run, i: nat)
    requires i < |r.events| && |r.states| == |r.events| + 1
  {
    Enabled(r.states[i], r.events[i]) && r.states[i + 1] == Apply(r.states[i], r.events[i])
  }

  ghost predicate Valid(r: Run) {
    |r.states| == |r.events| + 1 && r.states[0] == INIT && forall i :: 0 <= i < |r.events| ==> StepAt(r, i)
  }

  function After(r: Run): State
    requires r.states != []
  {
    r.states[|r.states| - 1]
  }

  const START := Run([], [INIT])

  /** The run goes on by one event. */
  function Then(r: Run, e: Event): Run
    requires r.states != [] && Enabled(After(r), e)
  {
    Run(r.events + [e], r.states + [Apply(After(r), e)])
  }

  /** `later` goes on where `r` ends. */
  predicate Extends(r: Run, later: Run) {
    r.events <= later.events && r.states <= later.states
  }

  lemma ThenIsValid(r: Run, e: Event)
    requires Valid(r) && Enabled(After(r), e)
    ensures Valid(Then(r, e)) && After(Then(r, e)) == Apply(After(r), e) && Extends(r, Then(r, e))
  {
    var later := Then(r, e);
    forall i | 0 <= i < |later.events| ensures StepAt(later, i) {
      if i < |r.events| {
        assert StepAt(r, i);
        assert later.events[i] == r.events[i] && later.states[i] == r.states[i] && later.states[i + 1] == r.states[i + 1];
      }
    }
  }
}
