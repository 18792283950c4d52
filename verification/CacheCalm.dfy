/** A `prepare` whose worktree stays as it is: which errors are left. */
module CacheCalm {
  import opened Options
  import opened PackageLayout
  import opened InputTrees
  import opened CacheModel
  import opened CacheLocks
  import opened CacheSafety
  import opened CacheDecisions

  // --- a key computed from one tree ---

  /** The names listed so far are names of the tree, those read so far have its values, and
      every other name of the tree is in a scope still to be listed. */
  ghost predicate ScanOfTree(k: KeyScan, t: Tree) {
    && k.names <= Listed(t)
    && (forall n :: n in k.read ==> n in Listed(t) && k.read[n] == Observe(t.work, n))
    && (forall n :: n in Listed(t) ==> n in k.read || n in k.names || n.scope in k.scopes)
    && (k.core.Some? ==> k.core.value == t.core)
  }

  lemma FreshScanOfTree(t: Tree)
    ensures ScanOfTree(FRESH_SCAN, t)
  {
    forall n | n in Listed(t) ensures n.scope in FRESH_SCAN.scopes {
      match n.scope
      case Bindings => assert FRESH_SCAN.scopes[0] == n.scope;
      case LocalPackage => assert FRESH_SCAN.scopes[1] == n.scope;
    }
  }

  lemma ListNextOfTree(k: KeyScan, t: Tree)
    requires ScanOfTree(k, t) && CanListNext(k)
    ensures ScanOfTree(ListNext(k, t), t)
  {
    assert k.scopes == [k.scopes[0]] + k.scopes[1..];
  }

  lemma ReadNameOfTree(k: KeyScan, t: Tree, n: InputName)
    requires ScanOfTree(k, t) && n in k.names
    ensures ScanOfTree(ReadName(k, t, n), t)
  {
  }

  lemma DoneScanIsKey(k: KeyScan, t: Tree, tools: string)
    requires ScanOfTree(k, t) && ScanDone(k)
    ensures KeyFrom(k, tools) == KeyOf(t, tools)
  {
    assert k.read.Keys == Hashed(t).Keys;
    assert k.read == Hashed(t);
  }

  // --- a prepare on one tree ---

  predicate HasKey(proc: Process) {
    proc.HaveKey? || proc.Deciding? || Shares(proc)
  }

  /** What the process has read is the given tree, and it shares only a clean one. */
  ghost predicate Calm(proc: Process, t: Tree) {
    && IsPrepare(proc) && !proc.WantOutput? && !proc.HaveOutput?
    && (ScanOf(proc).Some? ==> ScanOfTree(ScanOf(proc).value, t))
    && (HasKey(proc) ==> proc.key == KeyOf(t, proc.job.tools))
    && (Shares(proc) ==> Clean(t))
    && (proc.Holding? && proc.work.Copying? ==> proc.work.names <= t.index.Keys)
  }

  lemma WithScanCalm(proc: Process, k: KeyScan, t: Tree)
    requires Calm(proc, t) && ScanOf(proc).Some? && ScanOfTree(k, t)
    ensures Calm(WithScan(proc, k), t)
  {
  }

  lemma ScanStepCalm(s: State, p: Pid, step: PrepareStep)
    requires p in s.procs && EnabledPrepare(s, p, step) && ScanStep(step) && Calm(s.procs[p], TreeOf(s, s.procs[p].job.root))
    ensures Calm(PrepareEffect(s, p, step).next, TreeOf(s, s.procs[p].job.root))
  {
    var k, t := ScanOf(s.procs[p]).value, TreeOf(s, s.procs[p].job.root);
    match step
    case ListKeyScope =>
      ListNextOfTree(k, t);
      WithScanCalm(s.procs[p], ListNext(k, t), t);
    case ReadKeyInput(n) =>
      ReadNameOfTree(k, t, n);
      WithScanCalm(s.procs[p], ReadName(k, t, n), t);
    case ReadKeyCore => WithScanCalm(s.procs[p], k.(core := Some(t.core)), t);
  }

  lemma EarlyStepCalm(s: State, p: Pid, step: PrepareStep)
    requires p in s.procs && EnabledPrepare(s, p, step) && EarlyStep(step) && !PrepareEffect(s, p, step).End?
    requires step.StartKey? || Calm(s.procs[p], TreeOf(s, s.procs[p].job.root))
    ensures Calm(PrepareEffect(s, p, step).next, TreeOf(s, s.procs[p].job.root))
  {
    FreshScanOfTree(TreeOf(s, s.procs[p].job.root));
    if step.ComputeKey? { DoneScanIsKey(s.procs[p].scan, TreeOf(s, s.procs[p].job.root), s.procs[p].job.tools); }
  }

  /** A holder that goes on with other work stays calm. */
  lemma NewWorkCalm(proc: Process, next: Process, t: Tree)
    requires Calm(proc, t) && proc.Holding? && next.Holding? && next.job == proc.job && next.key == proc.key
    requires next.work.Copying? ==> next.work.names <= t.index.Keys
    requires next.work.StagedClean? ==> ScanOfTree(next.work.scan, t)
    ensures Calm(next, t)
  {
  }

  lemma CopyStepShape(s: State, p: Pid, step: PrepareStep)
    requires p in s.procs && EnabledPrepare(s, p, step) && CopyStep(step)
    ensures var proc, next := s.procs[p], PrepareEffect(s, p, step).next;
      && proc.Holding? && next.Holding? && next.job == proc.job && next.key == proc.key && !next.work.StagedClean?
      && (next.work.Copying? ==>
            next.work.names <= TreeOf(s, proc.job.root).index.Keys || (proc.work.Copying? && next.work.names <= proc.work.names))
  {
  }

  lemma CopyStepCalm(s: State, p: Pid, step: PrepareStep)
    requires p in s.procs && EnabledPrepare(s, p, step) && CopyStep(step)
    requires Calm(s.procs[p], TreeOf(s, s.procs[p].job.root))
    ensures Calm(PrepareEffect(s, p, step).next, TreeOf(s, s.procs[p].job.root))
  {
    CopyStepShape(s, p, step);
    NewWorkCalm(s.procs[p], PrepareEffect(s, p, step).next, TreeOf(s, s.procs[p].job.root));
  }

  lemma OtherStepShape(s: State, p: Pid, step: PrepareStep)
    requires p in s.procs && EnabledPrepare(s, p, step) && (BuildStep(step) || LinkStep(step)) && !PrepareEffect(s, p, step).End?
    ensures var proc, next := s.procs[p], PrepareEffect(s, p, step).next;
      && proc.Holding? && next.Holding? && next.job == proc.job && next.key == proc.key && !next.work.Copying?
      && (next.work.StagedClean? ==> next.work.scan == FRESH_SCAN)
  {
  }

  lemma OtherStepCalm(s: State, p: Pid, step: PrepareStep)
    requires p in s.procs && EnabledPrepare(s, p, step) && (BuildStep(step) || LinkStep(step)) && !PrepareEffect(s, p, step).End?
    requires Calm(s.procs[p], TreeOf(s, s.procs[p].job.root))
    ensures Calm(PrepareEffect(s, p, step).next, TreeOf(s, s.procs[p].job.root))
  {
    OtherStepShape(s, p, step);
    FreshScanOfTree(TreeOf(s, s.procs[p].job.root));
    NewWorkCalm(s.procs[p], PrepareEffect(s, p, step).next, TreeOf(s, s.procs[p].job.root));
  }

  lemma PrepareCalm(s: State, p: Pid, step: PrepareStep)
    requires p in s.procs && EnabledPrepare(s, p, step) && !PrepareEffect(s, p, step).End?
    requires step.StartKey? || Calm(s.procs[p], TreeOf(s, s.procs[p].job.root))
    ensures Calm(PrepareEffect(s, p, step).next, TreeOf(s, s.procs[p].job.root))
  {
    if EarlyStep(step) {
      EarlyStepCalm(s, p, step);
    } else if ScanStep(step) {
      ScanStepCalm(s, p, step);
    } else if CopyStep(step) {
      CopyStepCalm(s, p, step);
    } else {
      OtherStepCalm(s, p, step);
    }
  }

  // --- along a run ---

  predicate Edits(e: Event, root: Root) {
    e.Edit? && e.root == root
  }

  lemma TreeStays(s: State, e: Event, root: Root)
    requires LocksAgree(s) && Enabled(s, e) && !Edits(e, root)
    ensures TreeOf(Apply(s, e), root) == TreeOf(s, root)
  {
    match e
    case Prepare(p, step) =>
      PrepareFits(s, p, step);
      CommitIsLocal(s.(seen := PrepareSeen(s, p, step)), p, PrepareEffect(s, p, step), PrepareDisk(s, p, step));
    case Prune(p, step) =>
      PruneFits(s, p, step);
      CommitIsLocal(s, p, PruneEffect(s, p, step), PruneDisk(s, p, step));
    case _ =>
  }

  /** The process is calm in this state of the run. */
  ghost predicate CalmAt(r: Run, i: nat, p: Pid)
    requires i < |r.states|
  {
    p in r.states[i].procs && IsPrepare(r.states[i].procs[p])
    && Calm(r.states[i].procs[p], TreeOf(r.states[i], r.states[i].procs[p].job.root))
  }

  lemma OwnStepCalm(r: Run, i: nat, p: Pid)
    requires Valid(r) && i < |r.events| && p in r.states[i].procs && p in r.states[i + 1].procs && IsPrepare(r.states[i].procs[p])
    requires r.events[i].Prepare? && r.events[i].p == p && (r.events[i].prepare.StartKey? || CalmAt(r, i, p))
    ensures CalmAt(r, i + 1, p) && r.states[i + 1].procs[p].job == r.states[i].procs[p].job
  {
    var s, e := r.states[i], r.events[i];
    assert StepAt(r, i);
    LocksAlwaysAgree(r, i);
    PrepareMovesIt(s, p, e.prepare);
    PrepareCalm(s, p, e.prepare);
    JobStays(s, p, e.prepare);
    TreeStays(s, e, s.procs[p].job.root);
  }

  lemma CalmNext(r: Run, i: nat, p: Pid)
    requires Valid(r) && i < |r.events| && CalmAt(r, i, p) && p in r.states[i + 1].procs
    requires !Edits(r.events[i], r.states[i].procs[p].job.root)
    ensures CalmAt(r, i + 1, p) && r.states[i + 1].procs[p].job == r.states[i].procs[p].job
  {
    var s, e := r.states[i], r.events[i];
    assert StepAt(r, i);
    LocksAlwaysAgree(r, i);
    if !By(e, p) {
      OthersLeaveIt(s, e, p);
      TreeStays(s, e, s.procs[p].job.root);
    } else if e.Prepare? {
      OwnStepCalm(r, i, p);
    }
  }

  /** The worktree is not edited between the two moments. */
  predicate Unedited(r: Run, from: nat, to: nat, root: Root) {
    forall i :: from <= i < to && i < |r.events| ==> !Edits(r.events[i], root)
  }

  lemma {:induction false} StaysCalm(r: Run, from: nat, i: nat, p: Pid, root: Root)
    requires Valid(r) && from < i < |r.states| && r.events[from] == Prepare(p, StartKey) && Alive(r, from, i, p)
    requires IsPrepare(r.states[from].procs[p]) && r.states[from].procs[p].job.root == root && Unedited(r, from, i, root)
    ensures CalmAt(r, i, p) && r.states[i].procs[p].job.root == root
    decreases i
  {
    if i == from + 1 {
      OwnStepCalm(r, from, p);
    } else {
      StaysCalm(r, from, i - 1, p, root);
      CalmNext(r, i - 1, p);
    }
  }

  /** The build or its package check failed, or the published directory is being removed or
      was built for another version. */
  predicate OwnCause(d: Disk, proc: Process) {
    && proc.Holding? && proc.left != []
    && match proc.work
       case Copying(scopes, names, _) => scopes == [] && names == {}
       case Verifying =>
         var slot := Slot(proc.key, proc.left[0]);
         && slot in d.cache
         && (slot in d.torn
             || (d.cache[slot].marker.Some? && d.cache[slot].marker.value.version != VersionOf(proc.versions, proc.left[0])))
       case _ => false
  }

  lemma VerifyCause(d: Disk, slot: Slot, version: string)
    requires CacheOk(d) && slot in d.cache
    ensures Verify(d.cache[slot], slot.language, version)
       <==> slot !in d.torn && d.cache[slot].marker.Some? && d.cache[slot].marker.value.version == version
  {
    if slot in d.torn { DamagedFailsVerify(d.cache[slot], slot.language, version); }
  }

  lemma CalmRaise(s: State, p: Pid)
    requires Safe(s) && p in s.procs && IsPrepare(s.procs[p]) && Raises(s, s.procs[p])
    requires Calm(s.procs[p], TreeOf(s, s.procs[p].job.root)) && InLoop(s.procs[p])
    ensures OwnCause(s.disk, s.procs[p])
  {
    var proc := s.procs[p];
    var t := TreeOf(s, proc.job.root);
    assert HolderOk(s.disk, proc);
    if ScanOf(proc).Some? && ScanDone(ScanOf(proc).value) { DoneScanIsKey(ScanOf(proc).value, t, proc.job.tools); }
    if proc.Holding? && proc.work.Verifying? && proc.left != [] {
      VerifyCause(s.disk, Slot(proc.key, proc.left[0]), VersionOf(proc.versions, proc.left[0]));
    }
  }

  /** While nobody edits its worktree, from the start of its key on and whatever other
      processes do, a `prepare` stops with an error only when its build or package check
      fails, or when it finds a directory that is being removed or was built for another
      version: never because of changed inputs, a missing file or a taken name. */
  lemma OnlyOwnCauses(r: Run, from: nat, i: nat, p: Pid)
    requires Valid(r) && from < i < |r.events| && r.events[from] == Prepare(p, StartKey) && Alive(r, from, i, p)
    requires IsPrepare(r.states[from].procs[p]) && Unedited(r, from, i, r.states[from].procs[p].job.root)
    requires r.events[i] == Prepare(p, Raise)
    ensures OwnCause(r.states[i].disk, r.states[i].procs[p])
  {
    StaysCalm(r, from, i, p, r.states[from].procs[p].job.root);
    AlwaysSafe(r, i);
    assert StepAt(r, i);
    assert HoldsItsLocks(r.states[i].procs[p], p, r.states[i].outputLocks, r.states[i].keyLocks);
    CalmRaise(r.states[i], p);
  }
}
