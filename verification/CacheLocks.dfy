/** Mutual exclusion and absence of deadlock in the cache protocol. */
module CacheLocks {
  import opened Options
  import opened PackageLayout
  import opened InputTrees
  import opened CacheModel

  function HeldKey(proc: Process): Option<Key> {
    if proc.Rechecking? || proc.Rechecked? || proc.Holding? || proc.Locked? || proc.Scanning? || proc.Removing?
    then Some(proc.key) else None
  }

  function HeldOutput(proc: Process): Option<Output> {
    if proc.WantOutput? || proc.NextVictim? || proc.Locked? || proc.Scanning? || proc.Removing?
    then None else Some(proc.job.output)
  }

  /** Inside the language loop there is a current language, and a key computation has read
      the version before it lists its last scope. */
  predicate InLoop(proc: Process) {
    && (proc.Holding? && !proc.work.NextLanguage? ==> proc.left != [])
    && (ScanOf(proc).Some? && ScanOf(proc).value.scopes == [] ==> ScanOf(proc).value.core.Some?)
  }

  /** The process holds what its program point says. */
  predicate HoldsItsLocks(proc: Process, p: Pid, outputLocks: map<Output, Pid>, keyLocks: map<Key, Pid>) {
    && InLoop(proc)
    && (HeldKey(proc).Some? ==> HeldKey(proc).value in keyLocks && keyLocks[HeldKey(proc).value] == p)
    && (HeldOutput(proc).Some? ==> HeldOutput(proc).value in outputLocks && outputLocks[HeldOutput(proc).value] == p)
  }

  /** The lock tables say exactly which process holds what. */
  ghost predicate Agree(procs: map<Pid, Process>, outputLocks: map<Output, Pid>, keyLocks: map<Key, Pid>) {
    && (forall p :: p in procs ==> HoldsItsLocks(procs[p], p, outputLocks, keyLocks))
    && (forall k :: k in keyLocks ==> keyLocks[k] in procs && HeldKey(procs[keyLocks[k]]) == Some(k))
    && (forall o :: o in outputLocks ==> outputLocks[o] in procs && HeldOutput(procs[outputLocks[o]]) == Some(o))
  }

  ghost predicate LocksAgree(s: State) {
    Agree(s.procs, s.outputLocks, s.keyLocks)
  }

  /** What an effect must respect for the lock tables to stay right. */
  predicate Fits(s: State, p: Pid, effect: Effect)
    requires p in s.procs
  {
    var proc := s.procs[p];
    match effect
    case Become(next) =>
      InLoop(next) && HeldKey(next) == HeldKey(proc) && HeldOutput(next) == HeldOutput(proc)
    case TakeOutput(next) =>
      && next.HaveOutput? && next.job.output !in s.outputLocks
      && HeldKey(proc).None? && HeldOutput(proc).None?
    case TakeKey(next) =>
      && (next.Rechecking? || next.Locked?) && next.key !in s.keyLocks
      && HeldKey(proc).None? && HeldOutput(next) == HeldOutput(proc)
    case ReleaseKey(next) => next.NextVictim? && (proc.Scanning? || proc.Removing?)
    case End => true
  }

  /** The steps of a key computation. */
  predicate ScanStep(step: PrepareStep) {
    step.ListKeyScope? || step.ReadKeyInput? || step.ReadKeyCore?
  }

  lemma ScanStepFits(s: State, p: Pid, step: PrepareStep)
    requires p in s.procs && InLoop(s.procs[p]) && EnabledPrepare(s, p, step) && ScanStep(step)
    ensures Fits(s, p, PrepareEffect(s, p, step))
  {
  }

  /** The other steps up to the check under the key lock. */
  predicate EarlyStep(step: PrepareStep) {
    || step.AcquireOutput? || step.StartKey? || step.ComputeKey? || step.ReadVersions? || step.Decide?
    || step.LinkPrivate? || step.FinishPrivate? || step.AcquireKey? || step.RecheckClean? || step.RecheckKey?
  }

  lemma EarlyStepFits(s: State, p: Pid, step: PrepareStep)
    requires p in s.procs && EnabledPrepare(s, p, step) && EarlyStep(step)
    ensures Fits(s, p, PrepareEffect(s, p, step))
  {
  }

  /** The steps from the choice of a language to the end of the source copy. */
  predicate CopyStep(step: PrepareStep) {
    step.PickLanguage? || step.ListScope? || step.CopyFile?
  }

  lemma CopyStepFits(s: State, p: Pid, step: PrepareStep)
    requires p in s.procs && EnabledPrepare(s, p, step) && InLoop(s.procs[p]) && CopyStep(step)
    ensures Fits(s, p, PrepareEffect(s, p, step))
  {
  }

  /** The steps from the build to the publication. */
  predicate BuildStep(step: PrepareStep) {
    step.Build? || step.CheckClean? || step.CheckKey? || step.Publish?
  }

  lemma BuildStepFits(s: State, p: Pid, step: PrepareStep)
    requires p in s.procs && EnabledPrepare(s, p, step) && InLoop(s.procs[p]) && BuildStep(step)
    ensures Fits(s, p, PrepareEffect(s, p, step))
  {
  }

  /** The remaining steps: verify, link, finish, fail. */
  predicate LinkStep(step: PrepareStep) {
    !EarlyStep(step) && !ScanStep(step) && !CopyStep(step) && !BuildStep(step)
  }

  lemma LinkStepFits(s: State, p: Pid, step: PrepareStep)
    requires p in s.procs && EnabledPrepare(s, p, step) && LinkStep(step)
    ensures Fits(s, p, PrepareEffect(s, p, step))
  {
  }

  lemma PrepareFits(s: State, p: Pid, step: PrepareStep)
    requires p in s.procs && InLoop(s.procs[p]) && EnabledPrepare(s, p, step)
    ensures Fits(s, p, PrepareEffect(s, p, step))
  {
    if EarlyStep(step) {
      EarlyStepFits(s, p, step);
    } else if ScanStep(step) {
      ScanStepFits(s, p, step);
    } else if CopyStep(step) {
      CopyStepFits(s, p, step);
    } else if BuildStep(step) {
      BuildStepFits(s, p, step);
    } else {
      LinkStepFits(s, p, step);
    }
  }

  /** A step of `prepare` leaves a `prepare` with the same job. */
  lemma JobStays(s: State, p: Pid, step: PrepareStep)
    requires p in s.procs && EnabledPrepare(s, p, step) && !PrepareEffect(s, p, step).End?
    ensures IsPrepare(s.procs[p]) && IsPrepare(PrepareEffect(s, p, step).next)
    ensures PrepareEffect(s, p, step).next.job == s.procs[p].job
  {
  }

  /** A step of `prune` leaves a `prune`. */
  lemma PruneStays(s: State, p: Pid, step: PruneStep)
    requires p in s.procs && EnabledPrune(s, p, step) && !PruneEffect(s, p, step).End?
    ensures !IsPrepare(PruneEffect(s, p, step).next)
  {
  }

  /** A step of one process sets the disk and leaves the other processes alone. */
  lemma CommitIsLocal(s: State, p: Pid, effect: Effect, d: Disk)
    requires p in s.procs && Fits(s, p, effect)
    ensures var t := Commit(s, p, effect, d);
      && t.disk == d && t.trees == s.trees
      && t.seen == (if effect.End? then s.seen - {p} else s.seen)
      && t.procs == if effect.End? then s.procs - {p} else s.procs[p := effect.next]
  {
  }

  lemma HoldersDiffer(s: State, p: Pid, q: Pid)
    requires LocksAgree(s) && p in s.procs && q in s.procs && p != q && HeldKey(s.procs[q]).Some?
    ensures HeldKey(s.procs[q]) != HeldKey(s.procs[p])
  {
    assert HoldsItsLocks(s.procs[p], p, s.outputLocks, s.keyLocks);
    assert HoldsItsLocks(s.procs[q], q, s.outputLocks, s.keyLocks);
  }

  lemma PruneFits(s: State, p: Pid, step: PruneStep)
    requires p in s.procs && EnabledPrune(s, p, step)
    ensures Fits(s, p, PruneEffect(s, p, step))
  {
  }

  lemma BecomeKeepsLocks(procs: map<Pid, Process>, ol: map<Output, Pid>, kl: map<Key, Pid>, p: Pid, next: Process)
    requires Agree(procs, ol, kl) && p in procs && InLoop(next)
    requires HeldKey(next) == HeldKey(procs[p]) && HeldOutput(next) == HeldOutput(procs[p])
    ensures Agree(procs[p := next], ol, kl)
  {
  }

  lemma TakeOutputKeepsLocks(procs: map<Pid, Process>, ol: map<Output, Pid>, kl: map<Key, Pid>, p: Pid, next: Process)
    requires Agree(procs, ol, kl) && p in procs && HeldKey(procs[p]).None? && HeldOutput(procs[p]).None?
    requires next.HaveOutput? && next.job.output !in ol
    ensures Agree(procs[p := next], ol[next.job.output := p], kl)
  {
  }

  lemma TakeKeyKeepsLocks(procs: map<Pid, Process>, ol: map<Output, Pid>, kl: map<Key, Pid>, p: Pid, next: Process)
    requires Agree(procs, ol, kl) && p in procs && HeldKey(procs[p]).None? && HeldOutput(next) == HeldOutput(procs[p])
    requires (next.Rechecking? || next.Locked?) && next.key !in kl
    ensures Agree(procs[p := next], ol, kl[next.key := p])
  {
  }

  lemma ReleaseKeepsLocks(procs: map<Pid, Process>, ol: map<Output, Pid>, kl: map<Key, Pid>, p: Pid, next: Process)
    requires Agree(procs, ol, kl) && p in procs && next.NextVictim? && (procs[p].Scanning? || procs[p].Removing?)
    ensures Agree(procs[p := next], ol, kl - {procs[p].key})
  {
  }

  lemma LeaveKeepsLocks(s: State, p: Pid)
    requires LocksAgree(s) && p in s.procs
    ensures LocksAgree(Leave(s, p))
  {
  }

  lemma CommitKeepsLocks(s: State, p: Pid, effect: Effect, disk: Disk)
    requires LocksAgree(s) && p in s.procs && Fits(s, p, effect)
    ensures LocksAgree(Commit(s, p, effect, disk))
  {
    match effect
    case Become(next) => BecomeKeepsLocks(s.procs, s.outputLocks, s.keyLocks, p, next);
    case TakeOutput(next) => TakeOutputKeepsLocks(s.procs, s.outputLocks, s.keyLocks, p, next);
    case TakeKey(next) => TakeKeyKeepsLocks(s.procs, s.outputLocks, s.keyLocks, p, next);
    case ReleaseKey(next) => ReleaseKeepsLocks(s.procs, s.outputLocks, s.keyLocks, p, next);
    case End => LeaveKeepsLocks(s.(disk := disk), p);
  }

  lemma StartKeepsLocks(s: State, p: Pid, proc: Process)
    requires LocksAgree(s) && p !in s.procs && (proc.WantOutput? || proc.NextVictim?)
    ensures LocksAgree(s.(procs := s.procs[p := proc]))
  {
  }

  lemma StepKeepsLocks(s: State, e: Event)
    requires LocksAgree(s) && Enabled(s, e)
    ensures LocksAgree(Apply(s, e))
  {
    match e
    case StartPrepare(p, job) => StartKeepsLocks(s, p, WantOutput(job));
    case StartPrune(p, victims) => StartKeepsLocks(s, p, NextVictim(victims));
    case Prepare(p, step) =>
      PrepareFits(s, p, step);
      CommitKeepsLocks(s.(seen := PrepareSeen(s, p, step)), p, PrepareEffect(s, p, step), PrepareDisk(s, p, step));
    case Prune(p, step) =>
      PruneFits(s, p, step);
      CommitKeepsLocks(s, p, PruneEffect(s, p, step), PruneDisk(s, p, step));
    case Crash(p) => CommitKeepsLocks(s, p, End, s.disk);
    case _ =>
  }

  lemma LocksAgreeNext(r: Run, i: nat)
    requires Valid(r) && i < |r.events| && LocksAgree(r.states[i])
    ensures LocksAgree(r.states[i + 1])
  {
    assert StepAt(r, i);
    StepKeepsLocks(r.states[i], r.events[i]);
  }

  lemma {:induction false} LocksAlwaysAgree(r: Run, i: nat)
    requires Valid(r) && i < |r.states|
    ensures LocksAgree(r.states[i])
    decreases i
  {
    if i > 0 {
      LocksAlwaysAgree(r, i - 1);
      LocksAgreeNext(r, i - 1);
    }
  }

  /** Never two processes at once in the part guarded by a key lock or an output lock. */
  lemma MutualExclusion(r: Run, i: nat, p: Pid, q: Pid)
    requires Valid(r) && i < |r.states| && p in r.states[i].procs && q in r.states[i].procs && p != q
    ensures var procs := r.states[i].procs;
      && (HeldKey(procs[p]).Some? ==> HeldKey(procs[p]) != HeldKey(procs[q]))
      && (HeldOutput(procs[p]).Some? ==> HeldOutput(procs[p]) != HeldOutput(procs[q]))
  {
    LocksAlwaysAgree(r, i);
  }

  /** Waiting for a lock somebody else holds. */
  predicate Blocked(s: State, p: Pid)
    requires p in s.procs
  {
    || (s.procs[p].WantOutput? && s.procs[p].job.output in s.outputLocks)
    || (s.procs[p].WantKey? && s.procs[p].key in s.keyLocks)
  }

  /** The process that holds the lock another one waits for. */
  function Blocker(s: State, p: Pid): Pid
    requires p in s.procs && Blocked(s, p)
  {
    if s.procs[p].WantOutput? then s.outputLocks[s.procs[p].job.output] else s.keyLocks[s.procs[p].key]
  }

  /** A step the process itself takes: neither a crash nor the environment. */
  predicate OwnStep(e: Event) {
    e.Prepare? || e.Prune?
  }

  /** A key computation goes on until it is done. */
  lemma ScanCanStep(s: State, p: Pid) returns (e: Event)
    requires p in s.procs && InLoop(s.procs[p]) && ScanOf(s.procs[p]).Some? && !ScanDone(ScanOf(s.procs[p]).value)
    ensures OwnStep(e) && e.p == p && Enabled(s, e)
  {
    var scan := ScanOf(s.procs[p]).value;
    if scan.names != {} {
      var n :| n in scan.names;
      e := Prepare(p, ReadKeyInput(n));
    } else {
      e := Prepare(p, if CanReadCore(scan) then ReadKeyCore else ListKeyScope);
    }
  }

  /** A walk of one output goes on until it is done. */
  lemma WalkCanStep(s: State, p: Pid) returns (e: Event)
    requires p in s.procs && s.procs[p].Scanning? && s.procs[p].at.Some?
    ensures OwnStep(e) && e.p == p && Enabled(s, e)
  {
    var walk := s.procs[p].at.value;
    if walk.dirs != {} {
      var dir :| dir in walk.dirs;
      e := Prune(p, ListDirectory(dir));
    } else if walk.names != {} {
      var n :| n in walk.names;
      e := Prune(p, LookAt(n));
    } else {
      e := Prune(p, FinishOutput);
    }
  }

  lemma RemoverCanStep(s: State, p: Pid) returns (e: Event)
    requires p in s.procs && s.procs[p].Removing?
    ensures OwnStep(e) && e.p == p && Enabled(s, e)
  {
    if slot :| slot in s.disk.cache && slot.key == s.procs[p].key {
      if s.disk.cache[slot].marker.Some? {
        e := Prune(p, RemoveMarker(slot));
      } else if s.disk.cache[slot].files != map[] {
        var n :| n in s.disk.cache[slot].files;
        e := Prune(p, RemoveFile(slot, n));
      } else {
        e := Prune(p, RemoveDirectory(slot));
      }
    } else {
      e := Prune(p, FinishRemoval);
    }
  }

  lemma PrunerCanStep(s: State, p: Pid) returns (e: Event)
    requires p in s.procs && !IsPrepare(s.procs[p])
    ensures OwnStep(e) && e.p == p && Enabled(s, e)
  {
    match s.procs[p]
    case NextVictim(victims) => e := Prune(p, if victims == [] then FinishPrune else TryKey);
    case Locked(_, _) => e := Prune(p, ListRoots({}));
    case Scanning(_, _, outputs, at, _) =>
      if at.Some? {
        e := WalkCanStep(s, p);
      } else if outputs != {} {
        var o :| o in outputs;
        e := Prune(p, OpenOutput(o));
      } else {
        e := Prune(p, FinishScan);
      }
    case Removing(_, _) => e := RemoverCanStep(s, p);
  }

  /** Every process that does not wait for a lock has a step to take. */
  lemma UnblockedCanStep(s: State, p: Pid) returns (e: Event)
    requires p in s.procs && InLoop(s.procs[p]) && !Blocked(s, p)
    ensures OwnStep(e) && e.p == p && Enabled(s, e)
  {
    if !IsPrepare(s.procs[p]) {
      e := PrunerCanStep(s, p);
    } else if s.procs[p].Holding? {
      e := HolderCanStep(s, p);
    } else {
      e := StarterCanStep(s, p);
    }
  }

  lemma StarterCanStep(s: State, p: Pid) returns (e: Event)
    requires p in s.procs && InLoop(s.procs[p]) && !Blocked(s, p) && IsPrepare(s.procs[p]) && !s.procs[p].Holding?
    ensures OwnStep(e) && e.p == p && Enabled(s, e)
  {
    match s.procs[p]
    case WantOutput(_) => e := Prepare(p, AcquireOutput);
    case HaveOutput(_) => e := Prepare(p, StartKey);
    case Keying(_, scan) =>
      if ScanDone(scan) { e := Prepare(p, ComputeKey); } else { e := ScanCanStep(s, p); }
    case HaveKey(_, _) => e := Prepare(p, ReadVersions(map[]));
    case Deciding(_, _, _) => e := Prepare(p, Decide(false));
    case PrivateBuild(_) => e := Prepare(p, FinishPrivate);
    case WantKey(_, _, _) => e := Prepare(p, AcquireKey);
    case Rechecking(job, key, _) => e := Prepare(p, if Clean(TreeOf(s, job.root)) then RecheckClean else Raise);
    case Rechecked(job, key, _, _, scan) =>
      if ScanDone(scan) {
        e := Prepare(p, if KeyFrom(scan, job.tools) == key then RecheckKey else Raise);
      } else {
        e := ScanCanStep(s, p);
      }
  }

  lemma BuilderCanStep(s: State, p: Pid) returns (e: Event)
    requires p in s.procs && s.procs[p].Holding? && InLoop(s.procs[p])
    requires s.procs[p].work.Copying? || s.procs[p].work.Staged? || s.procs[p].work.StagedClean?
    ensures OwnStep(e) && e.p == p && Enabled(s, e)
  {
    var Holding(job, key, _, _, _, work) := s.procs[p];
    match work
    case Copying(scopes, names, _) =>
      if names != {} {
        var n :| n in names;
        e := Prepare(p, if n in TreeOf(s, job.root).work then CopyFile(n) else Raise);
      } else {
        e := Prepare(p, if scopes == [] then Raise else ListScope);
      }
    case Staged(_) => e := Prepare(p, if Clean(TreeOf(s, job.root)) then CheckClean else Raise);
    case StagedClean(_, _, scan) =>
      if ScanDone(scan) {
        e := Prepare(p, if KeyFrom(scan, job.tools) == key then CheckKey else Raise);
      } else {
        e := ScanCanStep(s, p);
      }
  }

  lemma LinkerCanStep(s: State, p: Pid) returns (e: Event)
    requires p in s.procs && s.procs[p].Holding? && InLoop(s.procs[p])
    requires s.procs[p].work.Verifying? || s.procs[p].work.Linking?
    ensures OwnStep(e) && e.p == p && Enabled(s, e)
  {
    var Holding(_, key, versions, _, left, work) := s.procs[p];
    match work
    case Verifying =>
      var slot := Slot(key, left[0]);
      e := Prepare(p, if slot in s.disk.cache && Verify(s.disk.cache[slot], left[0], VersionOf(versions, left[0]))
                      then VerifyEntry else Raise);
    case Linking(records) =>
      if records == map[] {
        e := Prepare(p, FinishLanguage);
      } else {
        var n :| n in records;
        e := Prepare(p, LinkFile(n));
      }
  }

  lemma HolderCanStep(s: State, p: Pid) returns (e: Event)
    requires p in s.procs && s.procs[p].Holding? && InLoop(s.procs[p])
    ensures OwnStep(e) && e.p == p && Enabled(s, e)
  {
    var Holding(_, key, _, _, left, work) := s.procs[p];
    match work
    case NextLanguage => e := Prepare(p, if left == [] then FinishPrepare else PickLanguage);
    case Checked(_) =>
      e := Prepare(p, if Slot(key, left[0]) in s.disk.cache then Raise else Publish(Slot(key, left[0])));
    case Verifying => e := LinkerCanStep(s, p);
    case Linking(_) => e := LinkerCanStep(s, p);
    case _ => e := BuilderCanStep(s, p);
  }

  /** The lock protocol cannot deadlock: whoever waits for an output lock waits for a
      `prepare` that either runs or waits for a key lock, and whoever holds a key lock
      waits for nothing. So the process that can step is the waiting one itself, the
      holder of what it waits for, or the holder of the key lock that holder waits for. */
  lemma NoDeadlock(r: Run, i: nat, p: Pid) returns (e: Event)
    requires Valid(r) && i < |r.states| && p in r.states[i].procs
    ensures OwnStep(e) && Enabled(r.states[i], e)
    ensures e.p in r.states[i].procs && !Blocked(r.states[i], e.p)
    ensures !Blocked(r.states[i], p) ==> e.p == p
    ensures Blocked(r.states[i], p) ==>
      var s, q := r.states[i], Blocker(r.states[i], p);
      && q in s.procs
      && (if Blocked(s, q) then s.procs[p].WantOutput? && s.procs[q].WantKey? && e.p == Blocker(s, q) else e.p == q)
  {
    LocksAlwaysAgree(r, i);
    var s := r.states[i];
    var q := p;
    if Blocked(s, q) { q := Blocker(s, q); }
    if Blocked(s, q) { q := Blocker(s, q); }
    e := UnblockedCanStep(s, q);
  }
}
