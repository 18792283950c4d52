/** What every run of the cache protocol keeps: published directories match their
    manifests until somebody removes them, and are never changed or linked after that. */
module CacheSafety {
  import opened Options
  import opened PackageLayout
  import opened InputTrees
  import opened CacheModel
  import opened CacheLocks

  /** A directory is whole until a removal has started on it. */
  ghost predicate CacheOk(d: Disk) {
    forall slot :: slot in d.cache ==>
      if slot in d.torn then Damaged(d.cache[slot]) else Intact(d.cache[slot], slot.language)
  }

  /** What a `prepare` that holds a key lock may rely on. */
  ghost predicate HolderOk(d: Disk, proc: Process) {
    match proc
    case Holding(_, key, _, _, left, work) =>
      left != [] ==>
        var slot := Slot(key, left[0]);
        && (work.Copying? || work.Staged? || work.StagedClean? || work.Checked? ==> slot !in d.cache)
        && (work.Staged? || work.StagedClean? || work.Checked? ==> Intact(work.entry, left[0]))
        && (work.Verifying? || work.Linking? ==> slot in d.cache)
        && (work.Linking? ==> slot !in d.torn)
        && (work.Linking? ==> forall n :: n in work.records ==> DigestMatches(d, slot, n, work.records[n]))
    case _ => true
  }

  ghost predicate HoldersOk(s: State) {
    forall p :: p in s.procs ==> HolderOk(s.disk, s.procs[p])
  }

  ghost predicate Safe(s: State) {
    && LocksAgree(s)
    && CacheOk(s.disk)
    && s.disk.torn <= s.disk.cache.Keys
    && HoldersOk(s)
  }

  /** A step changes directories of one key only, and adds links to that key only. */
  ghost predicate OnlyKey(d: Disk, d': Disk, key: Option<Key>) {
    && (forall slot: Slot :: Some(slot.key) != key ==>
          && (slot in d.cache <==> slot in d'.cache)
          && (slot in d.torn <==> slot in d'.torn)
          && (slot in d.cache ==> d.cache[slot] == d'.cache[slot]))
    && (forall path, k :: Some(k) != key && LinksTo(d', path, k) ==> LinksTo(d, path, k))
  }

  lemma PrepareOnlyKey(s: State, p: Pid, step: PrepareStep)
    requires p in s.procs && EnabledPrepare(s, p, step)
    ensures OnlyKey(s.disk, PrepareDisk(s, p, step), HeldKey(s.procs[p]))
  {
  }

  lemma PruneOnlyKey(s: State, p: Pid, step: PruneStep)
    requires p in s.procs && EnabledPrune(s, p, step)
    ensures OnlyKey(s.disk, PruneDisk(s, p, step), HeldKey(s.procs[p]))
  {
  }

  /** The holder of another key does not notice. */
  lemma OtherHolderOk(d: Disk, d': Disk, key: Option<Key>, proc: Process)
    requires HolderOk(d, proc) && OnlyKey(d, d', key)
    requires HeldKey(proc).Some? ==> HeldKey(proc) != key
    ensures HolderOk(d', proc)
  {
  }

  lemma StagedIsIntact(built: map<Path, Item>, l: Language, version: string, copied: Inputs)
    requires PackageFiles(built, LayoutOf(l, version)).Ok?
    ensures Intact(StagedEntry(built, l, version, copied), l)
  {
    SelectionKeepsPackageFiles(built, LayoutOf(l, version));
  }

  lemma VerifiedIsWhole(d: Disk, slot: Slot, version: string)
    requires CacheOk(d) && slot in d.cache && Verify(d.cache[slot], slot.language, version)
    ensures slot !in d.torn
    ensures forall n :: n in d.cache[slot].marker.value.files ==>
      DigestMatches(d, slot, n, d.cache[slot].marker.value.files[n])
  {
    if slot in d.torn {
      DamagedFailsVerify(d.cache[slot], slot.language, version);
    }
  }

  lemma BuildHolderOk(s: State, p: Pid, step: PrepareStep)
    requires Safe(s) && p in s.procs && EnabledPrepare(s, p, step) && (CopyStep(step) || BuildStep(step))
    ensures HolderOk(PrepareDisk(s, p, step), PrepareEffect(s, p, step).next)
  {
    var proc := s.procs[p];
    assert HolderOk(s.disk, proc);
    match step
    case Build(built) => StagedIsIntact(built, proc.left[0], VersionOf(proc.versions, proc.left[0]), proc.work.copied);
    case _ =>
  }

  lemma LinkHolderOk(s: State, p: Pid, step: PrepareStep)
    requires Safe(s) && p in s.procs && EnabledPrepare(s, p, step) && !PrepareEffect(s, p, step).End?
    requires !CopyStep(step) && !BuildStep(step)
    ensures HolderOk(PrepareDisk(s, p, step), PrepareEffect(s, p, step).next)
  {
    var proc := s.procs[p];
    assert HolderOk(s.disk, proc);
    match step
    case VerifyEntry =>
      VerifiedIsWhole(s.disk, Slot(proc.key, proc.left[0]), VersionOf(proc.versions, proc.left[0]));
    case _ =>
  }

  /** A `prepare` step keeps what its own process relies on. */
  lemma PrepareHolderOk(s: State, p: Pid, step: PrepareStep)
    requires Safe(s) && p in s.procs && EnabledPrepare(s, p, step) && !PrepareEffect(s, p, step).End?
    ensures HolderOk(PrepareDisk(s, p, step), PrepareEffect(s, p, step).next)
  {
    if CopyStep(step) || BuildStep(step) { BuildHolderOk(s, p, step); } else { LinkHolderOk(s, p, step); }
  }

  lemma PruneHolderOk(s: State, p: Pid, step: PruneStep)
    requires p in s.procs && EnabledPrune(s, p, step) && !PruneEffect(s, p, step).End?
    ensures HolderOk(PruneDisk(s, p, step), PruneEffect(s, p, step).next)
  {
  }

  lemma PublishKeepsCache(d: Disk, slot: Slot, entry: Package)
    requires CacheOk(d) && d.torn <= d.cache.Keys && slot !in d.cache && Intact(entry, slot.language)
    ensures CacheOk(d.(cache := d.cache[slot := entry]))
  {
  }

  lemma PrepareCacheOk(s: State, p: Pid, step: PrepareStep)
    requires Safe(s) && p in s.procs && EnabledPrepare(s, p, step)
    ensures CacheOk(PrepareDisk(s, p, step))
    ensures PrepareDisk(s, p, step).torn <= PrepareDisk(s, p, step).cache.Keys
  {
    assert HolderOk(s.disk, s.procs[p]);
    match step
    case Publish(slot) => PublishKeepsCache(s.disk, slot, s.procs[p].work.entry);
    case _ =>
  }

  lemma RemovalDamages(entry: Package, l: Language, n: Path)
    requires n in entry.files && (Damaged(entry) || Intact(entry, l))
    ensures Damaged(entry.(files := entry.files - {n})) && Damaged(entry.(marker := None))
  {
    if entry.marker.Some? && !Damaged(entry) {
      assert n in Digests(entry.files);
    }
  }

  lemma DamageKeepsCache(d: Disk, slot: Slot, entry: Package)
    requires CacheOk(d) && slot in d.cache && Damaged(entry)
    ensures CacheOk(d.(cache := d.cache[slot := entry], torn := d.torn + {slot}))
  {
  }

  lemma PruneCacheOk(s: State, p: Pid, step: PruneStep)
    requires Safe(s) && p in s.procs && EnabledPrune(s, p, step)
    ensures CacheOk(PruneDisk(s, p, step))
    ensures PruneDisk(s, p, step).torn <= PruneDisk(s, p, step).cache.Keys
  {
    var d := s.disk;
    match step
    case RemoveFile(slot, n) =>
      RemovalDamages(d.cache[slot], slot.language, n);
      DamageKeepsCache(d, slot, d.cache[slot].(files := d.cache[slot].files - {n}));
    case RemoveMarker(slot) => DamageKeepsCache(d, slot, d.cache[slot].(marker := None));
    case _ =>
  }

  /** Whatever one process does, every process still finds what it relies on. */
  lemma CommitKeepsHolders(s: State, p: Pid, effect: Effect, d: Disk)
    requires Safe(s) && p in s.procs && Fits(s, p, effect) && OnlyKey(s.disk, d, HeldKey(s.procs[p]))
    requires !effect.End? ==> HolderOk(d, effect.next)
    ensures HoldersOk(Commit(s, p, effect, d)) && LocksAgree(Commit(s, p, effect, d))
  {
    CommitKeepsLocks(s, p, effect, d);
    CommitIsLocal(s, p, effect, d);
    var t := Commit(s, p, effect, d);
    forall q | q in t.procs
      ensures HolderOk(t.disk, t.procs[q])
    {
      if q != p {
        if HeldKey(s.procs[q]).Some? { HoldersDiffer(s, p, q); }
        OtherHolderOk(s.disk, d, HeldKey(s.procs[p]), s.procs[q]);
      }
    }
  }

  /** A change of the process and of the disk that no process has to fear. */
  ghost predicate Harmless(s: State, p: Pid, effect: Effect, d: Disk) {
    && p in s.procs && Fits(s, p, effect) && OnlyKey(s.disk, d, HeldKey(s.procs[p]))
    && (!effect.End? ==> HolderOk(d, effect.next))
    && CacheOk(d) && d.torn <= d.cache.Keys
  }

  lemma CommitKeepsSafe(s: State, p: Pid, effect: Effect, d: Disk)
    requires Safe(s) && Harmless(s, p, effect, d)
    ensures Safe(Commit(s, p, effect, d))
  {
    CommitKeepsHolders(s, p, effect, d);
    var t := Commit(s, p, effect, d);
    assert t.disk == d;
  }

  lemma PrepareIsHarmless(s: State, p: Pid, step: PrepareStep)
    requires Safe(s) && p in s.procs && EnabledPrepare(s, p, step)
    ensures Harmless(s, p, PrepareEffect(s, p, step), PrepareDisk(s, p, step))
  {
    PrepareFits(s, p, step);
    PrepareOnlyKey(s, p, step);
    if !PrepareEffect(s, p, step).End? { PrepareHolderOk(s, p, step); }
    PrepareCacheOk(s, p, step);
  }

  lemma PruneIsHarmless(s: State, p: Pid, step: PruneStep)
    requires Safe(s) && p in s.procs && EnabledPrune(s, p, step)
    ensures Harmless(s, p, PruneEffect(s, p, step), PruneDisk(s, p, step))
  {
    PruneFits(s, p, step);
    PruneOnlyKey(s, p, step);
    if !PruneEffect(s, p, step).End? { PruneHolderOk(s, p, step); }
    PruneCacheOk(s, p, step);
  }

  lemma CrashKeepsSafe(s: State, p: Pid)
    requires Safe(s) && p in s.procs
    ensures Safe(Leave(s, p))
  {
    CommitKeepsSafe(s, p, End, s.disk);
  }

  lemma EditKeepsSafe(s: State, root: Root, tree: Tree)
    requires Safe(s)
    ensures Safe(Apply(s, Edit(root, tree)))
  {
    var t := Apply(s, Edit(root, tree));
    assert t.procs == s.procs && t.disk == s.disk && LocksAgree(t);
  }

  lemma DropLinkKeepsSafe(s: State, path: LinkPath)
    requires Safe(s)
    ensures Safe(Apply(s, DropLink(path)))
  {
    var t := Apply(s, DropLink(path));
    assert OnlyKey(s.disk, t.disk, None);
    forall p | p in t.procs
      ensures HolderOk(t.disk, t.procs[p])
    {
      OtherHolderOk(s.disk, t.disk, None, s.procs[p]);
    }
  }

  lemma StartKeepsSafe(s: State, p: Pid, proc: Process)
    requires Safe(s) && p !in s.procs && (proc.WantOutput? || proc.NextVictim?)
    ensures Safe(s.(procs := s.procs[p := proc]))
  {
    StartKeepsLocks(s, p, proc);
  }

  lemma StepKeepsSafe(s: State, e: Event)
    requires Safe(s) && Enabled(s, e)
    ensures Safe(Apply(s, e))
  {
    match e
    case StartPrepare(p, job) => StartKeepsSafe(s, p, WantOutput(job));
    case StartPrune(p, victims) => StartKeepsSafe(s, p, NextVictim(victims));
    case Prepare(p, step) =>
      PrepareIsHarmless(s, p, step);
      CommitKeepsSafe(s.(seen := PrepareSeen(s, p, step)), p, PrepareEffect(s, p, step), PrepareDisk(s, p, step));
    case Prune(p, step) =>
      PruneIsHarmless(s, p, step);
      CommitKeepsSafe(s, p, PruneEffect(s, p, step), PruneDisk(s, p, step));
    case Crash(p) => CrashKeepsSafe(s, p);
    case Edit(root, tree) => EditKeepsSafe(s, root, tree);
    case DropLink(path) => DropLinkKeepsSafe(s, path);
  }

  lemma SafeNext(r: Run, i: nat)
    requires Valid(r) && i < |r.events| && Safe(r.states[i])
    ensures Safe(r.states[i + 1])
  {
    assert StepAt(r, i);
    StepKeepsSafe(r.states[i], r.events[i]);
  }

  lemma {:induction false} AlwaysSafe(r: Run, i: nat)
    requires Valid(r) && i < |r.states|
    ensures Safe(r.states[i])
    decreases i
  {
    if i > 0 {
      AlwaysSafe(r, i - 1);
      SafeNext(r, i - 1);
    }
  }

  /** Every published directory matches its manifest, except those a removal has
      started on; such a directory fails `verify`. */
  lemma PublishedMatchesManifest(r: Run, i: nat, slot: Slot, version: string)
    requires Valid(r) && i < |r.states| && slot in r.states[i].disk.cache
    ensures var d := r.states[i].disk;
      && (slot !in d.torn ==> Intact(d.cache[slot], slot.language))
      && (slot in d.torn ==> !Verify(d.cache[slot], slot.language, version))
  {
    AlwaysSafe(r, i);
    if slot in r.states[i].disk.torn {
      DamagedFailsVerify(r.states[i].disk.cache[slot], slot.language, version);
    }
  }

  /** While a language is being linked nothing has been removed from its directory, so a
      partly removed directory is never linked, into whatever output; the digest comparison
      that follows a link replacement never fails, and the final rename never finds its
      target occupied. */
  lemma LinkAndRenameNeverFail(r: Run, i: nat, p: Pid)
    requires Valid(r) && i < |r.states| && p in r.states[i].procs
    requires r.states[i].procs[p].Holding? && r.states[i].procs[p].left != []
    ensures var d, proc := r.states[i].disk, r.states[i].procs[p];
      var slot := Slot(proc.key, proc.left[0]);
      && (proc.work.Linking? ==> slot !in d.torn)
      && (proc.work.Linking? ==> forall n :: n in proc.work.records ==> DigestMatches(d, slot, n, proc.work.records[n]))
      && (proc.work.Checked? ==> slot !in d.cache)
  {
    AlwaysSafe(r, i);
    assert HolderOk(r.states[i].disk, r.states[i].procs[p]);
  }

  predicate RemovesFrom(e: Event, slot: Slot) {
    e.Prune? && (e.prune.RemoveFile? || e.prune.RemoveMarker? || e.prune.RemoveDirectory?) && e.prune.slot == slot
  }

  lemma PrepareKeepsEntry(s: State, p: Pid, step: PrepareStep, slot: Slot)
    requires p in s.procs && EnabledPrepare(s, p, step) && slot in s.disk.cache
    ensures slot in PrepareDisk(s, p, step).cache && PrepareDisk(s, p, step).cache[slot] == s.disk.cache[slot]
  {
  }

  lemma PruneKeepsEntry(s: State, p: Pid, step: PruneStep, slot: Slot)
    requires p in s.procs && EnabledPrune(s, p, step) && slot in s.disk.cache && !RemovesFrom(Prune(p, step), slot)
    ensures slot in PruneDisk(s, p, step).cache && PruneDisk(s, p, step).cache[slot] == s.disk.cache[slot]
  {
  }

  lemma DiskAfter(s: State, e: Event)
    requires LocksAgree(s) && Enabled(s, e) && (e.Prepare? || e.Prune?)
    ensures Apply(s, e).disk == if e.Prepare? then PrepareDisk(s, e.p, e.prepare) else PruneDisk(s, e.p, e.prune)
  {
    match e
    case Prepare(p, step) =>
      PrepareFits(s, p, step);
      CommitIsLocal(s.(seen := PrepareSeen(s, p, step)), p, PrepareEffect(s, p, step), PrepareDisk(s, p, step));
    case Prune(p, step) =>
      PruneFits(s, p, step);
      CommitIsLocal(s, p, PruneEffect(s, p, step), PruneDisk(s, p, step));
  }

  lemma StepKeepsEntry(s: State, e: Event, slot: Slot)
    requires LocksAgree(s) && Enabled(s, e) && slot in s.disk.cache && !RemovesFrom(e, slot)
    ensures slot in Apply(s, e).disk.cache && Apply(s, e).disk.cache[slot] == s.disk.cache[slot]
  {
    match e
    case Prepare(p, step) =>
      PrepareKeepsEntry(s, p, step, slot);
      DiskAfter(s, e);
    case Prune(p, step) =>
      PruneKeepsEntry(s, p, step, slot);
      DiskAfter(s, e);
    case _ =>
  }

  lemma StepKeepsPresence(s: State, e: Event, slot: Slot)
    requires LocksAgree(s) && Enabled(s, e) && slot in s.disk.cache
    requires !RemovesDirectory(e, slot)
    ensures slot in Apply(s, e).disk.cache
  {
    match e
    case Prepare(p, step) =>
      PrepareKeepsEntry(s, p, step, slot);
      DiskAfter(s, e);
    case Prune(p, step) => DiskAfter(s, e);
    case _ =>
  }

  lemma EntryStays(r: Run, i: nat, slot: Slot)
    requires Valid(r) && i < |r.events| && slot in r.states[i].disk.cache && !RemovesFrom(r.events[i], slot)
    ensures slot in r.states[i + 1].disk.cache && r.states[i + 1].disk.cache[slot] == r.states[i].disk.cache[slot]
  {
    LocksAlwaysAgree(r, i);
    assert StepAt(r, i);
    StepKeepsEntry(r.states[i], r.events[i], slot);
  }

  lemma PresenceStays(r: Run, i: nat, slot: Slot)
    requires Valid(r) && i < |r.events| && slot in r.states[i].disk.cache && !RemovesDirectory(r.events[i], slot)
    ensures slot in r.states[i + 1].disk.cache
  {
    LocksAlwaysAgree(r, i);
    assert StepAt(r, i);
    StepKeepsPresence(r.states[i], r.events[i], slot);
  }

  /** A published directory is never modified or replaced: between two moments with no
      removal from it in between, it is the same directory. */
  lemma {:induction false} PublishedIsImmutable(r: Run, i: nat, j: nat, slot: Slot)
    requires Valid(r) && i <= j < |r.states| && slot in r.states[i].disk.cache
    requires forall m :: i <= m < j ==> !RemovesFrom(r.events[m], slot)
    ensures slot in r.states[j].disk.cache && r.states[j].disk.cache[slot] == r.states[i].disk.cache[slot]
    decreases j
  {
    if i < j {
      PublishedIsImmutable(r, i, j - 1, slot);
      EntryStays(r, j - 1, slot);
    }
  }

  lemma {:induction false} PresencePersists(r: Run, i: nat, j: nat, slot: Slot)
    requires Valid(r) && i <= j < |r.states| && slot in r.states[i].disk.cache
    requires forall m :: i <= m < j ==> !RemovesDirectory(r.events[m], slot)
    ensures slot in r.states[j].disk.cache
    decreases j
  {
    if i < j {
      PresencePersists(r, i, j - 1, slot);
      PresenceStays(r, j - 1, slot);
    }
  }

  predicate Publishes(e: Event, slot: Slot) {
    e.Prepare? && e.prepare == Publish(slot)
  }

  predicate RemovesDirectory(e: Event, slot: Slot) {
    e.Prune? && e.prune == RemoveDirectory(slot)
  }

  lemma PublishMakesPresent(r: Run, i: nat, slot: Slot)
    requires Valid(r) && i < |r.events| && Publishes(r.events[i], slot)
    ensures slot !in r.states[i].disk.cache && slot in r.states[i + 1].disk.cache
  {
    LocksAlwaysAgree(r, i);
    assert StepAt(r, i);
    DiskAfter(r.states[i], r.events[i]);
  }

  /** Two builds published for one key and language have the removal of that directory
      between them. */
  lemma OneBuildBetweenRemovals(r: Run, i: nat, j: nat, slot: Slot)
    requires Valid(r) && i < j < |r.events| && Publishes(r.events[i], slot) && Publishes(r.events[j], slot)
    ensures exists m :: i < m < j && RemovesDirectory(r.events[m], slot)
  {
    PublishMakesPresent(r, i, slot);
    PublishMakesPresent(r, j, slot);
    if forall m :: i < m < j ==> !RemovesDirectory(r.events[m], slot) {
      PresencePersists(r, i + 1, j, slot);
    }
  }
}
