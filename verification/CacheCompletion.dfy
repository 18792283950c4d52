/** What a finished `prepare` has done: every package of its job is in the cache and linked
    into its output. */
module CacheCompletion {
  import opened Options
  import opened PackageLayout
  import opened InputTrees
  import opened CacheModel
  import opened CacheLocks
  import opened CacheSafety

  // --- links that somebody removed ---

  /** The link an event puts in place, if any. */
  function Puts(s: State, e: Event): Option<LinkPath> {
    if e.Prepare? && (e.prepare.LinkFile? || e.prepare.LinkPrivate?) && e.p in s.procs && IsPrepare(s.procs[e.p])
    then Some(LinkPath(s.procs[e.p].job.output, e.prepare.name))
    else None
  }

  function NextLost(lost: set<LinkPath>, s: State, e: Event): set<LinkPath> {
    if e.DropLink? then lost + {e.path}
    else if Puts(s, e).Some? then lost - {Puts(s, e).value}
    else lost
  }

  /** The links that were dropped and not put in place again. */
  ghost function Lost(r: Run, i: nat): set<LinkPath>
    requires Valid(r) && i < |r.states|
  {
    if i == 0 then {} else NextLost(Lost(r, i - 1), r.states[i - 1], r.events[i - 1])
  }

  /** The environment dropped the link, and nobody has put it in place since. */
  ghost predicate DroppedSince(r: Run, m: nat, i: nat, path: LinkPath)
    requires Valid(r) && m < i < |r.states|
  {
    && r.events[m] == DropLink(path)
    && forall k :: m < k < i ==> Puts(r.states[k], r.events[k]) != Some(path)
  }

  lemma {:induction false} LostMeansDropped(r: Run, i: nat, path: LinkPath)
    requires Valid(r) && i < |r.states| && path in Lost(r, i)
    ensures exists m :: 0 <= m < i && DroppedSince(r, m, i, path)
    decreases i
  {
    if r.events[i - 1] == DropLink(path) {
      assert DroppedSince(r, i - 1, i, path);
    } else {
      LostMeansDropped(r, i - 1, path);
      var m :| 0 <= m < i - 1 && DroppedSince(r, m, i - 1, path);
      assert DroppedSince(r, m, i, path);
    }
  }

  // --- how far a prepare has come ---

  predicate LinkedOrLost(d: Disk, lost: set<LinkPath>, path: LinkPath, target: Target) {
    path in lost || (path in d.links && d.links[path] == target)
  }

  /** The published directory is whole, and its files are linked into the output, except
      those still to be linked. */
  ghost predicate EntryLinked(d: Disk, lost: set<LinkPath>, o: Output, slot: Slot, toLink: set<Path>) {
    && slot in d.cache && slot !in d.torn
    && forall n :: n in d.cache[slot].files && n !in toLink ==> LinkedOrLost(d, lost, LinkPath(o, n), CacheFile(slot, n))
  }

  ghost predicate AllLinked(d: Disk, lost: set<LinkPath>, o: Output, key: Key, done: seq<Language>) {
    forall l :: l in done ==> EntryLinked(d, lost, o, Slot(key, l), {})
  }

  /** The languages of the job are the finished ones followed by those left. */
  function Done(languages: seq<Language>, left: seq<Language>): seq<Language> {
    if |left| <= |languages| then languages[..|languages| - |left|] else []
  }

  ghost predicate Progress(d: Disk, lost: set<LinkPath>, proc: Process) {
    proc.Holding? ==>
      && proc.job.languages == Done(proc.job.languages, proc.left) + proc.left
      && AllLinked(d, lost, proc.job.output, proc.key, Done(proc.job.languages, proc.left))
      && (proc.work.Linking? && proc.left != [] ==>
            EntryLinked(d, lost, proc.job.output, Slot(proc.key, proc.left[0]), proc.work.records.Keys))
  }

  ghost predicate AllProgress(s: State, lost: set<LinkPath>) {
    forall p :: p in s.procs ==> Progress(s.disk, lost, s.procs[p])
  }

  // --- what other processes may do ---

  /** Links change in one output only. */
  ghost predicate OnlyOutput(d: Disk, lost: set<LinkPath>, d': Disk, lost': set<LinkPath>, o: Option<Output>) {
    forall path: LinkPath :: Some(path.output) != o ==>
      && (path in lost ==> path in lost')
      && (path in d.links ==> path in lost' || (path in d'.links && d'.links[path] == d.links[path]))
  }

  lemma PrepareOnlyOutput(s: State, p: Pid, step: PrepareStep, lost: set<LinkPath>)
    requires p in s.procs && EnabledPrepare(s, p, step)
    ensures OnlyOutput(s.disk, lost, PrepareDisk(s, p, step), NextLost(lost, s, Prepare(p, step)), HeldOutput(s.procs[p]))
  {
  }

  lemma OtherEntryLinked(d: Disk, lost: set<LinkPath>, d': Disk, lost': set<LinkPath>, key: Option<Key>, o: Option<Output>,
                         at: Output, slot: Slot, toLink: set<Path>)
    requires EntryLinked(d, lost, at, slot, toLink) && OnlyKey(d, d', key) && OnlyOutput(d, lost, d', lost', o)
    requires Some(slot.key) != key && Some(at) != o
    ensures EntryLinked(d', lost', at, slot, toLink)
  {
    forall n | n in d'.cache[slot].files && n !in toLink
      ensures LinkedOrLost(d', lost', LinkPath(at, n), CacheFile(slot, n))
    {
      assert LinkedOrLost(d, lost, LinkPath(at, n), CacheFile(slot, n));
    }
  }

  lemma OtherProgress(d: Disk, lost: set<LinkPath>, d': Disk, lost': set<LinkPath>, key: Option<Key>, o: Option<Output>,
                      proc: Process)
    requires Progress(d, lost, proc) && OnlyKey(d, d', key) && OnlyOutput(d, lost, d', lost', o)
    requires HeldKey(proc).Some? ==> HeldKey(proc) != key
    requires HeldOutput(proc).Some? ==> HeldOutput(proc) != o
    ensures Progress(d', lost', proc)
  {
    if proc.Holding? {
      var at, done := proc.job.output, Done(proc.job.languages, proc.left);
      forall l | l in done ensures EntryLinked(d', lost', at, Slot(proc.key, l), {}) {
        OtherEntryLinked(d, lost, d', lost', key, o, at, Slot(proc.key, l), {});
      }
      if proc.work.Linking? && proc.left != [] {
        OtherEntryLinked(d, lost, d', lost', key, o, at, Slot(proc.key, proc.left[0]), proc.work.records.Keys);
      }
    }
  }

  lemma OutputHoldersDiffer(s: State, p: Pid, q: Pid)
    requires LocksAgree(s) && p in s.procs && q in s.procs && p != q && HeldOutput(s.procs[q]).Some?
    ensures HeldOutput(s.procs[q]) != HeldOutput(s.procs[p])
  {
    assert HoldsItsLocks(s.procs[p], p, s.outputLocks, s.keyLocks);
    assert HoldsItsLocks(s.procs[q], q, s.outputLocks, s.keyLocks);
  }

  lemma CommitKeepsProgress(s: State, p: Pid, effect: Effect, d: Disk, lost: set<LinkPath>, lost': set<LinkPath>)
    requires AllProgress(s, lost) && LocksAgree(s) && p in s.procs && Fits(s, p, effect)
    requires OnlyKey(s.disk, d, HeldKey(s.procs[p])) && OnlyOutput(s.disk, lost, d, lost', HeldOutput(s.procs[p]))
    requires !effect.End? ==> Progress(d, lost', effect.next)
    ensures AllProgress(Commit(s, p, effect, d), lost')
  {
    var t := Commit(s, p, effect, d);
    CommitIsLocal(s, p, effect, d);
    forall q | q in t.procs ensures Progress(t.disk, lost', t.procs[q]) {
      if q != p {
        if HeldKey(s.procs[q]).Some? { HoldersDiffer(s, p, q); }
        if HeldOutput(s.procs[q]).Some? { OutputHoldersDiffer(s, p, q); }
        OtherProgress(s.disk, lost, d, lost', HeldKey(s.procs[p]), HeldOutput(s.procs[p]), s.procs[q]);
      }
    }
  }

  // --- what the process itself does ---

  /** The files of a whole directory lie below the directory of its language. */
  lemma WholeEntryIsInPlace(d: Disk, slot: Slot, n: Path)
    requires CacheOk(d) && slot in d.cache && slot !in d.torn && n in d.cache[slot].files
    ensures n != [] && n[0] == TopDirectory(slot.language)
  {
    var entry := d.cache[slot];
    assert Intact(entry, slot.language);
    assert n in Digests(entry.files);
    SelectedBelowTop(slot.language, entry.marker.value.version, n);
  }

  lemma SharedFileSameLanguage(d: Disk, slot: Slot, other: Slot, n: Path)
    requires CacheOk(d) && slot in d.cache && slot !in d.torn && other in d.cache && other !in d.torn
    requires n in d.cache[slot].files && n in d.cache[other].files
    ensures slot.language == other.language
  {
    WholeEntryIsInPlace(d, slot, n);
    WholeEntryIsInPlace(d, other, n);
    TopDirectoriesDiffer(slot.language, other.language);
  }

  /** A new link does not displace a link of another language. */
  lemma LinkKeepsEntry(d: Disk, lost: set<LinkPath>, o: Output, slot: Slot, n: Path, other: Slot, toLink: set<Path>)
    requires EntryLinked(d, lost, o, other, toLink) && (n in d.cache[other].files ==> slot == other)
    ensures EntryLinked(d.(links := d.links[LinkPath(o, n) := CacheFile(slot, n)]), lost - {LinkPath(o, n)}, o, other,
                        toLink - {n})
  {
    var d' := d.(links := d.links[LinkPath(o, n) := CacheFile(slot, n)]);
    forall m | m in d'.cache[other].files && m !in toLink - {n}
      ensures LinkedOrLost(d', lost - {LinkPath(o, n)}, LinkPath(o, m), CacheFile(other, m))
    {
      if m != n { assert LinkedOrLost(d, lost, LinkPath(o, m), CacheFile(other, m)); }
    }
  }

  /** Only directories of one language hold the file. */
  ghost predicate OwnFile(d: Disk, language: Language, n: Path) {
    forall slot :: slot in d.cache && slot !in d.torn && n in d.cache[slot].files ==> slot.language == language
  }

  lemma FileIsOwn(d: Disk, slot: Slot, n: Path)
    requires CacheOk(d) && slot in d.cache && slot !in d.torn && n in d.cache[slot].files
    ensures OwnFile(d, slot.language, n)
  {
    forall other | other in d.cache && other !in d.torn && n in d.cache[other].files
      ensures other.language == slot.language
    {
      SharedFileSameLanguage(d, slot, other, n);
    }
  }

  lemma LinkKeepsAll(d: Disk, lost: set<LinkPath>, o: Output, slot: Slot, n: Path, done: seq<Language>)
    requires OwnFile(d, slot.language, n)
    requires AllLinked(d, lost, o, slot.key, done)
    ensures AllLinked(d.(links := d.links[LinkPath(o, n) := CacheFile(slot, n)]), lost - {LinkPath(o, n)}, o, slot.key, done)
  {
    var d' := d.(links := d.links[LinkPath(o, n) := CacheFile(slot, n)]);
    forall l | l in done ensures EntryLinked(d', lost - {LinkPath(o, n)}, o, Slot(slot.key, l), {}) {
      var other := Slot(slot.key, l);
      assert EntryLinked(d, lost, o, other, {});
      LinkKeepsEntry(d, lost, o, slot, n, other, {});
    }
  }

  function WithLink(d: Disk, proc: Process, n: Path): Disk
    requires proc.Holding? && proc.left != []
  {
    d.(links := d.links[LinkPath(proc.job.output, n) := CacheFile(Slot(proc.key, proc.left[0]), n)])
  }

  function Linked(proc: Process, n: Path): Process
    requires proc.Holding? && proc.work.Linking?
  {
    proc.(work := Linking(proc.work.records - {n}))
  }

  /** The current directory has the file, and nothing has been removed from it. */
  predicate Whole(d: Disk, proc: Process, n: Path)
    requires proc.Holding? && proc.left != []
  {
    var slot := Slot(proc.key, proc.left[0]);
    slot in d.cache && slot !in d.torn && n in d.cache[slot].files
  }

  lemma LinkProgress(d: Disk, lost: set<LinkPath>, proc: Process, n: Path)
    requires Progress(d, lost, proc) && proc.Holding? && proc.left != [] && proc.work.Linking?
    requires Whole(d, proc, n) && OwnFile(d, proc.left[0], n)
    ensures Progress(WithLink(d, proc, n), lost - {LinkPath(proc.job.output, n)}, Linked(proc, n))
  {
    var slot, o := Slot(proc.key, proc.left[0]), proc.job.output;
    LinkKeepsAll(d, lost, o, slot, n, Done(proc.job.languages, proc.left));
    LinkKeepsEntry(d, lost, o, slot, n, slot, proc.work.records.Keys);
    assert (proc.work.records - {n}).Keys == proc.work.records.Keys - {n};
  }

  /** After its step the process has come as far as it says. */
  ghost predicate Proceeds(s: State, p: Pid, step: PrepareStep, lost: set<LinkPath>)
    requires p in s.procs && EnabledPrepare(s, p, step)
  {
    !PrepareEffect(s, p, step).End? ==>
      Progress(PrepareDisk(s, p, step), NextLost(lost, s, Prepare(p, step)), PrepareEffect(s, p, step).next)
  }

  lemma LinkFindsItsFile(s: State, p: Pid, n: Path)
    requires Safe(s) && p in s.procs && EnabledPrepare(s, p, LinkFile(n))
    ensures Whole(s.disk, s.procs[p], n) && OwnFile(s.disk, s.procs[p].left[0], n)
    ensures PrepareEffect(s, p, LinkFile(n)) == Become(Linked(s.procs[p], n))
  {
    var proc := s.procs[p];
    assert HolderOk(s.disk, proc);
    assert DigestMatches(s.disk, Slot(proc.key, proc.left[0]), n, proc.work.records[n]);
    FileIsOwn(s.disk, Slot(proc.key, proc.left[0]), n);
  }

  lemma LinkFileProgress(s: State, p: Pid, n: Path, lost: set<LinkPath>)
    requires p in s.procs && EnabledPrepare(s, p, LinkFile(n)) && Progress(s.disk, lost, s.procs[p])
    requires Whole(s.disk, s.procs[p], n) && OwnFile(s.disk, s.procs[p].left[0], n)
    requires PrepareEffect(s, p, LinkFile(n)) == Become(Linked(s.procs[p], n))
    ensures Proceeds(s, p, LinkFile(n), lost)
  {
    LinkProgress(s.disk, lost, s.procs[p], n);
  }

  /** The manifest of the directory lists exactly its files. */
  predicate AllListed(d: Disk, slot: Slot) {
    && slot in d.cache && slot !in d.torn && d.cache[slot].marker.Some?
    && d.cache[slot].marker.value.files.Keys == d.cache[slot].files.Keys
  }

  lemma VerifyFindsItWhole(s: State, p: Pid)
    requires Safe(s) && p in s.procs && EnabledPrepare(s, p, VerifyEntry)
    ensures AllListed(s.disk, Slot(s.procs[p].key, s.procs[p].left[0]))
  {
    var proc, d := s.procs[p], s.disk;
    var slot := Slot(proc.key, proc.left[0]);
    VerifiedIsWhole(d, slot, VersionOf(proc.versions, proc.left[0]));
    assert Intact(d.cache[slot], slot.language);
    assert Digests(d.cache[slot].files).Keys == d.cache[slot].files.Keys;
  }

  lemma VerifiedProgress(d: Disk, lost: set<LinkPath>, proc: Process, records: map<Path, Digest>)
    requires proc.Holding? && Progress(d, lost, proc) && proc.left != []
    requires var slot := Slot(proc.key, proc.left[0]);
      slot in d.cache && slot !in d.torn && records.Keys == d.cache[slot].files.Keys
    ensures Progress(d, lost, proc.(work := Linking(records)))
  {
  }

  lemma VerifyProgress(s: State, p: Pid, lost: set<LinkPath>)
    requires p in s.procs && EnabledPrepare(s, p, VerifyEntry) && Progress(s.disk, lost, s.procs[p])
    requires AllListed(s.disk, Slot(s.procs[p].key, s.procs[p].left[0]))
    ensures Proceeds(s, p, VerifyEntry, lost)
  {
    var slot := Slot(s.procs[p].key, s.procs[p].left[0]);
    VerifiedProgress(s.disk, lost, s.procs[p], s.disk.cache[slot].marker.value.files);
  }

  lemma DoneGrows(languages: seq<Language>, left: seq<Language>)
    requires left != [] && languages == Done(languages, left) + left
    ensures Done(languages, left[1..]) == Done(languages, left) + [left[0]]
    ensures languages == Done(languages, left[1..]) + left[1..]
  {
  }

  lemma FinishLanguageProgress(s: State, p: Pid, lost: set<LinkPath>)
    requires p in s.procs && EnabledPrepare(s, p, FinishLanguage) && Progress(s.disk, lost, s.procs[p])
    ensures Proceeds(s, p, FinishLanguage, lost)
  {
    DoneGrows(s.procs[p].job.languages, s.procs[p].left);
  }

  lemma PublishProgress(s: State, p: Pid, slot: Slot, lost: set<LinkPath>)
    requires p in s.procs && EnabledPrepare(s, p, Publish(slot)) && Progress(s.disk, lost, s.procs[p])
    ensures Proceeds(s, p, Publish(slot), lost)
  {
    var proc, d' := s.procs[p], PrepareDisk(s, p, Publish(slot));
    forall l | l in Done(proc.job.languages, proc.left)
      ensures EntryLinked(d', lost, proc.job.output, Slot(proc.key, l), {})
    {
      assert EntryLinked(s.disk, lost, proc.job.output, Slot(proc.key, l), {});
    }
  }

  /** The steps that change neither the links, the cache nor the languages left. */
  predicate QuietStep(step: PrepareStep) {
    !step.LinkFile? && !step.LinkPrivate? && !step.Publish? && !step.VerifyEntry? && !step.FinishLanguage?
  }

  /** The process goes on with the same languages left, or starts with all of them. */
  predicate Quiet(proc: Process, next: Process) {
    next.Holding? ==>
      && !next.work.Linking?
      && ((proc.Holding? && next.job == proc.job && next.key == proc.key && next.left == proc.left)
          || next.left == next.job.languages)
  }

  lemma QuietStepIsQuiet(s: State, p: Pid, step: PrepareStep)
    requires p in s.procs && EnabledPrepare(s, p, step) && QuietStep(step) && !PrepareEffect(s, p, step).End?
    ensures Quiet(s.procs[p], PrepareEffect(s, p, step).next)
    ensures PrepareDisk(s, p, step) == s.disk
  {
  }

  lemma QuietKeepsProgress(d: Disk, lost: set<LinkPath>, proc: Process, next: Process)
    requires Progress(d, lost, proc) && Quiet(proc, next)
    ensures Progress(d, lost, next)
  {
  }

  lemma QuietProgress(s: State, p: Pid, step: PrepareStep, lost: set<LinkPath>)
    requires p in s.procs && EnabledPrepare(s, p, step) && Progress(s.disk, lost, s.procs[p]) && QuietStep(step)
    ensures Proceeds(s, p, step, lost)
  {
    if !PrepareEffect(s, p, step).End? {
      QuietStepIsQuiet(s, p, step);
      QuietKeepsProgress(s.disk, lost, s.procs[p], PrepareEffect(s, p, step).next);
    }
  }

  /** The steps that rely on a whole directory. */
  lemma WholeProgress(s: State, p: Pid, step: PrepareStep, lost: set<LinkPath>)
    requires Safe(s) && p in s.procs && EnabledPrepare(s, p, step) && Progress(s.disk, lost, s.procs[p])
    requires step.LinkFile? || step.VerifyEntry?
    ensures Proceeds(s, p, step, lost)
  {
    if step.LinkFile? {
      LinkFindsItsFile(s, p, step.name);
      LinkFileProgress(s, p, step.name, lost);
    } else {
      VerifyFindsItWhole(s, p);
      VerifyProgress(s, p, lost);
    }
  }

  lemma OwnProgress(s: State, p: Pid, step: PrepareStep, lost: set<LinkPath>)
    requires p in s.procs && EnabledPrepare(s, p, step) && Progress(s.disk, lost, s.procs[p])
    requires !step.LinkFile? && !step.VerifyEntry?
    ensures Proceeds(s, p, step, lost)
  {
    if QuietStep(step) {
      QuietProgress(s, p, step, lost);
    } else if step.Publish? {
      PublishProgress(s, p, step.slot, lost);
    } else if step.FinishLanguage? {
      FinishLanguageProgress(s, p, lost);
    }
  }

  lemma PrepareProgress(s: State, p: Pid, step: PrepareStep, lost: set<LinkPath>)
    requires Safe(s) && p in s.procs && EnabledPrepare(s, p, step) && Progress(s.disk, lost, s.procs[p])
    ensures Proceeds(s, p, step, lost)
  {
    if step.LinkFile? || step.VerifyEntry? { WholeProgress(s, p, step, lost); } else { OwnProgress(s, p, step, lost); }
  }

  lemma PruneOnlyOutput(s: State, p: Pid, step: PruneStep, lost: set<LinkPath>)
    requires p in s.procs && EnabledPrune(s, p, step)
    ensures OnlyOutput(s.disk, lost, PruneDisk(s, p, step), lost, HeldOutput(s.procs[p]))
  {
  }

  lemma DropProgress(s: State, path: LinkPath, lost: set<LinkPath>)
    requires AllProgress(s, lost)
    ensures AllProgress(Apply(s, DropLink(path)), lost + {path})
  {
    var t := Apply(s, DropLink(path));
    forall p | p in t.procs ensures Progress(t.disk, lost + {path}, t.procs[p]) {
      assert Progress(s.disk, lost, s.procs[p]);
      OtherProgress(s.disk, lost, t.disk, lost + {path}, None, None, s.procs[p]);
    }
  }

  lemma PrepareKeepsProgress(s: State, p: Pid, step: PrepareStep, lost: set<LinkPath>)
    requires Safe(s) && AllProgress(s, lost) && Enabled(s, Prepare(p, step))
    ensures AllProgress(Apply(s, Prepare(p, step)), NextLost(lost, s, Prepare(p, step)))
  {
    PrepareFits(s, p, step);
    PrepareOnlyKey(s, p, step);
    PrepareOnlyOutput(s, p, step, lost);
    PrepareProgress(s, p, step, lost);
    CommitKeepsProgress(s.(seen := PrepareSeen(s, p, step)), p, PrepareEffect(s, p, step), PrepareDisk(s, p, step), lost,
                        NextLost(lost, s, Prepare(p, step)));
  }

  lemma PruneKeepsProgress(s: State, p: Pid, step: PruneStep, lost: set<LinkPath>)
    requires LocksAgree(s) && AllProgress(s, lost) && Enabled(s, Prune(p, step))
    ensures AllProgress(Apply(s, Prune(p, step)), lost)
  {
    PruneFits(s, p, step);
    PruneOnlyKey(s, p, step);
    PruneOnlyOutput(s, p, step, lost);
    if !PruneEffect(s, p, step).End? { PruneStays(s, p, step); }
    CommitKeepsProgress(s, p, PruneEffect(s, p, step), PruneDisk(s, p, step), lost, lost);
  }

  lemma CrashKeepsProgress(s: State, p: Pid, lost: set<LinkPath>)
    requires LocksAgree(s) && AllProgress(s, lost) && p in s.procs
    ensures AllProgress(Leave(s, p), lost)
  {
    CommitKeepsProgress(s, p, End, s.disk, lost, lost);
  }

  lemma StepKeepsProgress(s: State, e: Event, lost: set<LinkPath>)
    requires Safe(s) && AllProgress(s, lost) && Enabled(s, e)
    ensures AllProgress(Apply(s, e), NextLost(lost, s, e))
  {
    match e
    case Prepare(p, step) => PrepareKeepsProgress(s, p, step, lost);
    case Prune(p, step) => PruneKeepsProgress(s, p, step, lost);
    case Crash(p) => CrashKeepsProgress(s, p, lost);
    case DropLink(path) => DropProgress(s, path, lost);
    case _ =>
  }

  lemma ProgressNext(r: Run, i: nat)
    requires Valid(r) && i < |r.events| && AllProgress(r.states[i], Lost(r, i))
    ensures AllProgress(r.states[i + 1], Lost(r, i + 1))
  {
    AlwaysSafe(r, i);
    assert StepAt(r, i);
    StepKeepsProgress(r.states[i], r.events[i], Lost(r, i));
  }

  lemma {:induction false} AlwaysProgress(r: Run, i: nat)
    requires Valid(r) && i < |r.states|
    ensures AllProgress(r.states[i], Lost(r, i))
    decreases i
  {
    if i > 0 {
      AlwaysProgress(r, i - 1);
      ProgressNext(r, i - 1);
    }
  }

  /** The package is in the cache and matches its manifest. */
  ghost predicate Delivered(d: Disk, slot: Slot) {
    slot in d.cache && Intact(d.cache[slot], slot.language)
  }

  /** The link leads to the file of the package, unless it was dropped after it was put in
      place. */
  ghost predicate LinkedUnlessDropped(r: Run, i: nat, path: LinkPath, target: Target)
    requires Valid(r) && i < |r.states|
  {
    || (path in r.states[i].disk.links && r.states[i].disk.links[path] == target)
    || exists m :: 0 <= m < i && DroppedSince(r, m, i, path)
  }

  lemma DoneIsLinked(d: Disk, lost: set<LinkPath>, proc: Process, l: Language)
    requires Progress(d, lost, proc) && proc.Holding? && proc.left == [] && l in proc.job.languages
    ensures EntryLinked(d, lost, proc.job.output, Slot(proc.key, l), {})
  {
    assert l in Done(proc.job.languages, proc.left);
  }

  lemma WholeIsDelivered(d: Disk, slot: Slot)
    requires CacheOk(d) && slot in d.cache && slot !in d.torn
    ensures Delivered(d, slot)
  {
  }

  lemma FinishedHasLinkedAll(r: Run, i: nat, p: Pid, l: Language)
    requires Valid(r) && i < |r.events| && r.events[i] == Prepare(p, FinishPrepare) && StepAt(r, i)
    requires l in r.states[i].procs[p].job.languages
    ensures var slot := Slot(r.states[i].procs[p].key, l);
      EntryLinked(r.states[i].disk, Lost(r, i), r.states[i].procs[p].job.output, slot, {}) && Delivered(r.states[i].disk, slot)
  {
    AlwaysProgress(r, i);
    DoneIsLinked(r.states[i].disk, Lost(r, i), r.states[i].procs[p], l);
    AlwaysSafe(r, i);
    WholeIsDelivered(r.states[i].disk, Slot(r.states[i].procs[p].key, l));
  }

  /** Whenever a `prepare` finishes, in whatever interleaving, the packages of all languages
      of its job are in the cache and whole, and every file of them is linked into its
      output. */
  lemma FinishedPrepareIsComplete(r: Run, i: nat, p: Pid, l: Language)
    requires Valid(r) && i < |r.events| && r.events[i] == Prepare(p, FinishPrepare) && StepAt(r, i)
    requires l in r.states[i].procs[p].job.languages
    ensures var slot := Slot(r.states[i].procs[p].key, l);
      && Delivered(r.states[i].disk, slot)
      && forall n :: n in r.states[i].disk.cache[slot].files ==>
           LinkedUnlessDropped(r, i, LinkPath(r.states[i].procs[p].job.output, n), CacheFile(slot, n))
  {
    var d, proc, lost := r.states[i].disk, r.states[i].procs[p], Lost(r, i);
    var slot := Slot(proc.key, l);
    FinishedHasLinkedAll(r, i, p, l);
    forall n | n in d.cache[slot].files
      ensures LinkedUnlessDropped(r, i, LinkPath(proc.job.output, n), CacheFile(slot, n))
    {
      var path := LinkPath(proc.job.output, n);
      assert LinkedOrLost(d, lost, path, CacheFile(slot, n));
      if path in lost { LostMeansDropped(r, i, path); }
    }
  }

  // --- a link stays as it was put ---

  /** The event replaces or removes the link. */
  predicate Touches(s: State, e: Event, path: LinkPath) {
    e == DropLink(path) || Puts(s, e) == Some(path)
  }

  lemma StepKeepsLink(s: State, e: Event, path: LinkPath)
    requires LocksAgree(s) && Enabled(s, e) && !Touches(s, e, path)
    ensures path in s.disk.links <==> path in Apply(s, e).disk.links
    ensures path in s.disk.links ==> Apply(s, e).disk.links[path] == s.disk.links[path]
  {
    if e.Prepare? || e.Prune? { DiskAfter(s, e); }
  }

  lemma PutIsThere(s: State, e: Event)
    requires LocksAgree(s) && Enabled(s, e) && Puts(s, e).Some?
    ensures var path, d := Puts(s, e).value, Apply(s, e).disk;
      path in d.links && d.links[path] == if s.procs[e.p].Holding?
        then CacheFile(Slot(s.procs[e.p].key, s.procs[e.p].left[0]), path.name) else PrivateFile
  {
    DiskAfter(s, e);
  }

  /** A link leads where the last `prepare` that put it says, to a private build or to the
      cache, until somebody replaces or removes it. */
  lemma {:induction false} LinkStaysAsPut(r: Run, k: nat, i: nat)
    requires Valid(r) && k < i < |r.states| && StepAt(r, k) && Puts(r.states[k], r.events[k]).Some?
    requires forall m :: k < m < i ==> !Touches(r.states[m], r.events[m], Puts(r.states[k], r.events[k]).value)
    ensures var path, proc := Puts(r.states[k], r.events[k]).value, r.states[k].procs[r.events[k].p];
      && path in r.states[i].disk.links
      && r.states[i].disk.links[path] == if proc.Holding? then CacheFile(Slot(proc.key, proc.left[0]), path.name) else PrivateFile
    decreases i
  {
    if i == k + 1 {
      LocksAlwaysAgree(r, k);
      PutIsThere(r.states[k], r.events[k]);
    } else {
      LinkStaysAsPut(r, k, i - 1);
      LocksAlwaysAgree(r, i - 1);
      assert StepAt(r, i - 1);
      StepKeepsLink(r.states[i - 1], r.events[i - 1], Puts(r.states[k], r.events[k]).value);
    }
  }
}
