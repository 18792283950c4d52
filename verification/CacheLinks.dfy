/** The links in one output directory: they never dangle while every prune scans that
    output, and the exact condition under which an output can rely on that from now on. */
module CacheLinks {
  import opened Options
  import opened PackageLayout
  import opened InputTrees
  import opened CacheModel
  import opened CacheLocks
  import opened CacheSafety

  /** The link leads to a file of a published directory that is still whole. */
  predicate Leads(d: Disk, path: LinkPath)
    requires path in d.links
  {
    d.links[path].CacheFile? ==>
      && d.links[path].slot in d.cache
      && d.links[path].slot !in d.torn
      && d.links[path].name in d.cache[d.links[path].slot].files
  }

  predicate Guarded(o: Output, path: LinkPath) {
    path.output == o && Scannable(path.name)
  }

  ghost predicate LinksLead(d: Disk, o: Output) {
    forall path :: path in d.links && Guarded(o, path) ==> Leads(d, path)
  }

  /** The walk has still to look at the name, or to list a directory it lies in. */
  predicate ToCome(walk: Walk, o: Output, name: Path) {
    walk.output == o && (name in walk.names || exists k :: 0 <= k < |name| && name[..k] in walk.dirs)
  }

  /** No prune has passed a link of the output to the key it is about to remove: a scan
      has still to come to it, and a removal runs only when there is none. */
  ghost predicate Unpassed(d: Disk, o: Output, proc: Process) {
    match proc
    case Scanning(key, _, outputs, at, found) =>
      !found ==> forall path :: LinksTo(d, path, key) && Guarded(o, path) ==>
        o in outputs || (at.Some? && ToCome(at.value, o, path.name))
    case Removing(key, _) => forall path :: LinksTo(d, path, key) ==> !Guarded(o, path)
    case _ => true
  }

  /** The links of the output lead, and no scan or removal of their keys has passed it. */
  ghost predicate Covered(s: State, o: Output) {
    LinksLead(s.disk, o) && forall p :: p in s.procs ==> Unpassed(s.disk, o, s.procs[p])
  }

  /** A prune leaves the output out: it is not in its list, or was no directory when its
      turn came. */
  predicate Misses(e: Event, o: Output) {
    e.Prune? && ((e.prune.ListRoots? && o !in e.prune.outputs) || e.prune == SkipOutput(o))
  }

  /** From the given moment on every prune scans the output. */
  predicate NeverMisses(r: Run, since: nat, o: Output) {
    forall i :: since <= i < |r.events| ==> !Misses(r.events[i], o)
  }

  // --- every step keeps an output covered ---

  lemma OtherUnpassed(d: Disk, d': Disk, o: Output, key: Option<Key>, proc: Process)
    requires Unpassed(d, o, proc) && OnlyKey(d, d', key)
    requires HeldKey(proc).Some? ==> HeldKey(proc) != key
    ensures Unpassed(d', o, proc)
  {
  }

  lemma CommitKeepsCovered(s: State, p: Pid, effect: Effect, d: Disk, o: Output)
    requires Covered(s, o) && LocksAgree(s) && p in s.procs && Fits(s, p, effect) && OnlyKey(s.disk, d, HeldKey(s.procs[p]))
    requires LinksLead(d, o) && (!effect.End? ==> Unpassed(d, o, effect.next))
    ensures Covered(Commit(s, p, effect, d), o)
  {
    var t := Commit(s, p, effect, d);
    CommitIsLocal(s, p, effect, d);
    forall q | q in t.procs ensures Unpassed(t.disk, o, t.procs[q]) {
      if q != p {
        if HeldKey(s.procs[q]).Some? { HoldersDiffer(s, p, q); }
        OtherUnpassed(s.disk, d, o, HeldKey(s.procs[p]), s.procs[q]);
      }
    }
  }

  lemma PublishKeepsLinks(d: Disk, o: Output, slot: Slot, entry: Package)
    requires LinksLead(d, o) && slot !in d.cache
    ensures LinksLead(d.(cache := d.cache[slot := entry]), o)
  {
    var d' := d.(cache := d.cache[slot := entry]);
    forall path | path in d'.links && Guarded(o, path) ensures Leads(d', path) { assert Leads(d, path); }
  }

  lemma LinkKeepsLinks(d: Disk, o: Output, path: LinkPath, target: Target)
    requires LinksLead(d, o)
    requires target.CacheFile? ==> target.slot in d.cache && target.slot !in d.torn && target.name in d.cache[target.slot].files
    ensures LinksLead(d.(links := d.links[path := target]), o)
  {
    var d' := d.(links := d.links[path := target]);
    forall q | q in d'.links && Guarded(o, q) ensures Leads(d', q) {
      if q != path { assert Leads(d, q); }
    }
  }

  lemma PrepareKeepsLinks(s: State, p: Pid, step: PrepareStep, o: Output)
    requires Safe(s) && LinksLead(s.disk, o) && p in s.procs && EnabledPrepare(s, p, step)
    ensures LinksLead(PrepareDisk(s, p, step), o)
  {
    var proc := s.procs[p];
    assert HolderOk(s.disk, proc);
    match step
    case LinkPrivate(name) => LinkKeepsLinks(s.disk, o, LinkPath(proc.job.output, name), PrivateFile);
    case Publish(slot) => PublishKeepsLinks(s.disk, o, slot, proc.work.entry);
    case LinkFile(n) =>
      var slot := Slot(proc.key, proc.left[0]);
      assert DigestMatches(s.disk, slot, n, proc.work.records[n]);
      LinkKeepsLinks(s.disk, o, LinkPath(proc.job.output, n), CacheFile(slot, n));
    case _ =>
  }

  lemma PrepareIsUnpassed(s: State, p: Pid, step: PrepareStep, d: Disk, o: Output)
    requires p in s.procs && EnabledPrepare(s, p, step) && !PrepareEffect(s, p, step).End?
    ensures Unpassed(d, o, PrepareEffect(s, p, step).next)
  {
    JobStays(s, p, step);
  }

  /** Removal touches the directories of one key, and no guarded link leads there. */
  lemma RemovalKeepsLinks(d: Disk, d': Disk, o: Output, key: Key)
    requires LinksLead(d, o) && OnlyKey(d, d', Some(key)) && d'.links == d.links
    requires forall path :: LinksTo(d, path, key) ==> !Guarded(o, path)
    ensures LinksLead(d', o)
  {
    forall path | path in d'.links && Guarded(o, path)
      ensures Leads(d', path)
    {
      assert !LinksTo(d, path, key) && Leads(d, path);
    }
  }

  lemma PruneKeepsLinks(s: State, p: Pid, step: PruneStep, o: Output)
    requires Covered(s, o) && p in s.procs && EnabledPrune(s, p, step)
    ensures LinksLead(PruneDisk(s, p, step), o)
  {
    if step.RemoveFile? || step.RemoveMarker? || step.RemoveDirectory? {
      PruneOnlyKey(s, p, step);
      assert Unpassed(s.disk, o, s.procs[p]);
      RemovalKeepsLinks(s.disk, PruneDisk(s, p, step), o, s.procs[p].key);
    }
  }

  /** A walk starts above everything in its output. */
  lemma OpeningIsUnpassed(d: Disk, o: Output, proc: Process, at: Output)
    requires proc.Scanning? && proc.at.None? && Unpassed(d, o, proc)
    ensures Unpassed(d, o, proc.(outputs := proc.outputs - {at}, at := Some(Walk(at, {[]}, {}))))
  {
    var next := proc.(outputs := proc.outputs - {at}, at := Some(Walk(at, {[]}, {})));
    if !proc.found {
      forall path | LinksTo(d, path, proc.key) && Guarded(o, path)
        ensures o in next.outputs || ToCome(next.at.value, o, path.name)
      {
        assert path.name[..0] == [];
      }
    }
  }

  /** Listing a directory brings a link in it to the names, and a link deeper in it to the
      directories still to be listed. */
  lemma ListingComesCloser(d: Disk, walk: Walk, dir: Path, o: Output, path: LinkPath)
    requires path in d.links && Guarded(o, path) && dir in walk.dirs && ToCome(walk, o, path.name)
    ensures ToCome(ListInto(d, walk, dir), o, path.name)
  {
    var name, next := path.name, ListInto(d, walk, dir);
    if name !in walk.names {
      var k :| 0 <= k < |name| && name[..k] in walk.dirs;
      if name[..k] == dir {
        if |name| == k + 1 {
          assert DirectlyIn(dir, name);
          assert name in LinksIn(d, o, dir);
        } else {
          assert DeepIn(dir, name);
          assert name[..k + 1] in DirsIn(d, o, dir);
        }
      } else {
        assert name[..k] in next.dirs;
      }
    }
  }

  lemma ListingIsUnpassed(d: Disk, o: Output, proc: Process, dir: Path)
    requires proc.Scanning? && proc.at.Some? && dir in proc.at.value.dirs && Unpassed(d, o, proc)
    ensures Unpassed(d, o, proc.(at := Some(ListInto(d, proc.at.value, dir))))
  {
    if !proc.found {
      forall path | LinksTo(d, path, proc.key) && Guarded(o, path) && o !in proc.outputs
        ensures ToCome(ListInto(d, proc.at.value, dir), o, path.name)
      {
        ListingComesCloser(d, proc.at.value, dir, o, path);
      }
    }
  }

  /** Looking at a name either finds a link to the key or leaves no such link behind. */
  lemma LookingIsUnpassed(d: Disk, o: Output, proc: Process, n: Path)
    requires proc.Scanning? && proc.at.Some? && proc.at.value.dirs == {} && n in proc.at.value.names
    requires Unpassed(d, o, proc)
    ensures var walk := proc.at.value;
      Unpassed(d, o, proc.(at := Some(walk.(names := walk.names - {n})),
                           found := proc.found || LinksTo(d, LinkPath(walk.output, n), proc.key)))
  {
    var walk := proc.at.value;
    if !proc.found && !LinksTo(d, LinkPath(walk.output, n), proc.key) {
      forall path | LinksTo(d, path, proc.key) && Guarded(o, path) && o !in proc.outputs
        ensures ToCome(walk.(names := walk.names - {n}), o, path.name)
      {
        assert path != LinkPath(walk.output, n);
      }
    }
  }

  lemma PruneIsUnpassed(s: State, p: Pid, step: PruneStep, o: Output)
    requires Covered(s, o) && p in s.procs && EnabledPrune(s, p, step) && !PruneEffect(s, p, step).End?
    requires !Misses(Prune(p, step), o)
    ensures Unpassed(PruneDisk(s, p, step), o, PruneEffect(s, p, step).next)
  {
    assert Unpassed(s.disk, o, s.procs[p]);
    match step
    case OpenOutput(at) => OpeningIsUnpassed(s.disk, o, s.procs[p], at);
    case ListDirectory(dir) => ListingIsUnpassed(s.disk, o, s.procs[p], dir);
    case LookAt(n) => LookingIsUnpassed(s.disk, o, s.procs[p], n);
    case _ =>
  }

  lemma DropKeepsCovered(s: State, path: LinkPath, o: Output)
    requires Covered(s, o)
    ensures Covered(Apply(s, DropLink(path)), o)
  {
    var t := Apply(s, DropLink(path));
    assert OnlyKey(s.disk, t.disk, None);
    forall p | p in t.procs ensures Unpassed(t.disk, o, t.procs[p]) {
      OtherUnpassed(s.disk, t.disk, o, None, s.procs[p]);
    }
    assert forall q :: q in t.disk.links && Leads(s.disk, q) ==> Leads(t.disk, q);
  }

  /** Every step of every process and of the environment keeps an output covered, except
      a prune that leaves it out. */
  lemma StepKeepsCovered(s: State, e: Event, o: Output)
    requires Safe(s) && Covered(s, o) && Enabled(s, e) && !Misses(e, o)
    ensures Covered(Apply(s, e), o)
  {
    match e
    case Prepare(p, step) =>
      PrepareFits(s, p, step);
      PrepareOnlyKey(s, p, step);
      PrepareKeepsLinks(s, p, step, o);
      if !PrepareEffect(s, p, step).End? { PrepareIsUnpassed(s, p, step, PrepareDisk(s, p, step), o); }
      CommitKeepsCovered(s.(seen := PrepareSeen(s, p, step)), p, PrepareEffect(s, p, step), PrepareDisk(s, p, step), o);
    case Prune(p, step) =>
      PruneFits(s, p, step);
      PruneOnlyKey(s, p, step);
      PruneKeepsLinks(s, p, step, o);
      if !PruneEffect(s, p, step).End? { PruneIsUnpassed(s, p, step, o); }
      CommitKeepsCovered(s, p, PruneEffect(s, p, step), PruneDisk(s, p, step), o);
    case Crash(p) => CommitKeepsCovered(s, p, End, s.disk, o);
    case DropLink(path) => DropKeepsCovered(s, path, o);
    case _ =>
  }

  lemma CoveredNext(r: Run, i: nat, o: Output)
    requires Valid(r) && i < |r.events| && Covered(r.states[i], o) && !Misses(r.events[i], o)
    ensures Covered(r.states[i + 1], o)
  {
    AlwaysSafe(r, i);
    assert StepAt(r, i);
    StepKeepsCovered(r.states[i], r.events[i], o);
  }

  /** An output that is covered at some moment stays covered while every prune scans it. */
  lemma {:induction false} CoveredFromThenOn(r: Run, i: nat, j: nat, o: Output)
    requires Valid(r) && i <= j < |r.states| && Covered(r.states[i], o) && NeverMisses(r, i, o)
    ensures Covered(r.states[j], o)
    decreases j
  {
    if i < j {
      CoveredFromThenOn(r, i, j - 1, o);
      CoveredNext(r, j - 1, o);
    }
  }

  /** The target of a link is a file of a published directory from which nothing has been
      removed and which matches its manifest. */
  ghost predicate TargetIsWhole(d: Disk, path: LinkPath) {
    path in d.links && d.links[path].CacheFile? ==>
      var target := d.links[path];
      target.slot in d.cache && Intact(d.cache[target.slot], target.slot.language) && target.name in d.cache[target.slot].files
  }

  /** Links of an output that was covered at some moment lead to whole packages in every
      later state, crashes included, while every prune since then scanned the output. */
  lemma LinksNeverDangleSince(r: Run, i: nat, j: nat, path: LinkPath)
    requires Valid(r) && i <= j < |r.states| && Covered(r.states[i], path.output) && NeverMisses(r, i, path.output)
    requires Scannable(path.name)
    ensures TargetIsWhole(r.states[j].disk, path)
  {
    CoveredFromThenOn(r, i, j, path.output);
    AlwaysSafe(r, j);
    var d := r.states[j].disk;
    if path in d.links { assert Leads(d, path); }
  }

  /** In every interleaving, crashes included, a scannable link leads to a whole package
      if every prune of the run scans its output. */
  lemma LinksNeverDangle(r: Run, j: nat, path: LinkPath)
    requires Valid(r) && j < |r.states| && NeverMisses(r, 0, path.output) && Scannable(path.name)
    ensures TargetIsWhole(r.states[j].disk, path)
  {
    LinksNeverDangleSince(r, 0, j, path);
  }

  /** No link of the output leads into the cache. */
  predicate NoCacheLinks(d: Disk, o: Output) {
    forall path :: path in d.links && path.output == o ==> !d.links[path].CacheFile?
  }

  /** A worktree that joins without cache links can rely on its later links from then on,
      whatever scans and removals are under way. */
  lemma FreshOutputNeverDangles(r: Run, i: nat, j: nat, path: LinkPath)
    requires Valid(r) && i <= j < |r.states| && NoCacheLinks(r.states[i].disk, path.output)
    requires NeverMisses(r, i, path.output) && Scannable(path.name)
    ensures TargetIsWhole(r.states[j].disk, path)
  {
    FreshOutputIsCovered(r.states[i], path.output);
    LinksNeverDangleSince(r, i, j, path);
  }

  lemma FreshOutputIsCovered(s: State, o: Output)
    requires NoCacheLinks(s.disk, o)
    ensures Covered(s, o)
  {
  }

  // --- the condition is exact ---

  predicate Dangles(s: State, o: Output, path: LinkPath) {
    path in s.disk.links && Guarded(o, path) && !Leads(s.disk, path)
  }

  /** `later` goes on from `r` and no prune in between leaves the output out. */
  ghost predicate Continues(r: Run, later: Run, o: Output) {
    Valid(later) && Extends(r, later) && NeverMisses(later, |r.events|, o)
  }

  lemma ContinuesByOne(r: Run, later: Run, e: Event, o: Output)
    requires |r.states| == |r.events| + 1 && Continues(r, later, o) && Enabled(After(later), e) && !Misses(e, o)
    ensures Continues(r, Then(later, e), o) && After(Then(later, e)) == Apply(After(later), e)
  {
    ThenIsValid(later, e);
  }

  /** The removal of a key takes the file from under a link to it. */
  lemma RemovalDangles(r: Run, at: Run, p: Pid, o: Output, path: LinkPath) returns (later: Run)
    requires |r.states| == |r.events| + 1 && Continues(r, at, o) && p in After(at).procs && After(at).procs[p].Removing?
    requires LinksTo(After(at).disk, path, After(at).procs[p].key) && Guarded(o, path) && Leads(After(at).disk, path)
    ensures Continues(r, later, o) && Dangles(After(later), o, path)
  {
    var target := After(at).disk.links[path];
    var e := Prune(p, RemoveFile(target.slot, target.name));
    ContinuesByOne(r, at, e, o);
    later := Then(at, e);
  }

  /** A scan that found nothing so far has passed a link of the output to its key. */
  predicate Threat(s: State, p: Pid, o: Output, path: LinkPath) {
    && p in s.procs && s.procs[p].Scanning? && !s.procs[p].found
    && LinksTo(s.disk, path, s.procs[p].key) && Guarded(o, path) && Leads(s.disk, path)
    && o !in s.procs[p].outputs
    && !(s.procs[p].at.Some? && ToCome(s.procs[p].at.value, o, path.name))
  }

  /** What is left of a scan that skips every further output, and of the other links. */
  function Remaining(s: State, p: Pid): nat
    requires p in s.procs && s.procs[p].Scanning?
  {
    var at := s.procs[p].at;
    |s.disk.links| + |s.procs[p].outputs| + (if at.Some? then |at.value.dirs| + |at.value.names| + 1 else 0)
  }

  /** No link but the given one is left in the output being walked. */
  predicate OnlyLink(s: State, o: Output, path: LinkPath) {
    forall q :: q in s.disk.links && q.output == o ==> q == path
  }

  lemma DropOther(s: State, p: Pid, o: Output, path: LinkPath, other: LinkPath)
    requires Threat(s, p, o, path) && other in s.disk.links && other != path
    ensures MovesOn(s, p, o, path, DropLink(other))
  {
    var t := Apply(s, DropLink(other));
    assert t.disk.links.Keys == s.disk.links.Keys - {other};
    assert |t.disk.links| == |t.disk.links.Keys| && |s.disk.links| == |s.disk.links.Keys|;
  }

  lemma InDirectoryToCome(walk: Walk, name: Path, dir: Path)
    requires dir < name && dir in walk.dirs
    ensures ToCome(walk, walk.output, name)
  {
    assert name[..|dir|] == dir;
  }

  /** A directory the link does not lie in has nothing to add. */
  lemma ListEmpty(s: State, p: Pid, o: Output, path: LinkPath, dir: Path)
    requires Threat(s, p, o, path) && s.procs[p].at.Some? && OnlyLink(s, s.procs[p].at.value.output, path)
    requires dir in s.procs[p].at.value.dirs
    ensures ListInto(s.disk, s.procs[p].at.value, dir)
         == s.procs[p].at.value.(dirs := s.procs[p].at.value.dirs - {dir})
  {
    var walk := s.procs[p].at.value;
    forall q | q in s.disk.links && q.output == walk.output ensures !(dir < q.name) {
      if dir < q.name { InDirectoryToCome(walk, path.name, dir); }
    }
    assert LinksIn(s.disk, walk.output, dir) == {} && DirsIn(s.disk, walk.output, dir) == {};
  }

  /** The step is taken and the scan still threatens the link, with less to come. */
  predicate MovesOn(s: State, p: Pid, o: Output, path: LinkPath, e: Event)
    requires Threat(s, p, o, path)
  {
    && Enabled(s, e) && !Misses(e, o)
    && var t := Apply(s, e);
       Threat(t, p, o, path) && Remaining(t, p) < Remaining(s, p)
  }

  lemma ListStep(s: State, p: Pid, o: Output, path: LinkPath, dir: Path)
    requires Threat(s, p, o, path) && s.procs[p].at.Some? && OnlyLink(s, s.procs[p].at.value.output, path)
    requires dir in s.procs[p].at.value.dirs
    ensures MovesOn(s, p, o, path, Prune(p, ListDirectory(dir)))
  {
    ListEmpty(s, p, o, path, dir);
  }

  lemma LookStep(s: State, p: Pid, o: Output, path: LinkPath, n: Path)
    requires Threat(s, p, o, path) && s.procs[p].at.Some? && OnlyLink(s, s.procs[p].at.value.output, path)
    requires s.procs[p].at.value.dirs == {} && n in s.procs[p].at.value.names
    ensures MovesOn(s, p, o, path, Prune(p, LookAt(n)))
  {
    assert !LinksTo(s.disk, LinkPath(s.procs[p].at.value.output, n), s.procs[p].key);
  }

  lemma LeaveStep(s: State, p: Pid, o: Output, path: LinkPath)
    requires Threat(s, p, o, path) && s.procs[p].at.Some?
    requires s.procs[p].at.value.dirs == {} && s.procs[p].at.value.names == {}
    ensures MovesOn(s, p, o, path, Prune(p, FinishOutput))
  {
  }

  lemma WalkStep(s: State, p: Pid, o: Output, path: LinkPath) returns (e: Event)
    requires Threat(s, p, o, path) && s.procs[p].at.Some? && OnlyLink(s, s.procs[p].at.value.output, path)
    ensures MovesOn(s, p, o, path, e)
  {
    var walk := s.procs[p].at.value;
    if walk.dirs != {} {
      var dir :| dir in walk.dirs;
      ListStep(s, p, o, path, dir);
      e := Prune(p, ListDirectory(dir));
    } else if walk.names != {} {
      var n :| n in walk.names;
      LookStep(s, p, o, path, n);
      e := Prune(p, LookAt(n));
    } else {
      LeaveStep(s, p, o, path);
      e := Prune(p, FinishOutput);
    }
  }

  lemma SkipStep(s: State, p: Pid, o: Output, path: LinkPath) returns (e: Event)
    requires Threat(s, p, o, path) && s.procs[p].at.None? && s.procs[p].outputs != {}
    ensures MovesOn(s, p, o, path, e)
  {
    var other :| other in s.procs[p].outputs;
    e := Prune(p, SkipOutput(other));
  }

  /** The scan moves on without finding anything. */
  lemma ScanMovesOn(s: State, p: Pid, o: Output, path: LinkPath) returns (e: Event)
    requires Threat(s, p, o, path) && (s.procs[p].at.Some? || s.procs[p].outputs != {})
    ensures MovesOn(s, p, o, path, e)
  {
    if s.procs[p].at.None? {
      e := SkipStep(s, p, o, path);
    } else if q :| q in s.disk.links && q.output == s.procs[p].at.value.output && q != path {
      DropOther(s, p, o, path, q);
      e := DropLink(q);
    } else {
      e := WalkStep(s, p, o, path);
    }
  }

  /** Such a scan can go on to remove the key without leaving the output out again. */
  lemma ThreatDangles(r: Run, at: Run, p: Pid, o: Output, path: LinkPath) returns (later: Run)
    requires |r.states| == |r.events| + 1 && Continues(r, at, o) && Threat(After(at), p, o, path)
    ensures Continues(r, later, o) && Dangles(After(later), o, path)
    decreases Remaining(After(at), p)
  {
    var s := After(at);
    if s.procs[p].at.None? && s.procs[p].outputs == {} {
      ContinuesByOne(r, at, Prune(p, FinishScan), o);
      later := RemovalDangles(r, Then(at, Prune(p, FinishScan)), p, o, path);
    } else {
      var e := ScanMovesOn(s, p, o, path);
      ContinuesByOne(r, at, e, o);
      later := ThreatDangles(r, Then(at, e), p, o, path);
    }
  }

  /** An output that is not covered can lose a package although every prune from now on
      scans it. */
  lemma UncoveredCanDangle(r: Run, o: Output) returns (later: Run)
    requires Valid(r) && !Covered(After(r), o)
    ensures Continues(r, later, o) && !LinksLead(After(later).disk, o)
  {
    var s := After(r);
    later := r;
    if LinksLead(s.disk, o) {
      var p :| p in s.procs && !Unpassed(s.disk, o, s.procs[p]);
      var path;
      if s.procs[p].Removing? {
        path :| LinksTo(s.disk, path, s.procs[p].key) && Guarded(o, path);
        assert Leads(s.disk, path);
        later := RemovalDangles(r, r, p, o, path);
      } else {
        var at := s.procs[p].at;
        path :| LinksTo(s.disk, path, s.procs[p].key) && Guarded(o, path) && o !in s.procs[p].outputs
          && !(at.Some? && ToCome(at.value, o, path.name));
        assert Leads(s.disk, path);
        later := ThreatDangles(r, r, p, o, path);
      }
    }
  }

  /** Being covered is the exact condition for an output to join: its links lead on every
      continuation in which each prune scans it, if and only if they lead now and no scan
      or removal of their keys has passed it. */
  lemma CoverageIsExact(r: Run, o: Output)
    requires Valid(r)
    ensures Covered(After(r), o) <==> forall later :: Continues(r, later, o) ==> LinksLead(After(later).disk, o)
  {
    if Covered(After(r), o) {
      forall later | Continues(r, later, o) ensures LinksLead(After(later).disk, o) {
        assert later.states[|r.events|] == After(r);
        CoveredFromThenOn(later, |r.events|, |later.events|, o);
      }
    } else {
      var later := UncoveredCanDangle(r, o);
    }
  }
}
