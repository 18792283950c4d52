/** What the processes decide on the way: which `prepare` may use the shared cache, and what a
    `prune` does with each of its candidates. */
module CacheDecisions {
  import opened Options
  import opened PackageLayout
  import opened InputTrees
  import opened CacheModel
  import opened CacheLocks
  import opened CacheSafety

  /** The process starts, takes a step or crashes. */
  predicate By(e: Event, p: Pid) {
    !e.Edit? && !e.DropLink? && e.p == p
  }

  /** The process is there in all these states, so it is one and the same process. */
  predicate Alive(r: Run, from: nat, to: nat, p: Pid) {
    forall i :: from <= i <= to && i < |r.states| ==> p in r.states[i].procs
  }

  lemma OthersLeaveIt(s: State, e: Event, p: Pid)
    requires LocksAgree(s) && Enabled(s, e) && !By(e, p)
    ensures p in Apply(s, e).procs <==> p in s.procs
    ensures p in s.procs ==> Apply(s, e).procs[p] == s.procs[p]
  {
    match e
    case Prepare(q, step) =>
      PrepareFits(s, q, step);
      CommitIsLocal(s.(seen := PrepareSeen(s, q, step)), q, PrepareEffect(s, q, step), PrepareDisk(s, q, step));
    case Prune(q, step) =>
      PruneFits(s, q, step);
      CommitIsLocal(s, q, PruneEffect(s, q, step), PruneDisk(s, q, step));
    case _ =>
  }

  lemma PrepareMovesIt(s: State, p: Pid, step: PrepareStep)
    requires LocksAgree(s) && Enabled(s, Prepare(p, step)) && p in Apply(s, Prepare(p, step)).procs
    ensures !PrepareEffect(s, p, step).End? && Apply(s, Prepare(p, step)).procs[p] == PrepareEffect(s, p, step).next
  {
    PrepareFits(s, p, step);
    CommitIsLocal(s.(seen := PrepareSeen(s, p, step)), p, PrepareEffect(s, p, step), PrepareDisk(s, p, step));
  }

  lemma PruneMovesIt(s: State, p: Pid, step: PruneStep)
    requires LocksAgree(s) && Enabled(s, Prune(p, step)) && p in Apply(s, Prune(p, step)).procs
    ensures !PruneEffect(s, p, step).End? && Apply(s, Prune(p, step)).procs[p] == PruneEffect(s, p, step).next
    ensures Apply(s, Prune(p, step)).disk == PruneDisk(s, p, step)
  {
    PruneFits(s, p, step);
    CommitIsLocal(s, p, PruneEffect(s, p, step), PruneDisk(s, p, step));
  }

  // --- shared or private ---

  /** The process is on its way to the shared cache. */
  predicate Shares(proc: Process) {
    proc.WantKey? || proc.Rechecking? || proc.Rechecked? || proc.Holding?
  }

  predicate Decided(proc: Process) {
    Shares(proc) || proc.PrivateBuild?
  }

  /** The process decided here whether to share, from the state of its worktree and its
      build flags. */
  predicate DecisionAt(r: Run, k: nat, p: Pid, job: Job, share: bool)
    requires k < |r.events| && |r.states| == |r.events| + 1
  {
    && r.events[k].Prepare? && r.events[k].p == p && r.events[k].prepare.Decide?
    && share == (Clean(TreeOf(r.states[k], job.root)) && !r.events[k].prepare.customFlags)
  }

  ghost predicate DecidedBefore(r: Run, i: nat, p: Pid, job: Job, share: bool)
    requires i < |r.states| && |r.states| == |r.events| + 1
  {
    exists k :: 0 <= k < i && DecisionAt(r, k, p, job, share) && Alive(r, k, i, p)
  }

  lemma LaterDecided(r: Run, i: nat, p: Pid, job: Job, share: bool)
    requires i + 1 < |r.states| && |r.states| == |r.events| + 1 && p in r.states[i + 1].procs
    requires DecidedBefore(r, i, p, job, share)
    ensures DecidedBefore(r, i + 1, p, job, share)
  {
    var k :| 0 <= k < i && DecisionAt(r, k, p, job, share) && Alive(r, k, i, p);
    assert Alive(r, k, i + 1, p);
  }

  /** A decided process has just decided, or had decided the same before. */
  lemma DecidedNext(s: State, p: Pid, step: PrepareStep)
    requires p in s.procs && EnabledPrepare(s, p, step) && !PrepareEffect(s, p, step).End?
    requires Decided(PrepareEffect(s, p, step).next)
    ensures step.Decide? || Decided(s.procs[p])
    ensures !step.Decide? ==> Shares(PrepareEffect(s, p, step).next) == Shares(s.procs[p])
    ensures step.Decide? ==>
      Shares(PrepareEffect(s, p, step).next) == (Clean(TreeOf(s, s.procs[p].job.root)) && !step.customFlags)
  {
  }

  lemma OwnDecisionStep(r: Run, i: nat, p: Pid)
    requires Valid(r) && i < |r.events| && p in r.states[i + 1].procs && Decided(r.states[i + 1].procs[p])
    requires p in r.states[i].procs && Decided(r.states[i].procs[p]) ==>
      DecidedBefore(r, i, p, r.states[i].procs[p].job, Shares(r.states[i].procs[p]))
    requires r.events[i].Prepare? && r.events[i].p == p
    ensures DecidedBefore(r, i + 1, p, r.states[i + 1].procs[p].job, Shares(r.states[i + 1].procs[p]))
  {
    var s, step := r.states[i], r.events[i].prepare;
    assert StepAt(r, i);
    LocksAlwaysAgree(r, i);
    PrepareMovesIt(s, p, step);
    JobStays(s, p, step);
    DecidedNext(s, p, step);
    if step.Decide? {
      assert DecisionAt(r, i, p, s.procs[p].job, Shares(r.states[i + 1].procs[p])) && Alive(r, i, i + 1, p);
    } else {
      LaterDecided(r, i, p, s.procs[p].job, Shares(s.procs[p]));
    }
  }

  lemma DecisionStep(r: Run, i: nat, p: Pid)
    requires Valid(r) && i < |r.events| && p in r.states[i + 1].procs && Decided(r.states[i + 1].procs[p])
    requires p in r.states[i].procs && Decided(r.states[i].procs[p]) ==>
      DecidedBefore(r, i, p, r.states[i].procs[p].job, Shares(r.states[i].procs[p]))
    ensures DecidedBefore(r, i + 1, p, r.states[i + 1].procs[p].job, Shares(r.states[i + 1].procs[p]))
  {
    var s, e := r.states[i], r.events[i];
    assert StepAt(r, i);
    LocksAlwaysAgree(r, i);
    if !By(e, p) {
      OthersLeaveIt(s, e, p);
      LaterDecided(r, i, p, s.procs[p].job, Shares(s.procs[p]));
    } else if e.Prepare? {
      OwnDecisionStep(r, i, p);
    } else if e.Prune? {
      PruneMovesIt(s, p, e.prune);
      PruneStays(s, p, e.prune);
    }
  }

  /** In every run a `prepare` uses the shared cache exactly if its worktree was clean and no
      build flags were set when it decided; otherwise it builds privately to its end. */
  lemma {:induction false} SharesExactlyWhenCleanAndPlain(r: Run, i: nat, p: Pid)
    requires Valid(r) && i < |r.states| && p in r.states[i].procs && Decided(r.states[i].procs[p])
    ensures DecidedBefore(r, i, p, r.states[i].procs[p].job, Shares(r.states[i].procs[p]))
    decreases i
  {
    if i > 0 {
      if p in r.states[i - 1].procs && Decided(r.states[i - 1].procs[p]) { SharesExactlyWhenCleanAndPlain(r, i - 1, p); }
      DecisionStep(r, i - 1, p);
    }
  }

  // --- the candidates of a prune ---

  /** The candidates a `prune` has not dealt with yet. */
  function Rest(proc: Process): seq<Key> {
    if IsPrepare(proc) then [] else if proc.NextVictim? then proc.victims else [proc.key] + proc.victims
  }

  /** Somebody holds the lock of the candidate when its turn comes. */
  predicate InUseAt(s: State, e: Event, p: Pid, key: Key) {
    && e == Prune(p, TryKey) && p in s.procs && s.procs[p].NextVictim?
    && s.procs[p].victims != [] && s.procs[p].victims[0] == key && key in s.keyLocks
  }

  /** The scan for the candidate comes to a link that leads to it. */
  predicate LinkSeenAt(s: State, e: Event, p: Pid, key: Key) {
    && e.Prune? && e.p == p && e.prune.LookAt? && p in s.procs && s.procs[p].Scanning? && s.procs[p].key == key
    && s.procs[p].at.Some? && LinksTo(s.disk, LinkPath(s.procs[p].at.value.output, e.prune.name), key)
  }

  /** The process ends the removal of the candidate, and no directory of it is left. */
  ghost predicate RemovedAt(s: State, e: Event, p: Pid, key: Key) {
    && e == Prune(p, FinishRemoval) && p in s.procs && s.procs[p].Removing? && s.procs[p].key == key
    && forall l :: Slot(key, l) !in s.disk.cache
  }

  ghost predicate DealtWithAt(s: State, e: Event, p: Pid, key: Key) {
    InUseAt(s, e, p, key) || LinkSeenAt(s, e, p, key) || RemovedAt(s, e, p, key)
  }

  ghost predicate DealtWith(r: Run, from: nat, i: nat, p: Pid, key: Key)
    requires i < |r.states| && |r.states| == |r.events| + 1
  {
    exists k :: from < k < i && DealtWithAt(r.states[k], r.events[k], p, key)
  }

  /** The candidate is still to come or has been dealt with, and a scan that has found
      something has seen a link to its own key. */
  ghost predicate Accounted(r: Run, from: nat, i: nat, p: Pid, key: Key)
    requires i < |r.states| && |r.states| == |r.events| + 1 && p in r.states[i].procs
  {
    var proc := r.states[i].procs[p];
    && !IsPrepare(proc)
    && (key in Rest(proc) || DealtWith(r, from, i, p, key))
    && (proc.Scanning? && proc.found ==> DealtWith(r, from, i, p, proc.key))
  }

  lemma LaterDealtWith(r: Run, from: nat, i: nat, p: Pid, key: Key)
    requires i + 1 < |r.states| && |r.states| == |r.events| + 1 && DealtWith(r, from, i, p, key)
    ensures DealtWith(r, from, i + 1, p, key)
  {
    var k :| from < k < i && DealtWithAt(r.states[k], r.events[k], p, key);
    assert DealtWithAt(r.states[k], r.events[k], p, key);
  }

  /** A candidate leaves the list of those to come only when it is dealt with. */
  lemma RestNext(s: State, p: Pid, step: PruneStep, key: Key)
    requires p in s.procs && EnabledPrune(s, p, step) && !PruneEffect(s, p, step).End? && !IsPrepare(s.procs[p])
    requires key in Rest(s.procs[p]) && !DealtWithAt(s, Prune(p, step), p, key)
    ensures key in Rest(PruneEffect(s, p, step).next)
      || (step.FinishScan? && s.procs[p].Scanning? && s.procs[p].found && s.procs[p].key == key)
  {
  }

  /** A scan finds something only when it sees a link. */
  lemma FoundNext(s: State, p: Pid, step: PruneStep)
    requires p in s.procs && EnabledPrune(s, p, step) && !PruneEffect(s, p, step).End?
    requires PruneEffect(s, p, step).next.Scanning? && PruneEffect(s, p, step).next.found
    ensures s.procs[p].Scanning? && s.procs[p].key == PruneEffect(s, p, step).next.key
    ensures s.procs[p].found || LinkSeenAt(s, Prune(p, step), p, s.procs[p].key)
  {
  }

  lemma AccountedStep(r: Run, from: nat, i: nat, p: Pid, key: Key)
    requires Valid(r) && from < i < |r.events| && p in r.states[i].procs && p in r.states[i + 1].procs
    requires Accounted(r, from, i, p, key) && r.events[i].Prune? && r.events[i].p == p
    ensures Accounted(r, from, i + 1, p, key)
  {
    var s, step := r.states[i], r.events[i].prune;
    assert StepAt(r, i);
    LocksAlwaysAgree(r, i);
    PruneMovesIt(s, p, step);
    PruneStays(s, p, step);
    if DealtWithAt(s, r.events[i], p, key) {
      assert DealtWith(r, from, i + 1, p, key);
    } else if DealtWith(r, from, i, p, key) {
      LaterDealtWith(r, from, i, p, key);
    } else {
      RestNext(s, p, step, key);
    }
    var next := r.states[i + 1].procs[p];
    if next.Scanning? && next.found {
      FoundNext(s, p, step);
      if s.procs[p].found {
        LaterDealtWith(r, from, i, p, next.key);
      } else {
        assert DealtWithAt(s, r.events[i], p, next.key);
      }
    }
  }

  lemma AccountedNext(r: Run, from: nat, i: nat, p: Pid, key: Key)
    requires Valid(r) && from < i < |r.events| && p in r.states[i].procs && p in r.states[i + 1].procs
    requires Accounted(r, from, i, p, key)
    ensures Accounted(r, from, i + 1, p, key)
  {
    var s, e := r.states[i], r.events[i];
    assert StepAt(r, i);
    if By(e, p) {
      AccountedStep(r, from, i, p, key);
    } else {
      LocksAlwaysAgree(r, i);
      OthersLeaveIt(s, e, p);
      if DealtWith(r, from, i, p, key) { LaterDealtWith(r, from, i, p, key); }
      if s.procs[p].Scanning? && s.procs[p].found { LaterDealtWith(r, from, i, p, s.procs[p].key); }
    }
  }

  lemma {:induction false} AlwaysAccounted(r: Run, from: nat, i: nat, p: Pid, key: Key)
    requires Valid(r) && from < i < |r.states| && Alive(r, from + 1, i, p)
    requires r.events[from].StartPrune? && r.events[from].p == p && key in r.events[from].victims
    ensures Accounted(r, from, i, p, key)
    decreases i
  {
    if i == from + 1 {
      assert StepAt(r, from);
    } else {
      AlwaysAccounted(r, from, i - 1, p, key);
      AccountedNext(r, from, i - 1, p, key);
    }
  }

  /** Whenever a `prune` finishes, in whatever interleaving, each of its candidates was in
      use when its turn came, or a link to it was seen, or it was removed with all its
      directories. */
  lemma FinishedPruneIsComplete(r: Run, from: nat, i: nat, p: Pid, key: Key)
    requires Valid(r) && from < i < |r.events| && Alive(r, from + 1, i, p)
    requires r.events[from].StartPrune? && r.events[from].p == p && key in r.events[from].victims
    requires r.events[i] == Prune(p, FinishPrune)
    ensures DealtWith(r, from, i, p, key)
  {
    AlwaysAccounted(r, from, i, p, key);
    assert StepAt(r, i);
  }
}
