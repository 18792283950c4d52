/** The reduction of a staging directory to its package files: every entry is visited
    in reverse sorted order, so that a directory comes after everything in it. */
module StagingCleanup {
  import opened Options
  import opened PackageLayout

  predicate TextLess(a: string, b: string) {
    b != "" && (a == "" || a[0] < b[0] || (a[0] == b[0] && TextLess(a[1..], b[1..])))
  }

  /** The order of paths: component by component. */
  predicate PathLess(a: Path, b: Path) {
    b != [] && (a == [] || TextLess(a[0], b[0]) || (a[0] == b[0] && PathLess(a[1..], b[1..])))
  }

  lemma {:induction false} TextLessIrreflexive(a: string)
    ensures !TextLess(a, a)
  {
    if a != "" { TextLessIrreflexive(a[1..]); }
  }

  /** Nothing sorts before its own ancestor directory. */
  lemma {:induction false} DescendantIsNotLess(dir: Path, path: Path)
    requires dir < path
    ensures !PathLess(path, dir)
  {
    if dir != [] {
      TextLessIrreflexive(dir[0]);
      DescendantIsNotLess(dir[1..], path[1..]);
    }
  }

  predicate ReverseSorted(listing: seq<Path>) {
    forall i, j :: 0 <= i < j < |listing| ==> PathLess(listing[j], listing[i])
  }

  /** Every descendant is visited before its directory. */
  lemma DescendantsComeFirst(listing: seq<Path>, i: nat, j: nat)
    requires ReverseSorted(listing) && i < |listing| && j < |listing| && listing[i] < listing[j]
    ensures j < i
  {
    DescendantIsNotLess(listing[i], listing[j]);
  }

  /** The entry directly inside `dir` on the way to `path`. */
  function StepInto(dir: Path, path: Path): Path
    requires dir < path
  {
    path[..|dir| + 1]
  }

  predicate IsChild(dir: Path, path: Path) {
    dir < path && |path| == |dir| + 1
  }

  predicate LeadsTo(dir: Path, files: set<Path>) {
    exists f :: f in files && dir < f
  }

  class StagingTree {
    var files: map<Path, Item>   // files and symbolic links
    var dirs: set<Path>          // real directories below the root

    /** Every entry lies in a directory that exists. */
    ghost predicate Valid()
      reads this
    {
      && files.Keys !! dirs
      && [] !in files && [] !in dirs
      && (forall p, k :: (p in files || p in dirs) && 0 < k < |p| ==> p[..k] in dirs)
    }

    predicate HasChild(dir: Path)
      reads this
    {
      exists q :: q in files.Keys + dirs && IsChild(dir, q)
    }

    method Cleanup(allowed: set<Path>, listing: seq<Path>)
      requires Valid()
      requires ReverseSorted(listing) && (forall p :: p in listing <==> p in files || p in dirs)
      modifies this
      ensures files == Restrict(old(files), allowed)
      ensures dirs == set d | d in old(dirs) && LeadsTo(d, old(files).Keys * allowed)
      ensures Valid()
    {
      ghost var files0, dirs0 := files, dirs;
      ghost var kept := files0.Keys * allowed;
      assert Closed(files0.Keys, dirs0) && Lists(listing, files0, dirs0);
      for i := 0 to |listing|
        invariant Done(files, dirs, files0, dirs0, allowed, listing[..i])
      {
        var path := listing[i];
        if path in dirs {
          VisitDir(files, dirs, files0, dirs0, allowed, listing, i);
          if !HasChild(path) {
            dirs := dirs - {path};
          }
        } else {
          VisitFile(files, dirs, files0, dirs0, allowed, listing, i);
          if path !in allowed {
            files := files - {path};
          }
        }
      }
      assert listing[..|listing|] == listing;
      assert files.Keys == kept;
      assert files == Restrict(files0, allowed);
      Survivors(files0.Keys, dirs0, kept);
    }
  }

  /** The entries seen so far are decided: a file stays when it is allowed, a directory
      when it leads to an allowed file. */
  ghost predicate Done(files: map<Path, Item>, dirs: set<Path>, files0: map<Path, Item>, dirs0: set<Path>,
                       allowed: set<Path>, seen: seq<Path>)
  {
    && files.Keys <= files0.Keys && dirs <= dirs0
    && (forall p :: p in files ==> files[p] == files0[p])
    && (forall p :: p in files0 ==> (p in files <==> p in allowed || p !in seen))
    && (forall d :: d in dirs0 ==> (d in dirs <==> LeadsTo(d, files0.Keys * allowed) || d !in seen))
  }

  ghost predicate Lists(listing: seq<Path>, files0: map<Path, Item>, dirs0: set<Path>) {
    ReverseSorted(listing) && forall p :: p in listing <==> p in files0 || p in dirs0
  }

  lemma VisitDir(files: map<Path, Item>, dirs: set<Path>, files0: map<Path, Item>, dirs0: set<Path>,
                 allowed: set<Path>, listing: seq<Path>, i: nat)
    requires Lists(listing, files0, dirs0) && Closed(files0.Keys, dirs0) && [] !in dirs0
    requires i < |listing| && listing[i] in dirs && Done(files, dirs, files0, dirs0, allowed, listing[..i])
    ensures Done(files, if exists q :: q in files.Keys + dirs && IsChild(listing[i], q) then dirs else dirs - {listing[i]},
                 files0, dirs0, allowed, listing[..i + 1])
  {
    assert listing[..i + 1] == listing[..i] + [listing[i]];
    NotYet(listing, i);
    ChildrenDecide(files0.Keys, dirs0, files.Keys, dirs, files0.Keys * allowed, listing, i);
  }

  lemma VisitFile(files: map<Path, Item>, dirs: set<Path>, files0: map<Path, Item>, dirs0: set<Path>,
                  allowed: set<Path>, listing: seq<Path>, i: nat)
    requires Lists(listing, files0, dirs0) && files0.Keys !! dirs0
    requires i < |listing| && listing[i] !in dirs && Done(files, dirs, files0, dirs0, allowed, listing[..i])
    ensures Done(if listing[i] in allowed then files else files - {listing[i]}, dirs,
                 files0, dirs0, allowed, listing[..i + 1])
  {
    assert listing[..i + 1] == listing[..i] + [listing[i]];
    NotYet(listing, i);
  }

  lemma NotYet(listing: seq<Path>, i: nat)
    requires ReverseSorted(listing) && i < |listing|
    ensures listing[i] !in listing[..i]
  {
    forall j | 0 <= j < i ensures listing[j] != listing[i] {
      if listing[j] == listing[i] { PathLessIrreflexive(listing[i]); }
    }
  }

  lemma {:induction false} PathLessIrreflexive(p: Path)
    ensures !PathLess(p, p)
  {
    if p != [] {
      TextLessIrreflexive(p[0]);
      PathLessIrreflexive(p[1..]);
    }
  }

  ghost predicate Closed(files: set<Path>, dirs: set<Path>) {
    && files !! dirs
    && (forall p, k :: (p in files || p in dirs) && 0 < k < |p| ==> p[..k] in dirs)
  }

  /** When a directory is reached, everything in it has been decided, so it is empty
      exactly when no allowed file lies below it. */
  lemma ChildrenDecide(files0: set<Path>, dirs0: set<Path>, files: set<Path>, dirs: set<Path>,
                       kept: set<Path>, listing: seq<Path>, i: nat)
    requires ReverseSorted(listing) && i < |listing| && Closed(files0, dirs0) && kept <= files0
    requires forall p :: p in listing <==> p in files0 || p in dirs0
    requires files <= files0 && dirs <= dirs0 && listing[i] in dirs0 && listing[i] != []
    requires forall p :: p in files0 ==> (p in files <==> p in kept || p !in listing[..i])
    requires forall d :: d in dirs0 ==> (d in dirs <==> LeadsTo(d, kept) || d !in listing[..i])
    ensures (exists q :: q in files + dirs && IsChild(listing[i], q)) <==> LeadsTo(listing[i], kept)
  {
    var dir := listing[i];
    if LeadsTo(dir, kept) {
      var f :| f in kept && dir < f;
      var q := StepInto(dir, f);
      assert IsChild(dir, q);
      if q == f {
        assert q in files;
      } else {
        assert q == f[..|dir| + 1] && q in dirs0 && q < f;
        assert q in dirs;
      }
      assert q in files + dirs;
    }
    if q :| q in files + dirs && IsChild(dir, q) {
      Decided(listing, i, q);
      if q in files {
        assert dir < q && q in kept;
      } else {
        var f :| f in kept && q < f;
        assert dir < f;
      }
      assert LeadsTo(dir, kept);
    }
  }

  lemma Decided(listing: seq<Path>, i: nat, q: Path)
    requires ReverseSorted(listing) && i < |listing| && listing[i] < q && q in listing
    ensures q in listing[..i]
  {
    var j :| 0 <= j < |listing| && listing[j] == q;
    DescendantsComeFirst(listing, i, j);
  }

  lemma Survivors(files0: set<Path>, dirs0: set<Path>, kept: set<Path>)
    requires Closed(files0, dirs0) && kept <= files0 && [] !in dirs0
    ensures var dirs := set d | d in dirs0 && LeadsTo(d, kept);
      forall p, k :: (p in kept || p in dirs) && 0 < k < |p| ==> p[..k] in dirs
  {
    forall p, k | (p in kept || (p in dirs0 && LeadsTo(p, kept))) && 0 < k < |p|
      ensures p[..k] in dirs0 && LeadsTo(p[..k], kept)
    {
      var f :| f in kept && (p == f || p < f);
      assert p[..k] < f;
    }
  }

  function Restrict(items: map<Path, Item>, names: set<Path>): map<Path, Item> {
    map p | p in items && p in names :: items[p]
  }

  lemma RestrictedIsSelection(items: map<Path, Item>, layout: Layout)
    requires forall p :: p in items && Selects(layout, p) ==> items[p].Regular?
    ensures Restrict(items, SelectedDigests(items, layout).Keys) == AsItems(Selection(items, layout))
  {
    var left, selected := Restrict(items, SelectedDigests(items, layout).Keys), AsItems(Selection(items, layout));
    assert left.Keys == selected.Keys;
    assert forall p :: p in left ==> Selects(layout, p);
  }

  /** After the cleanup with the package files as the allowed set, the directory holds
      exactly the published selection, and recomputing its package file map gives the
      manifest that was written. */
  lemma CleanedTreeMatchesManifest(items: map<Path, Item>, layout: Layout)
    requires PackageFiles(items, layout).Ok?
    ensures var manifest := PackageFiles(items, layout).value;
      var left := Restrict(items, manifest.Keys);
      left == AsItems(Selection(items, layout)) && PackageFiles(left, layout) == Ok(manifest)
  {
    RestrictedIsSelection(items, layout);
    SelectionKeepsPackageFiles(items, layout);
  }
}
