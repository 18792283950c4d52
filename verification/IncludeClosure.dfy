/** The header pruner: a breadth-first worklist over include directives that copies every
    readable header it meets. */
module IncludeClosure {

  type Path = string

  /** A header with the paths it includes, in the order of its lines, or one that exists
      but cannot be read. */
  datatype Header = Readable(includes: seq<Path>) | Unreadable

  type Tree = map<Path, Header>

  predicate CanCopy(tree: Tree, p: Path) {
    p in tree && tree[p].Readable?
  }

  function Includes(tree: Tree, p: Path): seq<Path> {
    if CanCopy(tree, p) then tree[p].includes else []
  }

  // --- reachability, independent of the worklist ---

  ghost predicate Chain(tree: Tree, chain: seq<Path>) {
    forall i :: 0 <= i < |chain| - 1 ==> chain[i + 1] in Includes(tree, chain[i])
  }

  /** A chain of includes leads from a root to the path. */
  ghost predicate Reachable(tree: Tree, roots: seq<Path>, p: Path) {
    exists chain :: |chain| > 0 && chain[0] in roots && Chain(tree, chain) && chain[|chain| - 1] == p
  }

  lemma RootsAreReachable(tree: Tree, roots: seq<Path>, p: Path)
    requires p in roots
    ensures Reachable(tree, roots, p)
  {
    assert Chain(tree, [p]) && [p][0] in roots;
  }

  lemma IncludesAreReachable(tree: Tree, roots: seq<Path>, p: Path, q: Path)
    requires Reachable(tree, roots, p) && q in Includes(tree, p)
    ensures Reachable(tree, roots, q)
  {
    var chain :| |chain| > 0 && chain[0] in roots && Chain(tree, chain) && chain[|chain| - 1] == p;
    var longer := chain + [q];
    assert Chain(tree, longer) && longer[0] == chain[0];
  }

  ghost predicate Closed(tree: Tree, s: set<Path>) {
    forall p, q :: p in s && q in Includes(tree, p) ==> q in s
  }

  /** Whatever contains the roots and is closed under includes contains everything reachable. */
  lemma {:induction false} ReachableIsLeast(tree: Tree, roots: seq<Path>, s: set<Path>, chain: seq<Path>)
    requires |chain| > 0 && chain[0] in roots && Chain(tree, chain)
    requires Closed(tree, s) && forall r :: r in roots ==> r in s
    ensures chain[|chain| - 1] in s
    decreases |chain|
  {
    var last := |chain| - 1;
    if last > 0 {
      assert chain[last] in Includes(tree, chain[last - 1]);
      ReachableIsLeast(tree, roots, s, chain[..last]);
    }
  }

  /** Every path that can ever enter the queue. */
  ghost function Names(tree: Tree, roots: seq<Path>): set<Path> {
    (set r | r in roots) + (set p, q | p in tree && q in Includes(tree, p) :: q)
  }

  // --- the worklist ---

  ghost predicate Known(tree: Tree, roots: seq<Path>, p: Path) {
    Reachable(tree, roots, p) && p in Names(tree, roots)
  }

  ghost predicate AllKnown(tree: Tree, roots: seq<Path>, visited: set<Path>, queue: seq<Path>) {
    (forall p :: p in visited ==> Known(tree, roots, p)) && (forall p :: p in queue ==> Known(tree, roots, p))
  }

  ghost predicate RootsMet(roots: seq<Path>, visited: set<Path>, queue: seq<Path>) {
    forall r :: r in roots ==> r in visited || r in queue
  }

  ghost predicate IncludesMet(tree: Tree, visited: set<Path>, queue: seq<Path>) {
    forall p, q :: p in visited && q in Includes(tree, p) ==> q in visited || q in queue
  }

  ghost predicate Copies(tree: Tree, visited: set<Path>, copied: set<Path>) {
    forall p :: p in copied <==> p in visited && CanCopy(tree, p)
  }

  /** What visiting the first waiting header does to the queue. */
  ghost predicate Visits(tree: Tree, visited: set<Path>, queue: seq<Path>, queue': seq<Path>)
    requires queue != []
  {
    var p := queue[0];
    if p in visited then queue' == queue[1..]
    else forall q :: q in queue' <==> q in queue[1..] || (q in Includes(tree, p) && q !in visited + {p})
  }

  lemma IncludesAreKnown(tree: Tree, roots: seq<Path>, p: Path, q: Path)
    requires Known(tree, roots, p) && q in Includes(tree, p)
    ensures Known(tree, roots, q)
  {
    IncludesAreReachable(tree, roots, p, q);
    assert p in tree;
  }

  lemma VisitKeepsKnown(tree: Tree, roots: seq<Path>, visited: set<Path>, queue: seq<Path>, queue': seq<Path>)
    requires queue != [] && AllKnown(tree, roots, visited, queue) && Visits(tree, visited, queue, queue')
    ensures AllKnown(tree, roots, visited + {queue[0]}, queue')
  {
    forall q | q in queue' ensures Known(tree, roots, q) {
      if q !in queue[1..] { IncludesAreKnown(tree, roots, queue[0], q); }
    }
  }

  lemma VisitKeepsMet(tree: Tree, roots: seq<Path>, visited: set<Path>, queue: seq<Path>, queue': seq<Path>)
    requires queue != [] && RootsMet(roots, visited, queue) && IncludesMet(tree, visited, queue)
    requires Visits(tree, visited, queue, queue')
    ensures RootsMet(roots, visited + {queue[0]}, queue') && IncludesMet(tree, visited + {queue[0]}, queue')
  {
    forall q | q in queue ensures q in visited + {queue[0]} || q in queue' {
      assert queue == [queue[0]] + queue[1..];
    }
  }

  lemma EmptyQueueIsClosure(tree: Tree, roots: seq<Path>, visited: set<Path>)
    requires AllKnown(tree, roots, visited, []) && RootsMet(roots, visited, []) && IncludesMet(tree, visited, [])
    ensures forall p :: p in visited <==> Reachable(tree, roots, p)
  {
    assert Closed(tree, visited);
    forall p | Reachable(tree, roots, p) ensures p in visited {
      var chain :| |chain| > 0 && chain[0] in roots && Chain(tree, chain) && chain[|chain| - 1] == p;
      ReachableIsLeast(tree, roots, visited, chain);
    }
    assert forall p :: p in visited ==> Known(tree, roots, p);
  }

  class Pruner {
    const tree: Tree
    var visited: set<Path>
    var queue: seq<Path>
    var copied: set<Path>

    constructor (tree: Tree)
      ensures this.tree == tree && visited == {} && queue == [] && copied == {}
    {
      this.tree := tree;
      visited, queue, copied := {}, [], {};
    }

    /** Everything met so far is reachable, the includes of a visited header are visited or
        waiting, and the readable visited headers are copied. */
    ghost predicate Valid(roots: seq<Path>)
      reads this
    {
      && AllKnown(tree, roots, visited, queue)
      && RootsMet(roots, visited, queue) && IncludesMet(tree, visited, queue)
      && Copies(tree, visited, copied)
    }

    /** The unvisited includes of a header, in line order. */
    method Enqueue(includes: seq<Path>)
      modifies this`queue
      ensures forall q :: q in queue <==> q in old(queue) || (q in includes && q !in visited)
      ensures |queue| >= |old(queue)| && queue[..|old(queue)|] == old(queue)
    {
      for i := 0 to |includes|
        invariant forall q :: q in queue <==> q in old(queue) || (q in includes[..i] && q !in visited)
        invariant |queue| >= |old(queue)| && queue[..|old(queue)|] == old(queue)
      {
        assert includes[..i + 1] == includes[..i] + [includes[i]];
        if includes[i] !in visited { queue := queue + [includes[i]]; }
      }
      assert includes[..|includes|] == includes;
    }

    /** `process_file`. */
    method ProcessFile(p: Path)
      modifies this
      ensures p in old(visited) ==> visited == old(visited) && queue == old(queue) && copied == old(copied)
      ensures visited == old(visited) + {p}
      ensures p !in old(visited) ==>
        && copied == (if CanCopy(tree, p) then old(copied) + {p} else old(copied))
        && forall q :: q in queue <==> q in old(queue) || (q in Includes(tree, p) && q !in visited)
    {
      if p in visited { return; }
      visited := visited + {p};
      if p !in tree || tree[p].Unreadable? { return; }
      Enqueue(tree[p].includes);
      copied := copied + {p};
    }

    /** One turn of the loop. */
    method Step(ghost roots: seq<Path>)
      requires Valid(roots) && queue != []
      modifies this
      ensures Valid(roots)
      ensures visited == old(visited) + {old(queue)[0]}
      ensures visited == old(visited) ==> |queue| < |old(queue)|
    {
      ghost var seen, before := visited, queue;
      var p := queue[0];
      queue := queue[1..];
      ProcessFile(p);
      VisitKeepsKnown(tree, roots, seen, before, queue);
      VisitKeepsMet(tree, roots, seen, before, queue);
    }

    /** The loop of `main`: it ends, the headers visited are exactly those reachable from
        the roots, and the copies are the readable ones among them. */
    method Run(roots: seq<Path>)
      requires visited == {} && queue == [] && copied == {}
      modifies this
      ensures queue == []
      ensures forall p :: p in visited <==> Reachable(tree, roots, p)
      ensures Copies(tree, visited, copied)
      ensures forall p, q :: p in copied && q in Includes(tree, p) && CanCopy(tree, q) ==> q in copied
    {
      queue := roots;
      forall r | r in roots ensures Known(tree, roots, r) { RootsAreReachable(tree, roots, r); }
      while queue != []
        invariant Valid(roots)
        decreases Names(tree, roots) - visited, |queue|
      {
        ghost var seen, p := visited, queue[0];
        assert Known(tree, roots, p);
        Step(roots);
        if p !in seen {
          assert p in Names(tree, roots) - seen && p !in Names(tree, roots) - visited;
        } else {
          assert visited == seen;
        }
      }
      EmptyQueueIsClosure(tree, roots, visited);
    }
  }

  /** The copies are the least set that holds the readable roots and every readable header
      included from it; a header that cannot be read has no includes and hides nothing. */
  lemma CopiesAreLeast(tree: Tree, roots: seq<Path>, s: set<Path>, p: Path)
    requires forall r :: r in roots && CanCopy(tree, r) ==> r in s
    requires forall a, b :: a in s && b in Includes(tree, a) && CanCopy(tree, b) ==> b in s
    requires Reachable(tree, roots, p) && CanCopy(tree, p)
    ensures p in s
  {
    var names := Names(tree, roots);
    var larger := s + (set q | q in names && !CanCopy(tree, q));
    forall a, b | a in larger && b in Includes(tree, a) ensures b in larger {
      assert a in tree && a in s;
      assert b in names;
    }
    forall r | r in roots ensures r in larger { assert r in names; }
    var chain :| |chain| > 0 && chain[0] in roots && Chain(tree, chain) && chain[|chain| - 1] == p;
    ReachableIsLeast(tree, roots, larger, chain);
  }
}
