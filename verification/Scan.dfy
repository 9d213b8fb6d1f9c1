/** Building a tree from a directory on disk. */
module Scan {
  import opened Elements
  import opened Catalogs
  import opened Shapes
  import opened Order
  import opened Disks
  import opened Trees
  import opened Listings
  import opened Metadata
  import Diffs

  datatype ScanOpt = ComputeHash | OmitHash

  function Stripped(e: Element, opt: ScanOpt): Element {
    if opt.ComputeHash? then e else e.(hash := "")
  }

  /** The entries of the directories `v`. */
  ghost function Scanned(files: Catalog, opt: ScanOpt, v: set<Path>): Catalog {
    map q | q in files && q.In? && q.dir in v :: Stripped(files[q], opt)
  }

  /** The directories at and below `d`. */
  ghost function Dirs(files: Catalog, d: Path): set<Path> {
    set e | e in files.Keys + {Top} && Under(e, d) && IsDir(files, e)
  }

  /** Every list is sorted. */
  ghost predicate AllSorted(s: Shape) {
    forall b :: s.Has(b) ==> Known(s.Kids(b), s.store) && Sorted(s.Kids(b), s.store)
  }

  lemma SortedStill(l: seq<Addr>, store: Store, store': Store)
    requires Known(l, store) && Sorted(l, store)
    requires forall n :: n in store ==> n in store' && store'[n].elem == store[n].elem
    ensures Known(l, store') && Sorted(l, store')
  {
    hide Before;
  }

  lemma SortedOrdered(s: Shape)
    requires Linked(s) && AllSorted(s)
    ensures Ordered(s)
  {
    hide Linked, Sorted, DirsFirst;
    NamedNodes(s);
    forall b | s.Has(b) ensures DirsFirst(s.Kids(b), s.store) { SortedDirsFirst(s.Kids(b), s.store); }
    OrderedByKids(s);
  }

  /** The directories `v` have been scanned. */
  ghost predicate Scanning(t: DirectoryTree, files: Catalog, opt: ScanOpt, v: set<Path>)
    reads t
  {
    && t.nodes == t.index && Linked(t.State()) && (forall n :: n in t.store ==> n < t.next)
    && t.Contents() == Scanned(files, opt, v) && AllSorted(t.State())
  }

  /** Nodes and elements only join. */
  ghost predicate Grown(s: Shape, s': Shape) {
    && (forall p :: p in s.nodes ==> p in s'.nodes && s'.nodes[p] == s.nodes[p])
    && (forall n :: n in s.store ==> n in s'.store && s'.store[n].elem == s.store[n].elem)
  }

  /** Nodes for the entries of `d` that are not in `todo` have been made. */
  ghost predicate Staged(s: Shape, files: Catalog, opt: ScanOpt, d: Path, k: seq<Addr>, todo: set<Path>) {
    && Linked(s) && Known(k, s.store) && NoDup(k)
    && (forall n :: n in k ==> s.store[n].content == [] && IsChild(s.store[n].elem.rp, d) && s.store[n].elem.rp in files
                               && s.store[n].elem == Stripped(files[s.store[n].elem.rp], opt)
                               && s.store[n].elem.rp !in todo)
    && (forall i, j :: 0 <= i < j < |k| ==> s.store[k[i]].elem.rp != s.store[k[j]].elem.rp)
    && (forall q :: q in files && IsChild(q, d) && q !in todo ==> exists n :: n in k && s.store[n].elem.rp == q)
    && (forall p :: p in s.nodes ==> s.nodes[p] !in k)
  }

  lemma StageOne(s: Shape, n: Addr, files: Catalog, opt: ScanOpt, d: Path, k: seq<Addr>, todo: set<Path>, q: Path)
    requires Staged(s, files, opt, d, k, todo) && n !in s.store && q in todo && q in files && IsChild(q, d)
    requires files[q].rp == q
    ensures Staged(s.(store := s.store[n := Cell(Stripped(files[q], opt), [])]), files, opt, d, k + [n], todo - {q})
  {
    hide Linked, Elems, ListsOf;
    var s' := s.(store := s.store[n := Cell(Stripped(files[q], opt), [])]);
    MoreStore(s, n, Cell(Stripped(files[q], opt), []), k, k + [n]);
    forall r | r in files && IsChild(r, d) && r !in todo - {q}
      ensures exists m :: m in k + [n] && s'.store[m].elem.rp == r {
      if r == q {
        assert n in k + [n];
      } else {
        var m :| m in k && s.store[m].elem.rp == r;
        assert m in k + [n];
      }
    }
  }

  /** Make a node for every entry of a directory, in the order in which the file system lists them. */
  method ListDirectory(t: DirectoryTree, files: Catalog, opt: ScanOpt, d: Path, ghost v: set<Path>)
      returns (k: seq<Addr>)
    requires WellFormed(files) && Scanning(t, files, opt, v)
    modifies t`store, t`next
    ensures Scanning(t, files, opt, v) && Staged(t.State(), files, opt, d, k, {}) && Grown(old(t.State()), t.State())
    ensures ListsOf(t.State()) == old(ListsOf(t.State()))
  {
    hide Linked, ListsOf, Elems, Staged, AllSorted, Scanned, Shape.Contents;
    ghost var s := t.State();
    var todo := set q | q in files && IsChild(q, d);
    k := [];
    NoneStaged(s, files, opt, d, todo);
    while todo != {}
      invariant todo <= set q | q in files && IsChild(q, d)
      invariant Scanning(t, files, opt, v) && Staged(t.State(), files, opt, d, k, todo) && Grown(s, t.State())
      invariant ListsOf(t.State()) == ListsOf(s)
      decreases todo
    {
      var q :| q in todo;
      StageOne(t.State(), t.next, files, opt, d, k, todo, q);
      MoreNode(t.State(), t.next, Cell(Stripped(files[q], opt), []));
      todo := todo - {q};
      k := k + [t.next];
      t.store := t.store[t.next := Cell(Stripped(files[q], opt), [])];
      t.next := t.next + 1;
    }
  }

  lemma NoneStaged(s: Shape, files: Catalog, opt: ScanOpt, d: Path, todo: set<Path>)
    requires Linked(s) && todo == set q | q in files && IsChild(q, d)
    ensures Staged(s, files, opt, d, [], todo)
  {
  }

  lemma MoreNode(s: Shape, n: Addr, c: Cell)
    requires Linked(s) && n !in s.store
    ensures var s' := s.(store := s.store[n := c]);
            Linked(s') && ListsOf(s') == ListsOf(s) && s'.Contents() == s.Contents() && (AllSorted(s) ==> AllSorted(s'))
  {
    hide Elems, ListsOf, Linked, AllSorted;
    MoreStore(s, n, c, [], [] + [n]);
    SameContents(s, n, c);
    if AllSorted(s) { StillSorted(s, n, c); }
  }

  lemma SameContents(s: Shape, n: Addr, c: Cell)
    requires Linked(s) && n !in s.store
    ensures s.(store := s.store[n := c]).Contents() == s.Contents()
  {
    hide Lists;
  }

  lemma StillSorted(s: Shape, n: Addr, c: Cell)
    requires Linked(s) && n !in s.store && AllSorted(s) && Linked(s.(store := s.store[n := c]))
    ensures AllSorted(s.(store := s.store[n := c]))
  {
    hide Sorted, Linked;
    var s' := s.(store := s.store[n := c]);
    NamedNodes(s);
    forall b | s'.Has(b) ensures Known(s'.Kids(b), s'.store) && Sorted(s'.Kids(b), s'.store) {
      assert s.Has(b);
      SortedStill(s.Kids(b), s.store, s'.store);
    }
  }

  // ---------- one directory ----------

  /** A directory whose turn it is: it has been listed itself, and nothing in it has been scanned. */
  ghost predicate Pending(s: Shape, files: Catalog, d: Path, v: set<Path>) {
    && IsDir(files, d) && d !in v && (forall e :: e in v ==> !Under(e, d))
    && (if d == Top then v == {} else d in s.nodes)
  }

  /** A rearranged list is staged as well. */
  lemma StagedSorted(s: Shape, files: Catalog, opt: ScanOpt, d: Path, k: seq<Addr>, r: seq<Addr>)
    requires Staged(s, files, opt, d, k, {}) && multiset(r) == multiset(k)
    ensures Staged(s, files, opt, d, r, {})
  {
    hide Linked, NoDup;
    SameEntries(k, r);
    assert forall n :: n in r <==> n in k;
    assert Known(r, s.store) by { forall i | 0 <= i < |r| ensures r[i] in s.store { assert r[i] in k; } }
    forall i, j | 0 <= i < j < |r| ensures s.store[r[i]].elem.rp != s.store[r[j]].elem.rp {
      DifferentNodes(s, k, r[i], r[j]);
      assert r[i] != r[j] by { Distinct(r, i, j); }
    }
  }

  lemma Distinct(r: seq<Addr>, i: nat, j: nat)
    requires NoDup(r) && i < j < |r|
    ensures r[i] != r[j]
  {
  }

  lemma DifferentNodes(s: Shape, k: seq<Addr>, m: Addr, n: Addr)
    requires Known(k, s.store) && m in k && n in k
    requires forall i, j :: 0 <= i < j < |k| ==> s.store[k[i]].elem.rp != s.store[k[j]].elem.rp
    ensures m != n ==> s.store[m].elem.rp != s.store[n].elem.rp
  {
    var i :| 0 <= i < |k| && k[i] == m;
    var j :| 0 <= j < |k| && k[j] == n;
  }

  /** The list of a pending directory is accepted. */
  lemma PendingAccepted(s: Shape, files: Catalog, opt: ScanOpt, d: Path, v: set<Path>, k: seq<Addr>)
    requires Staged(s, files, opt, d, k, {}) && Pending(s, files, d, v) && s.Contents() == Scanned(files, opt, v)
    ensures Holds(s, Loading(ListsOf(s), s.nodes.Keys, Elems(k, s.store)), k)
    ensures forall e :: e in Elems(k, s.store) ==> e.rp.In?
    ensures Flush(Loading(ListsOf(s), s.nodes.Keys, Elems(k, s.store))).Some?
    ensures k != [] ==> DirOf(Elems(k, s.store)) == d
  {
    hide Linked, ListsOf, NoDup;
    var g := Elems(k, s.store);
    forall e | e in g ensures IsChild(e.rp, d) && e.rp !in s.nodes {
      var i :| 0 <= i < |g| && g[i] == e;
      assert k[i] in k;
      NotThere(s, files, opt, v, e.rp);
    }
    if k != [] {
      assert g[0] in g;
      NoListYet(s, files, opt, d, v);
    }
  }

  lemma NotThere(s: Shape, files: Catalog, opt: ScanOpt, v: set<Path>, p: Path)
    requires Linked(s) && s.Contents() == Scanned(files, opt, v) && p.In? && p.dir !in v
    ensures p !in s.nodes
  {
    hide Lists;
    ContentsAre(s);
    assert p !in Scanned(files, opt, v);
  }

  lemma NoListYet(s: Shape, files: Catalog, opt: ScanOpt, d: Path, v: set<Path>)
    requires Linked(s) && Pending(s, files, d, v) && s.Contents() == Scanned(files, opt, v)
    ensures if ListsOf(s) == map[] then d == Top else ListedDir(ListsOf(s), d) && d !in ListsOf(s)
  {
    hide Linked, Lists, ListsOf;
    ContentsAre(s);
    if d in s.nodes {
      HasList(s, d);
      ListedDirIs(s, d);
    }
    if d in ListsOf(s) {
      var p := SomeKid(s, d);
      NotThere(s, files, opt, v, p);
    }
    if d == Top && ListsOf(s) != map[] {
      var b :| b in ListsOf(s);
      var p := SomeKid(s, b);
      NotThere(s, files, opt, v, p);
    }
  }

  lemma AttachedContents(s: Shape, files: Catalog, opt: ScanOpt, d: Path, v: set<Path>, k: seq<Addr>, nodes: Nodes)
    requires Staged(s, files, opt, d, k, {}) && s.Contents() == Scanned(files, opt, v) && s.Has(d)
    requires Entered(s, k, nodes)
    ensures Attached(s, d, k, nodes).Contents() == Scanned(files, opt, v + {d}) && Grown(s, Attached(s, d, k, nodes))
  {
    hide Linked, NoDup, Shape.Contents, Staged, Entered, Scanned;
    var s' := Attached(s, d, k, nodes);
    forall p ensures Look(s'.Contents(), p) == Look(Scanned(files, opt, v + {d}), p) {
      AttachedLook(s, files, opt, d, v, k, nodes, p);
    }
    assert forall p :: p in s'.Contents() <==> Look(s'.Contents(), p).Some?;
    assert forall p :: p in Scanned(files, opt, v + {d}) <==> Look(Scanned(files, opt, v + {d}), p).Some?;
    GrownAttached(s, d, k, nodes);
  }

  lemma GrownAttached(s: Shape, d: Path, k: seq<Addr>, nodes: Nodes)
    requires s.Has(d) && Entered(s, k, nodes)
    ensures Grown(s, Attached(s, d, k, nodes))
  {
  }

  lemma AttachedLook(s: Shape, files: Catalog, opt: ScanOpt, d: Path, v: set<Path>, k: seq<Addr>, nodes: Nodes, p: Path)
    requires Staged(s, files, opt, d, k, {}) && s.Contents() == Scanned(files, opt, v) && s.Has(d)
    requires Entered(s, k, nodes)
    ensures Look(Attached(s, d, k, nodes).Contents(), p) == Look(Scanned(files, opt, v + {d}), p)
  {
    hide Linked, NoDup, Shape.Contents, Scanned;
    var s' := Attached(s, d, k, nodes);
    NamedNodes(s);
    ContentsAt(s, p);
    ContentsAt(s', p);
    ScannedAt(files, opt, v, p);
    ScannedAt(files, opt, v + {d}, p);
    if p !in s.nodes && p in files && IsChild(p, d) {
      var n :| n in k && s.store[n].elem.rp == p;
    }
  }

  lemma NamedNodes(s: Shape)
    requires Linked(s)
    ensures Named(s.nodes, s.store) && s.base !in s.nodes
  {
  }

  lemma ContentsAt(s: Shape, p: Path)
    ensures Look(s.Contents(), p) ==
            if p in s.nodes && s.nodes[p] in s.store then Some(s.store[s.nodes[p]].elem) else None
  {
  }

  lemma ScannedAt(files: Catalog, opt: ScanOpt, v: set<Path>, p: Path)
    ensures Look(Scanned(files, opt, v), p) ==
            if p in files && p.In? && p.dir in v then Some(Stripped(files[p], opt)) else None
  {
  }

  lemma AttachedSorted(s: Shape, d: Path, k: seq<Addr>, nodes: Nodes)
    requires Linked(s) && s.Has(d) && s.Kids(d) == [] && Joining(s, d, k) && Entered(s, k, nodes) && AllSorted(s)
    requires Known(k, s.store) && Sorted(k, s.store) && k != []
    ensures AllSorted(Attached(s, d, k, nodes))
  {
    hide Linked, Joining, NoDup, Sorted;
    var s' := Attached(s, d, k, nodes);
    AttachedLinked(s, d, k, nodes);
    NamedNodes(s');
    forall b | s'.Has(b) ensures Known(s'.Kids(b), s'.store) && Sorted(s'.Kids(b), s'.store) {
      AttachedKids(s, d, k, nodes, b);
      if b == d {
        SortedStill(k, s.store, s'.store);
      } else if s.Has(b) {
        SortedStill(s.Kids(b), s.store, s'.store);
      } else {
        NothingSorted(s'.store);
      }
    }
  }

  lemma NothingSorted(store: Store)
    ensures Sorted([], store)
  {
  }

  /** The nodes in `k` are those of the entries of `d`. */
  ghost predicate EntryNodes(s: Shape, files: Catalog, d: Path, k: seq<Addr>) {
    && Known(k, s.store) && NoDup(k)
    && (forall n :: n in k ==> IsChild(s.store[n].elem.rp, d) && s.store[n].elem.rp in files
                               && s.store[n].elem.rp in s.nodes && s.nodes[s.store[n].elem.rp] == n
                               && s.store[n].elem.ty == files[s.store[n].elem.rp].ty)
    && (forall q :: q in files && IsChild(q, d) ==> q in s.nodes && s.nodes[q] in k && s.store[s.nodes[q]].elem.rp == q)
  }

  /** Scan one directory, but not those in it. */
  method BuildList(t: DirectoryTree, files: Catalog, opt: ScanOpt, d: Path, ghost v: set<Path>) returns (k: seq<Addr>)
    requires WellFormed(files) && Scanning(t, files, opt, v) && Pending(t.State(), files, d, v)
    modifies t
    ensures Scanning(t, files, opt, v + {d}) && Grown(old(t.State()), t.State()) && t.disk == old(t.disk)
    ensures EntryNodes(t.State(), files, d, k)
  {
    hide Linked, ListsOf, Elems, AllSorted, Scanned, Shape.Contents, Sorted, Flush, Joining, Entered, Staged, Grown,
         EntryNodes, NoDup, Acceptable, WellFormed, InPathOrder;
    ghost var s0 := t.State();
    k := ListDirectory(t, files, opt, d, v);
    ghost var s := t.State();
    StagedFacts(s, files, opt, d, k);
    var sorted := Sort(k, t.store);
    StagedSorted(s, files, opt, d, k, sorted);
    k := sorted;
    StagedFacts(s, files, opt, d, k);
    StillPending(s0, s, files, d, v);
    PendingAccepted(s, files, opt, d, v, k);
    var ok := Add(t, k, Loading(ListsOf(s), s.nodes.Keys, Elems(k, s.store)));
    BuiltList(s, t.State(), files, opt, d, v, k);
    GrownTrans(s0, s, t.State());
  }

  lemma StagedFacts(s: Shape, files: Catalog, opt: ScanOpt, d: Path, k: seq<Addr>)
    requires Staged(s, files, opt, d, k, {})
    ensures Known(k, s.store) && Linked(s)
  {
  }

  lemma StillPending(s: Shape, s': Shape, files: Catalog, d: Path, v: set<Path>)
    requires Pending(s, files, d, v) && Grown(s, s')
    ensures Pending(s', files, d, v)
  {
  }

  lemma GrownTrans(s: Shape, s': Shape, s'': Shape)
    requires Grown(s, s') && Grown(s', s'')
    ensures Grown(s, s'')
  {
  }

  lemma BuiltList(s: Shape, s': Shape, files: Catalog, opt: ScanOpt, d: Path, v: set<Path>, k: seq<Addr>)
    requires Staged(s, files, opt, d, k, {}) && s.Contents() == Scanned(files, opt, v) && AllSorted(s)
    requires Known(k, s.store) && Sorted(k, s.store)
    requires k == [] ==> s' == s
    requires k != [] ==> s.Has(d) && s.Kids(d) == [] && Joining(s, d, k) && Entered(s, k, s'.nodes)
    requires k != [] ==> s' == Attached(s, d, k, s'.nodes)
    ensures s'.Contents() == Scanned(files, opt, v + {d}) && Grown(s, s') && AllSorted(s')
    ensures EntryNodes(s', files, d, k)
  {
    hide Linked, AllSorted, Shape.Contents, Joining, NoDup, Sorted, Scanned;
    if k == [] {
      NothingNew(files, opt, d, v);
    } else {
      AttachedContents(s, files, opt, d, v, k, s'.nodes);
      AttachedSorted(s, d, k, s'.nodes);
    }
  }

  lemma NothingNew(files: Catalog, opt: ScanOpt, d: Path, v: set<Path>)
    requires forall q :: q in files ==> !IsChild(q, d)
    ensures Scanned(files, opt, v + {d}) == Scanned(files, opt, v)
  {
  }

  // ---------- the whole directory ----------

  /** The directories at and below the paths `cs`. */
  ghost function Covered(files: Catalog, cs: seq<Path>): set<Path> {
    set e | e in files.Keys && IsDir(files, e) && exists c :: c in cs && Under(e, c)
  }

  lemma CoveredMore(files: Catalog, cs: seq<Path>, i: nat)
    requires WellFormed(files) && i < |cs| && cs[i] in files
    ensures Covered(files, cs[..i + 1]) == Covered(files, cs[..i]) + Dirs(files, cs[i])
    ensures !files[cs[i]].ty.Directory? ==> Dirs(files, cs[i]) == {}
  {
    assert cs[..i + 1] == cs[..i] + [cs[i]];
    var c := cs[i];
    assert c in cs[..i + 1];
    forall e | e in Dirs(files, c) ensures e in files.Keys && files[c].ty.Directory? {
      if e == Top { UnderIsDeeper(e, c); } else if e != c { Ancestor(files, e, c); }
    }
    forall e | e in Covered(files, cs[..i]) ensures e in Covered(files, cs[..i + 1]) {
      var x :| x in cs[..i] && Under(e, x);
      assert x in cs[..i + 1];
    }
  }

  lemma CoveredAll(files: Catalog, cs: seq<Path>, d: Path)
    requires WellFormed(files) && IsDir(files, d) && (forall c :: c in cs <==> c in files && IsChild(c, d))
    ensures {d} + Covered(files, cs) == Dirs(files, d)
  {
    forall e | e in Covered(files, cs) ensures Under(e, d) {
      var c :| c in cs && Under(e, c);
      UnderTrans(e, c, d);
    }
    forall e | e in Dirs(files, d) && e != d ensures e in Covered(files, cs) {
      var c := Diffs.ChildDir(files, d, e);
      if e == Top { UnderIsDeeper(e, c); }
    }
  }

  /** The paths of the nodes in a list. */
  ghost function PathsIn(s: Shape, k: seq<Addr>): (cs: seq<Path>)
    requires Known(k, s.store)
    ensures |cs| == |k| && forall i :: 0 <= i < |k| ==> cs[i] == s.store[k[i]].elem.rp
  {
    seq(|k|, i requires 0 <= i < |k| => s.store[k[i]].elem.rp)
  }

  lemma KidPaths(s: Shape, files: Catalog, d: Path, k: seq<Addr>)
    requires EntryNodes(s, files, d, k) && Named(s.nodes, s.store)
    ensures Known(k, s.store)
    ensures forall c :: c in PathsIn(s, k) <==> c in files && IsChild(c, d)
    ensures NoDup(PathsIn(s, k))
  {
    var cs := PathsIn(s, k);
    forall c | c in cs ensures c in files && IsChild(c, d) {
      var i :| 0 <= i < |cs| && cs[i] == c;
      assert k[i] in k;
    }
    forall c | c in files && IsChild(c, d) ensures c in cs {
      var i :| 0 <= i < |k| && k[i] == s.nodes[c];
      assert cs[i] == c;
    }
    forall i, j | 0 <= i < j < |cs| ensures cs[i] != cs[j] {
      assert k[i] in k && k[j] in k && k[i] != k[j];
    }
  }

  /** The next directory of the list is pending. */
  lemma NextPending(s: Shape, files: Catalog, d: Path, v: set<Path>, cs: seq<Path>, i: nat)
    requires WellFormed(files) && i < |cs| && NoDup(cs) && (forall c :: c in cs <==> c in files && IsChild(c, d))
    requires (forall e :: e in v ==> !Under(e, d)) && cs[i] in s.nodes && files[cs[i]].ty.Directory?
    ensures Pending(s, files, cs[i], v + {d} + Covered(files, cs[..i]))
  {
    var c := cs[i];
    assert c in cs;
    ChildDeeper(c, d);
    forall e | e in v + {d} + Covered(files, cs[..i]) ensures !Under(e, c) {
      if Under(e, c) {
        if e == d {
          UnderIsDeeper(e, c);
        } else if e in v {
          UnderTrans(e, c, d);
        } else {
          var x :| x in cs[..i] && Under(e, x);
          assert x in cs;
          Siblings(e, c, x, d);
        }
      }
    }
  }

  ghost function Below(files: Catalog, d: Path): set<Path> {
    set q | q in files && Under(q, d) && q != d
  }

  /** Scan a directory and everything below it. */
  method RecursiveBuildFromPath(t: DirectoryTree, files: Catalog, opt: ScanOpt, d: Path, ghost v: set<Path>)
    requires WellFormed(files) && Scanning(t, files, opt, v) && Pending(t.State(), files, d, v)
    modifies t
    ensures Scanning(t, files, opt, v + Dirs(files, d)) && Grown(old(t.State()), t.State()) && t.disk == old(t.disk)
    decreases Below(files, d)
  {
    hide Linked, AllSorted, Scanned, Shape.Contents, EntryNodes, NoDup, WellFormed, Covered, Dirs, Scanning, Grown,
         Pending, Below;
    ghost var s0 := t.State();
    PendingFacts(s0, files, d, v);
    var k := BuildList(t, files, opt, d, v);
    ghost var s := t.State();
    ScanningNamed(t, files, opt, v + {d});
    KidPaths(s, files, d, k);
    ghost var cs := PathsIn(s, k);
    CoveredNone(files, s);
    assert v + {d} + {} == v + {d} && cs[..0] == [];
    for i := 0 to |k|
      invariant Scanning(t, files, opt, v + {d} + Covered(files, cs[..i])) && Grown(s, t.State())
      invariant t.disk == old(t.disk)
    {
      StillKid(s, t.State(), files, d, k, i);
      assert cs[i] in cs;
      CoveredMore(files, cs, i);
      var e := t.store[k[i]].elem;
      ghost var w := v + {d} + Covered(files, cs[..i]);
      assert w + Dirs(files, cs[i]) == v + {d} + Covered(files, cs[..i + 1]);
      ghost var s1 := t.State();
      if e.ty.Directory? {
        NextPending(t.State(), files, d, v, cs, i);
        FewerBelow(files, cs[i], d);
        RecursiveBuildFromPath(t, files, opt, e.rp, w);
        GrownTrans(s, s1, t.State());
      } else {
        assert w + {} == w;
      }
    }
    assert cs[..|k|] == cs;
    CoveredAll(files, cs, d);
    assert v + {d} + Covered(files, cs) == v + Dirs(files, d);
    GrownTrans(s0, s, t.State());
  }

  lemma PendingFacts(s: Shape, files: Catalog, d: Path, v: set<Path>)
    requires Pending(s, files, d, v)
    ensures IsDir(files, d) && forall e :: e in v ==> !Under(e, d)
  {
  }

  lemma ScanningNamed(t: DirectoryTree, files: Catalog, opt: ScanOpt, v: set<Path>)
    requires Scanning(t, files, opt, v)
    ensures Named(t.nodes, t.store)
  {
  }

  lemma CoveredNone(files: Catalog, s: Shape)
    ensures Covered(files, []) == {} && Grown(s, s)
  {
  }

  lemma StillKid(s: Shape, s': Shape, files: Catalog, d: Path, k: seq<Addr>, i: nat)
    requires EntryNodes(s, files, d, k) && Grown(s, s') && i < |k|
    ensures k[i] in s.store && k[i] in s'.store && s'.store[k[i]].elem.rp == s.store[k[i]].elem.rp
    ensures s.store[k[i]].elem.rp in files && s'.store[k[i]].elem.ty == files[s.store[k[i]].elem.rp].ty
    ensures s.store[k[i]].elem.rp in s'.nodes
  {
    assert k[i] in k;
  }

  lemma FewerBelow(files: Catalog, c: Path, d: Path)
    requires c in files && IsChild(c, d)
    ensures Below(files, c) < Below(files, d)
  {
    var a, b := Below(files, c), Below(files, d);
    ChildDeeper(c, d);
    forall q | q in a ensures q in b {
      UnderTrans(q, c, d);
      UnderIsDeeper(q, c);
    }
    assert c in b && c !in a;
  }

  /**
   * Scan a directory: the tree is indexed completely, describes the directory, and its lists are sorted, which puts
   * the directories first.
   */
  method ScanDirectory(t: DirectoryTree, disk: Disk, opt: ScanOpt)
    requires disk.Valid()
    modifies t
    ensures t.Valid() && t.Unindexed() == {} && t.disk == disk && t.Mirrored() && AllSorted(t.State())
    ensures t.Contents() == map p | p in disk.files :: Stripped(disk.files[p], opt)
  {
    hide Linked, ListsOf, AllSorted, Scanned, Shape.Contents, Shape.Wired, WellFormed, AllSane, Scanning, Dirs, Pending;
    Clear(t);
    t.disk := disk;
    StartScan(t, disk.files, opt);
    RecursiveBuildFromPath(t, disk.files, opt, Top, {});
    assert {} + Dirs(disk.files, Top) == Dirs(disk.files, Top);
    ScanDone(t, disk.files, opt);
  }

  lemma StartScan(t: DirectoryTree, files: Catalog, opt: ScanOpt)
    requires Building(t, NOTHING, [])
    ensures Scanning(t, files, opt, {}) && Pending(t.State(), files, Top, {})
  {
    hide ListsOf;
    var s := t.State();
    assert s.nodes == map[];
    EmptyLists(s);
    assert s.Contents() == map[] && Scanned(files, opt, {}) == map[];
  }

  lemma EmptyLists(s: Shape)
    requires Linked(s) && s.nodes == map[]
    ensures AllSorted(s)
  {
    forall b | s.Has(b) ensures Known(s.Kids(b), s.store) && Sorted(s.Kids(b), s.store) {
      assert Lists(s.Kids(b), s.nodes, s.store, b);
    }
  }

  lemma ScanDone(t: DirectoryTree, files: Catalog, opt: ScanOpt)
    requires WellFormed(files) && Scanning(t, files, opt, Dirs(files, Top))
    ensures t.Valid() && t.Unindexed() == {} && AllSorted(t.State())
    ensures t.Contents() == map p | p in files :: Stripped(files[p], opt)
    ensures Mirrors(t.Contents(), files)
  {
    hide Linked, ListsOf, AllSorted, Shape.Contents, Shape.Wired, Ordered;
    SortedOrdered(t.State());
    forall p | p in files ensures p.In? && p.dir in Dirs(files, Top) { UnderTop(p.dir); }
    assert Scanned(files, opt, Dirs(files, Top)) == map p | p in files :: Stripped(files[p], opt);
    ScannedWired(t.State(), files, opt);
    ContentsAre(t.State());
  }

  lemma ScannedWired(s: Shape, files: Catalog, opt: ScanOpt)
    requires WellFormed(files) && Linked(s) && s.Contents() == map p | p in files :: Stripped(files[p], opt)
    ensures s.Wired()
  {
    hide Linked, ListsOf, Shape.Contents, Shape.Wired;
    forall d | d in ListsOf(s) ensures IsDir(s.Contents(), d) {
      var p := SomeKid(s, d);
      ContentsAre(s);
      assert p in files && IsDir(files, p.dir);
    }
    LinkedIsWired(s);
  }
}
