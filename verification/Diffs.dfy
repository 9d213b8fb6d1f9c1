/** The two-way and the three-way diff, and the path-by-path comparison they refine. */
module Diffs {
  import opened Elements
  import opened Catalogs
  import opened Shapes
  import opened Trees

  datatype Line2 = Line2(a: Option<Element>, b: Option<Element>)
  datatype Line3 = Line3(a: Option<Element>, b: Option<Element>, c: Option<Element>)

  // ---------- what is reported ----------

  /** An entry is missing on one side, or the entries compare unequal. */
  predicate Differ2(x: Option<Element>, y: Option<Element>, opt: CompareOpt) {
    match (x, y)
    case (None, None) => false
    case (Some(e), Some(f)) => !Compare(e, f, opt)
    case _ => true
  }

  /** The comparison goes down common directories and reports what differs in them. */
  predicate Reported2(a: Catalog, b: Catalog, opt: CompareOpt, p: Path) {
    p.In? && IsDir(a, p.dir) && IsDir(b, p.dir) && Differ2(Look(a, p), Look(b, p), opt)
  }

  function LineAt2(a: Catalog, b: Catalog, p: Path): Line2 {
    Line2(Look(a, p), Look(b, p))
  }

  /** The lines of a list of paths. */
  ghost function Lines2(a: Catalog, b: Catalog, ps: seq<Path>): seq<Line2> {
    seq(|ps|, i requires 0 <= i < |ps| => LineAt2(a, b, ps[i]))
  }

  /** No path comes twice, and none comes after something below it. */
  ghost predicate TopDown(ps: seq<Path>) {
    forall i, j :: 0 <= i < j < |ps| ==> !Under(ps[i], ps[j])
  }

  /** `ps` lists the reported paths strictly below `d`. */
  ghost predicate Covers2(ps: seq<Path>, a: Catalog, b: Catalog, opt: CompareOpt, d: Path) {
    forall p :: p in ps <==> Reported2(a, b, opt, p) && Under(p, d) && p != d
  }

  /** The paths of the entries of two lists. */
  method Names(t: DirectoryTree, l: seq<Addr>, ghost d: Path) returns (names: set<Path>)
    requires t.Valid() && t.State().Has(d) && l == t.State().Kids(d)
    ensures names == set p | p in t.Contents() && IsChild(p, d)
  {
    hide Shape.Wired, Indexed, Ordered;
    KidsOf(t.State(), d);
    t.Facts();
    names := {};
    for i := 0 to |l|
      invariant forall p :: p in names ==> p in t.nodes && IsChild(p, d)
      invariant forall j :: 0 <= j < i ==> t.store[l[j]].elem.rp in names
    {
      names := names + {t.store[l[i]].elem.rp};
    }
    forall p | p in t.nodes && IsChild(p, d) ensures p in names {
      var j :| 0 <= j < |l| && l[j] == t.nodes[p];
    }
  }

  lemma SiblingsApart(x: Path, y: Path, d: Path)
    requires IsChild(x, d) && IsChild(y, d) && x != y
    ensures !Under(x, y)
  {
    if Under(x, y) { Siblings(x, x, y, d); }
  }

  /** One more sibling in a list. */
  lemma TopDownStep(ps: seq<Path>, p: Path, d: Path)
    requires TopDown(ps) && (forall q :: q in ps ==> IsChild(q, d)) && IsChild(p, d) && p !in ps
    ensures TopDown(ps + [p])
  {
    forall i | 0 <= i < |ps| ensures !Under(ps[i], p) { SiblingsApart(ps[i], p, d); }
  }

  lemma Lines2Empty(a: Catalog, b: Catalog)
    ensures Lines2(a, b, []) == [] && TopDown([])
  {
  }

  lemma Lines2Step(a: Catalog, b: Catalog, ps: seq<Path>, p: Path)
    ensures Lines2(a, b, ps + [p]) == Lines2(a, b, ps) + [LineAt2(a, b, p)]
  {
  }

  /** `p` lies strictly below one of the directories. */
  ghost predicate BelowSome(p: Path, cs: seq<Path>) {
    exists c :: c in cs && Under(p, c) && p != c
  }

  lemma NoneBelow(cs: seq<Path>)
    ensures forall p :: !BelowSome(p, cs[..0])
  {
  }

  lemma BelowStep(cs: seq<Path>, i: nat)
    requires i < |cs|
    ensures forall p :: BelowSome(p, cs[..i + 1]) <==> BelowSome(p, cs[..i]) || (Under(p, cs[i]) && p != cs[i])
  {
    forall p ensures BelowSome(p, cs[..i + 1]) <==> BelowSome(p, cs[..i]) || (Under(p, cs[i]) && p != cs[i]) {
      assert cs[..i + 1] == cs[..i] + [cs[i]];
      if BelowSome(p, cs[..i]) {
        var c :| c in cs[..i] && Under(p, c) && p != c;
        assert c in cs[..i + 1];
      }
      if Under(p, cs[i]) && p != cs[i] { assert cs[i] in cs[..i + 1]; }
    }
  }

  /** The paths below a directory. */
  ghost function Strictly(s: Shape, d: Path): set<Path> {
    Beneath(s, d) - {d}
  }

  lemma StrictlyLess(s: Shape, c: Path, d: Path)
    requires c in s.nodes && IsChild(c, d)
    ensures Strictly(s, c) < Strictly(s, d)
  {
    forall q | q in Strictly(s, c) ensures q in Strictly(s, d) {
      UnderTrans(q, c, d);
      UnderIsDeeper(q, c);
    }
    assert Depth(c) == Depth(d) + 1;
    assert Under(c, d) by { assert Under(d, d); }
    assert c in Strictly(s, d);
  }

  /** What is found below one more directory goes to the end of the list. */
  lemma TopDownJoin(ps: seq<Path>, sub: seq<Path>, cs: seq<Path>, i: nat, d: Path)
    requires TopDown(ps) && TopDown(sub) && i < |cs| && NoDup(cs) && (forall c :: c in cs ==> IsChild(c, d))
    requires forall x :: x in ps ==> IsChild(x, d) || BelowSome(x, cs[..i])
    requires forall y :: y in sub ==> Under(y, cs[i]) && y != cs[i]
    ensures TopDown(ps + sub)
  {
    forall x, y | x in ps && y in sub ensures !Under(x, y) {
      UnderIsDeeper(y, cs[i]);
      assert IsChild(cs[i], d) && Depth(cs[i]) == Depth(d) + 1;
      if Under(x, y) {
        UnderIsDeeper(x, y);
        UnderTrans(x, y, cs[i]);
        assert Depth(x) > Depth(d) + 1 && !IsChild(x, d);
        var c :| c in cs[..i] && Under(x, c) && x != c;
        var j :| 0 <= j < i && cs[j] == c;
        Siblings(x, c, cs[i], d);
      }
    }
  }

  lemma Lines2Join(a: Catalog, b: Catalog, ps: seq<Path>, qs: seq<Path>)
    ensures Lines2(a, b, ps + qs) == Lines2(a, b, ps) + Lines2(a, b, qs)
  {
  }

  /** A directory strictly below `d` lies at or below an entry of `d` that is a directory too. */
  lemma {:induction false} ChildDir(m: Catalog, d: Path, q: Path) returns (c: Path)
    requires WellFormed(m) && IsDir(m, q) && Under(q, d) && q != d
    ensures IsChild(c, d) && Under(q, c) && c in m && m[c].ty.Directory?
  {
    if q.dir == d {
      c := q;
    } else {
      c := ChildDir(m, d, q.dir);
    }
  }

  /** Everything reported below `d` is an entry of `d` or lies below a common directory in `d`. */
  lemma Cover2(a: Catalog, b: Catalog, opt: CompareOpt, d: Path, top: seq<Path>, cs: seq<Path>, p: Path)
    requires WellFormed(a) && WellFormed(b) && IsDir(a, d) && IsDir(b, d)
    requires forall q :: q in top <==> IsChild(q, d) && Differ2(Look(a, q), Look(b, q), opt)
    requires forall c :: c in cs <==> IsChild(c, d) && IsDirOpt(Look(a, c)) && IsDirOpt(Look(b, c))
    ensures Reported2(a, b, opt, p) && Under(p, d) && p != d
       <==> p in top || (Reported2(a, b, opt, p) && BelowSome(p, cs))
  {
    if Reported2(a, b, opt, p) && Under(p, d) && p != d && p.dir != d {
      var c := ChildDir(a, d, p.dir);
      var c' := ChildDir(b, d, p.dir);
      Siblings(p.dir, c, c', d);
      UnderIsDeeper(p.dir, c);
      assert c in cs && Under(p, c);
    }
    if BelowSome(p, cs) {
      var c :| c in cs && Under(p, c) && p != c;
      UnderTrans(p, c, d);
      UnderIsDeeper(p, c);
    }
    if p in top { assert p != d by { UnderIsDeeper(p, d); } }
  }

  /** Where the comparison of two trees goes, a list has a path that neither index has. */
  ghost predicate Stray2(a: DirectoryTree, b: DirectoryTree, p: Path)
    reads a, b
  {
    && p.In? && IsDir(a.Seen(), p.dir) && IsDir(b.Seen(), p.dir)
    && (p in a.Contents() || p in b.Contents()) && p !in a.Seen() && p !in b.Seen()
  }

  class Diff2Helper {
    const a: DirectoryTree
    const b: DirectoryTree
    const opt: CompareOpt
    var result: seq<Line2>

    constructor (a: DirectoryTree, b: DirectoryTree, opt: CompareOpt)
      ensures this.a == a && this.b == b && this.opt == opt && result == []
    {
      this.a, this.b, this.opt := a, b, opt;
      result := [];
    }

    ghost predicate Usable()
      reads a, b
    {
      a.Valid() && b.Valid()
    }

    /** The nodes of `p` in both trees, if both are directories. */
    ghost predicate Common(p: Path, n: (Addr, Addr))
      reads a, b
    {
      Both(p) && p in a.nodes && p in b.nodes && n == (a.nodes[p], b.nodes[p])
    }

    ghost predicate Both(p: Path)
      reads a, b
    {
      IsDirOpt(Look(a.Seen(), p)) && IsDirOpt(Look(b.Seen(), p))
    }

    ghost predicate Differs(p: Path)
      reads a, b
    {
      Differ2(Look(a.Seen(), p), Look(b.Seen(), p), opt)
    }

    ghost predicate EntryName(p: Path, d: Path)
      reads a, b
    {
      IsChild(p, d) && (p in a.Contents() || p in b.Contents())
    }

    /** The comparison survives everything below `d`. */
    ghost predicate ClearBelow(d: Path)
      reads a, b
    {
      forall p :: Under(p, d) && p != d ==> !Stray2(a, b, p)
    }

    ghost function LinesAt(ps: seq<Path>): seq<Line2>
      reads a, b
    {
      Lines2(a.Seen(), b.Seen(), ps)
    }

    /** Compare one level: report what differs, and return the common directories to go down. */
    method Level(names: set<Path>, ghost d: Path)
        returns (ok: bool, common: seq<(Addr, Addr)>, ghost cs: seq<Path>, ghost ps: seq<Path>)
      requires Usable() && IsDir(a.Seen(), d) && IsDir(b.Seen(), d)
      requires forall p :: p in names ==> EntryName(p, d) && IsChild(p, d)
      modifies this
      ensures ok <==> forall p :: p in names ==> !Stray2(a, b, p)
      ensures ok ==> result == old(result) + LinesAt(ps) && TopDown(ps)
      ensures ok ==> forall p :: p in ps <==> p in names && Differs(p)
      ensures ok ==> |cs| == |common| && NoDup(cs) && forall i :: 0 <= i < |cs| ==> Common(cs[i], common[i])
      ensures ok ==> forall p :: p in cs <==> p in names && Both(p)
    {
      hide Shape.Wired, Indexed, Ordered, Shape.Contents, Lines2, TopDown, Differs, Both, Common, Usable, Stray2,
           EntryName, DirectoryTree.Seen;
      common, cs, ps := [], [], [];
      Lines2Empty(a.Seen(), b.Seen());
      var todo := names;
      while todo != {}
        invariant todo <= names && forall p :: p in names - todo ==> !Stray2(a, b, p)
        invariant result == old(result) + LinesAt(ps) && TopDown(ps)
        invariant forall p :: p in ps <==> p in names - todo && Differs(p)
        invariant |cs| == |common| && NoDup(cs) && forall i :: 0 <= i < |cs| ==> Common(cs[i], common[i])
        invariant forall p :: p in cs <==> p in names - todo && Both(p)
        decreases todo
      {
        var p :| p in todo;
        todo := todo - {p};
        var bad, both, n := CompareOne(p, d);
        if bad { return false, common, cs, ps; }
        TopDownStep(ps, p, d);
        Lines2Step(a.Seen(), b.Seen(), ps, p);
        ps := if Differs(p) then ps + [p] else ps;
        if both {
          common := common + [n];
          cs := cs + [p];
        }
      }
      ok := true;
    }

    method CompareOne(p: Path, ghost d: Path) returns (bad: bool, both: bool, n: (Addr, Addr))
      requires Usable() && EntryName(p, d) && IsDir(a.Seen(), d) && IsDir(b.Seen(), d)
      modifies this
      ensures bad <==> Stray2(a, b, p)
      ensures result == old(result) + if Differs(p) then [LineAt2(a.Seen(), b.Seen(), p)] else []
      ensures (both <==> Both(p)) && (both ==> Common(p, n))
    {
      hide Shape.Wired, Indexed, Ordered, Shape.Contents, DirectoryTree.Seen;
      a.SeenFacts();
      b.SeenFacts();
      var x, y := a.Search(p), b.Search(p);
      bad := x.None? && y.None?;
      if Differ2(x, y, opt) {
        result := result + [Line2(x, y)];
      }
      both := IsDirOpt(x) && IsDirOpt(y);
      n := if both then (a.index[p], b.index[p]) else (0, 0);
    }

    method AllNames(la: seq<Addr>, lb: seq<Addr>, ghost d: Path) returns (names: set<Path>)
      requires Usable() && a.State().Has(d) && b.State().Has(d) && la == a.State().Kids(d) && lb == b.State().Kids(d)
      ensures forall p :: p in names <==> EntryName(p, d)
      ensures forall p :: p in names ==> IsChild(p, d)
    {
      hide Shape.Wired, Indexed, Ordered, Shape.Contents;
      var na := Names(a, la, d);
      var nb := Names(b, lb, d);
      names := na + nb;
    }

    ghost predicate Found(ps: seq<Path>, d: Path)
      reads a, b
    {
      TopDown(ps) && Covers2(ps, a.Seen(), b.Seen(), opt, d)
    }

    method RecursiveCompare(la: seq<Addr>, lb: seq<Addr>, ghost d: Path) returns (ok: bool, ghost ps: seq<Path>)
      requires Usable() && a.State().Has(d) && b.State().Has(d) && la == a.State().Kids(d) && lb == b.State().Kids(d)
      requires IsDir(a.Seen(), d) && IsDir(b.Seen(), d)
      modifies this
      ensures ok <==> ClearBelow(d)
      ensures ok ==> Found(ps, d) && result == old(result) + LinesAt(ps)
      decreases Strictly(a.State(), d), 1
    {
      hide Shape.Wired, Indexed, Ordered, Shape.Contents, NoDup, Strictly, Differs, Both, Common, Found, ClearBelow,
           Lines2, EntryName, Stray2, Usable, DirectoryTree.Seen;
      ps := [];
      var names := AllNames(la, lb, d);
      var common;
      ghost var cs, top;
      ok, common, cs, top := Level(names, d);
      ClearSplit(names, d, cs);
      if !ok { return; }
      ok, ps := Descend(common, d, cs, top);
      if !ok { return; }
      FoundAll(names, d, cs, top, ps);
      Lines2Join(a.Seen(), b.Seen(), top, ps);
      ps := top + ps;
    }

    /**
     * The comparison survives everything below `d` if it survives the entries of `d` and what is below each directory.
     */
    lemma ClearSplit(names: set<Path>, d: Path, cs: seq<Path>)
      requires Usable() && IsDir(a.Seen(), d) && IsDir(b.Seen(), d) && (forall p :: p in names <==> EntryName(p, d))
      ensures (exists p :: p in names && Stray2(a, b, p)) ==> !ClearBelow(d)
      ensures (exists i :: 0 <= i < |cs| && IsChild(cs[i], d) && !ClearBelow(cs[i])) ==> !ClearBelow(d)
      ensures && (forall p :: p in cs <==> p in names && Both(p))
              && (forall p :: p in names ==> !Stray2(a, b, p)) && (forall i :: 0 <= i < |cs| ==> ClearBelow(cs[i]))
              ==> ClearBelow(d)
    {
      hide Shape.Wired, Indexed, Ordered, Shape.Contents, DirectoryTree.Seen, Stray2;
      forall p | p in names ensures Under(p, d) && p != d { ChildDeeper(p, d); }
      forall p, q | IsChild(q, d) && Under(p, q) ensures Under(p, d) && p != d {
        UnderTrans(p, q, d);
        UnderIsDeeper(p, q);
      }
      if && (forall p :: p in cs <==> p in names && Both(p))
         && (forall p :: p in names ==> !Stray2(a, b, p)) && (forall i :: 0 <= i < |cs| ==> ClearBelow(cs[i])) {
        forall p | Under(p, d) && p != d ensures !Stray2(a, b, p) {
          if Stray2(a, b, p) { StrayBelow(names, d, cs, p); }
        }
      }
    }

    lemma StrayBelow(names: set<Path>, d: Path, cs: seq<Path>, p: Path)
      requires Usable() && (forall q :: q in names <==> EntryName(q, d))
      requires forall q :: q in cs <==> q in names && Both(q)
      requires Stray2(a, b, p) && Under(p, d) && p != d
      ensures p in names || BelowSome(p, cs)
    {
      hide Shape.Wired, Indexed, Ordered, Shape.Contents, DirectoryTree.Seen;
      a.SeenFacts();
      b.SeenFacts();
      if p.dir != d {
        var c := ChildDir(a.Seen(), d, p.dir);
        var c' := ChildDir(b.Seen(), d, p.dir);
        Siblings(p.dir, c, c', d);
        UnderIsDeeper(p.dir, c);
        assert c in cs && Under(p, c);
      }
    }

    lemma FoundAll(names: set<Path>, d: Path, cs: seq<Path>, top: seq<Path>, ps: seq<Path>)
      requires Usable() && IsDir(a.Seen(), d) && IsDir(b.Seen(), d)
      requires forall p :: p in names <==> EntryName(p, d)
      requires forall p :: p in cs <==> p in names && Both(p)
      requires forall p :: p in top <==> p in names && Differs(p)
      requires TopDown(top + ps)
      requires forall p :: p in ps <==> Reported2(a.Seen(), b.Seen(), opt, p) && BelowSome(p, cs)
      ensures Found(top + ps, d)
    {
      hide Shape.Wired, Indexed, Ordered, Shape.Contents, Reported2, BelowSome, TopDown, DirectoryTree.Seen, WellFormed;
      var ma, mb := a.Seen(), b.Seen();
      a.SeenFacts();
      b.SeenFacts();
      forall p ensures Reported2(ma, mb, opt, p) && Under(p, d) && p != d <==> p in top + ps {
        Cover2(ma, mb, opt, d, top, cs, p);
      }
    }

    /** Go down the common directories of one level. */
    method Descend(common: seq<(Addr, Addr)>, ghost d: Path, ghost cs: seq<Path>, ghost top: seq<Path>)
        returns (ok: bool, ghost ps: seq<Path>)
      requires Usable() && |cs| == |common| && NoDup(cs)
      requires forall i :: 0 <= i < |cs| ==> Common(cs[i], common[i]) && IsChild(cs[i], d)
      requires TopDown(top) && forall x :: x in top ==> IsChild(x, d)
      modifies this
      ensures ok <==> forall i :: 0 <= i < |cs| ==> ClearBelow(cs[i])
      ensures ok ==> result == old(result) + LinesAt(ps) && TopDown(top + ps)
      ensures ok ==> forall p :: p in ps <==> Reported2(a.Seen(), b.Seen(), opt, p) && BelowSome(p, cs)
      decreases Strictly(a.State(), d), 0
    {
      hide Shape.Wired, Indexed, Ordered, Shape.Contents, NoDup, TopDown, Lines2, Reported2, BelowSome, Strictly,
           Common, ClearBelow, DirectoryTree.Seen;
      ghost var ma, mb := a.Seen(), b.Seen();
      ps := [];
      NoneBelow(cs);
      Lines2Empty(ma, mb);
      assert top + ps == top;
      for i := 0 to |common|
        invariant result == old(result) + Lines2(ma, mb, ps) && TopDown(top + ps)
        invariant forall j :: 0 <= j < i ==> ClearBelow(cs[j])
        invariant forall p :: p in ps <==> Reported2(ma, mb, opt, p) && BelowSome(p, cs[..i])
      {
        GoDown(cs[i], common[i], d);
        ghost var sub;
        ok, sub := RecursiveCompare(a.store[common[i].0].content, b.store[common[i].1].content, cs[i]);
        if !ok { return; }
        TopDownJoin(top + ps, sub, cs, i, d);
        assert top + (ps + sub) == top + ps + sub;
        Lines2Join(ma, mb, ps, sub);
        BelowStep(cs, i);
        ps := ps + sub;
      }
      assert cs[..|cs|] == cs;
      ok := true;
    }

    lemma GoDown(c: Path, n: (Addr, Addr), d: Path)
      requires Usable() && Common(c, n) && IsChild(c, d)
      ensures n.0 in a.store && n.1 in b.store && a.State().Has(c) && b.State().Has(c)
      ensures a.store[n.0].content == a.State().Kids(c) && b.store[n.1].content == b.State().Kids(c)
      ensures IsDir(a.Seen(), c) && IsDir(b.Seen(), c)
      ensures Strictly(a.State(), c) < Strictly(a.State(), d)
    {
      hide Lists, DirectoryTree.Seen;
      a.SeenFacts();
      b.SeenFacts();
      StrictlyLess(a.State(), c, d);
    }
  }

  /** `ps` lists the reported paths of two trees. */
  ghost predicate IsDiff2(ps: seq<Path>, a: Catalog, b: Catalog, opt: CompareOpt) {
    TopDown(ps) && forall p :: p in ps <==> Reported2(a, b, opt, p)
  }

  /** The lines are those of the reported paths, each once. */
  ghost predicate Reports2(lines: seq<Line2>, a: Catalog, b: Catalog, opt: CompareOpt) {
    NoDup(lines) && forall l :: l in lines <==> exists p :: Reported2(a, b, opt, p) && LineAt2(a, b, p) == l
  }

  /** Compare what the indexes have. It fails its assertion just when it meets a path that neither has. */
  method Diff2(a: DirectoryTree, b: DirectoryTree, opt: CompareOpt)
      returns (ok: bool, lines: seq<Line2>, ghost ps: seq<Path>)
    requires a.Valid() && b.Valid()
    ensures ok <==> forall p :: !Stray2(a, b, p)
    ensures ok ==> lines == Lines2(a.Seen(), b.Seen(), ps) && IsDiff2(ps, a.Seen(), b.Seen(), opt)
    ensures ok ==> Reports2(lines, a.Seen(), b.Seen(), opt)
  {
    hide Shape.Wired, Indexed, Ordered, Shape.Contents, TopDown, Reports2, Reported2, Lines2, DirectoryTree.Seen,
         Stray2;
    var cmp := new Diff2Helper(a, b, opt);
    a.SeenFacts();
    b.SeenFacts();
    ok, ps := cmp.RecursiveCompare(a.topContent, b.topContent, Top);
    lines := cmp.result;
    forall p ensures Under(p, Top) { UnderTop(p); }
    NoTopReported2(a.Seen(), b.Seen(), opt);
    NoTopStray2(a, b);
    if ok { EachOnce2(a.Seen(), b.Seen(), opt, ps); }
  }

  lemma NoTopStray2(a: DirectoryTree, b: DirectoryTree)
    ensures !Stray2(a, b, Top)
  {
  }

  lemma NoTopReported2(a: Catalog, b: Catalog, opt: CompareOpt)
    ensures !Reported2(a, b, opt, Top)
  {
  }

  lemma EachOnce2(a: Catalog, b: Catalog, opt: CompareOpt, ps: seq<Path>)
    requires WellFormed(a) && WellFormed(b) && IsDiff2(ps, a, b, opt)
    ensures Reports2(Lines2(a, b, ps), a, b, opt)
  {
    hide WellFormed, TopDown;
    var lines := Lines2(a, b, ps);
    forall i, j | 0 <= i < j < |lines| ensures lines[i] != lines[j] {
      Apart2(ps, i, j);
      assert ps[i] in ps && ps[j] in ps;
      OwnLine2(a, b, opt, ps[i]);
      OwnLine2(a, b, opt, ps[j]);
    }
    forall p | Reported2(a, b, opt, p) ensures LineAt2(a, b, p) in lines {
      var i :| 0 <= i < |ps| && ps[i] == p;
      assert lines[i] == LineAt2(a, b, p);
    }
    forall l | l in lines ensures exists p :: Reported2(a, b, opt, p) && LineAt2(a, b, p) == l {
      var i :| 0 <= i < |lines| && lines[i] == l;
      assert ps[i] in ps && LineAt2(a, b, ps[i]) == l;
    }
  }

  lemma Apart2(ps: seq<Path>, i: nat, j: nat)
    requires TopDown(ps) && i < j < |ps|
    ensures ps[i] != ps[j]
  {
    assert Under(ps[i], ps[i]);
  }

  /** The path of a line can be read from the line. */
  lemma OwnLine2(a: Catalog, b: Catalog, opt: CompareOpt, p: Path)
    requires WellFormed(a) && WellFormed(b) && Reported2(a, b, opt, p)
    ensures var l := LineAt2(a, b, p); p == if l.a.Some? then l.a.value.rp else if l.b.Some? then l.b.value.rp else Top
  {
  }

  /** Whatever differs is reported, or something above it is. */
  lemma {:induction false} ReportedAbove2(a: Catalog, b: Catalog, opt: CompareOpt, p: Path) returns (q: Path)
    requires WellFormed(a) && WellFormed(b) && Differ2(Look(a, p), Look(b, p), opt)
    ensures Under(p, q) && Reported2(a, b, opt, q)
  {
    if IsDir(a, p.dir) && IsDir(b, p.dir) {
      q := p;
    } else {
      q := ReportedAbove2(a, b, opt, p.dir);
    }
  }

  // ---------- three trees ----------

  /** An entry is missing somewhere, or the first and second or the second and third compare unequal. */
  predicate Differ3(x: Option<Element>, y: Option<Element>, z: Option<Element>, opt: CompareOpt) {
    Differ2(x, y, opt) || Differ2(y, z, opt)
  }

  /** The first and the last differ although both equal the one between them. */
  predicate Skewed(x: Option<Element>, y: Option<Element>, z: Option<Element>, opt: CompareOpt) {
    x.Some? && !Differ2(x, y, opt) && !Differ2(y, z, opt) && Differ2(x, z, opt)
  }

  /**
   * The comparison goes down what is a directory in at least two trees. Where all three have the directory
   * it compares three ways, where only two have it, it compares those two.
   */
  predicate Reported3(a: Catalog, b: Catalog, c: Catalog, opt: CompareOpt, p: Path) {
    p.In? &&
    match (IsDir(a, p.dir), IsDir(b, p.dir), IsDir(c, p.dir))
    case (true, true, true) => Differ3(Look(a, p), Look(b, p), Look(c, p), opt)
    case (true, true, false) => Differ2(Look(a, p), Look(b, p), opt)
    case (true, false, true) => Differ2(Look(a, p), Look(c, p), opt)
    case (false, true, true) => Differ2(Look(b, p), Look(c, p), opt)
    case _ => false
  }

  function LineAt3(a: Catalog, b: Catalog, c: Catalog, p: Path): Line3 {
    Line3(Look(a, p), Look(b, p), Look(c, p))
  }

  ghost function Lines3(a: Catalog, b: Catalog, c: Catalog, ps: seq<Path>): seq<Line3> {
    seq(|ps|, i requires 0 <= i < |ps| => LineAt3(a, b, c, ps[i]))
  }

  ghost predicate IsDiff3(ps: seq<Path>, a: Catalog, b: Catalog, c: Catalog, opt: CompareOpt) {
    TopDown(ps) && forall p :: p in ps <==> Reported3(a, b, c, opt, p)
  }

  predicate TwoOf(x: bool, y: bool, z: bool) {
    if x then y || z else y && z
  }

  /** Two of the three entries are directories. */
  predicate TwoDirs(x: Option<Element>, y: Option<Element>, z: Option<Element>) {
    if IsDirOpt(x) then IsDirOpt(y) || IsDirOpt(z) else IsDirOpt(y) && IsDirOpt(z)
  }

  lemma Lines3Empty(a: Catalog, b: Catalog, c: Catalog)
    ensures Lines3(a, b, c, []) == [] && TopDown([])
  {
  }

  lemma Lines3Step(a: Catalog, b: Catalog, c: Catalog, ps: seq<Path>, p: Path)
    ensures Lines3(a, b, c, ps + [p]) == Lines3(a, b, c, ps) + [LineAt3(a, b, c, p)]
  {
  }

  lemma Lines3Join(a: Catalog, b: Catalog, c: Catalog, ps: seq<Path>, qs: seq<Path>)
    ensures Lines3(a, b, c, ps + qs) == Lines3(a, b, c, ps) + Lines3(a, b, c, qs)
  {
  }

  /** There is nothing below what is not a directory. */
  lemma NothingBelow(m: Catalog, c: Path, p: Path)
    requires WellFormed(m) && !IsDir(m, c) && Under(p, c) && p != c
    ensures p !in m && !IsDir(m, p.dir)
  {
    if p in m { Ancestor(m, p, c); }
    if p.dir != c && p.dir in m { Ancestor(m, p.dir, c); }
  }

  /** A line of two trees as a line of three, where the tree number `k` has no entry. */
  function Widened(l: Line2, k: nat): Line3 {
    if k == 0 then Line3(None, l.a, l.b) else if k == 1 then Line3(l.a, None, l.b) else Line3(l.a, l.b, None)
  }

  method Widen(lines: seq<Line2>, k: nat) returns (r: seq<Line3>)
    ensures |r| == |lines| && forall i :: 0 <= i < |r| ==> r[i] == Widened(lines[i], k)
  {
    r := [];
    for i := 0 to |lines|
      invariant |r| == i && forall j :: 0 <= j < i ==> r[j] == Widened(lines[j], k)
    {
      r := r + [Widened(lines[i], k)];
    }
  }

  /** `ps` lists the reported paths strictly below `d`. */
  ghost predicate Covers3(ps: seq<Path>, a: Catalog, b: Catalog, c: Catalog, opt: CompareOpt, d: Path) {
    forall p :: p in ps <==> Reported3(a, b, c, opt, p) && Under(p, d) && p != d
  }

  /** Below a directory of only two trees, the three-way comparison is the comparison of those two. */
  lemma OnlyTwo(a: Catalog, b: Catalog, c: Catalog, opt: CompareOpt, d: Path, k: nat, ps: seq<Path>)
    requires WellFormed(a) && WellFormed(b) && WellFormed(c) && k < 3
    requires !IsDir(if k == 0 then a else if k == 1 then b else c, d)
    requires Covers2(ps, if k == 0 then b else a, if k == 2 then b else c, opt, d)
    ensures Covers3(ps, a, b, c, opt, d)
    ensures Lines3(a, b, c, ps) == seq(|ps|,
            i requires 0 <= i < |ps| => Widened(LineAt2(if k == 0 then b else a, if k == 2 then b else c, ps[i]), k))
  {
    var m := if k == 0 then a else if k == 1 then b else c;
    forall p | Under(p, d) && p != d ensures p !in m && !IsDir(m, p.dir) {
      NothingBelow(m, d, p);
    }
    forall i | 0 <= i < |ps| ensures Under(ps[i], d) && ps[i] != d { assert ps[i] in ps; }
  }

  /** Everything reported below `d` is an entry of `d` or lies below a directory of two trees in `d`. */
  lemma Cover3(a: Catalog, b: Catalog, c: Catalog, opt: CompareOpt, d: Path, top: seq<Path>, cs: seq<Path>, p: Path)
    requires WellFormed(a) && WellFormed(b) && WellFormed(c) && IsDir(a, d) && IsDir(b, d) && IsDir(c, d)
    requires forall q :: q in top <==> IsChild(q, d) && Differ3(Look(a, q), Look(b, q), Look(c, q), opt)
    requires forall q :: q in cs <==> IsChild(q, d) && TwoDirs(Look(a, q), Look(b, q), Look(c, q))
    ensures Reported3(a, b, c, opt, p) && Under(p, d) && p != d
       <==> p in top || (Reported3(a, b, c, opt, p) && BelowSome(p, cs))
  {
    if Reported3(a, b, c, opt, p) && Under(p, d) && p != d && p.dir != d {
      BelowTwo(a, b, c, d, p, cs);
    }
    if BelowSome(p, cs) {
      var q :| q in cs && Under(p, q) && p != q;
      UnderTrans(p, q, d);
      UnderIsDeeper(p, q);
    }
    if p in top { assert p != d by { UnderIsDeeper(p, d); } }
  }

  lemma BelowTwo(a: Catalog, b: Catalog, c: Catalog, d: Path, p: Path, cs: seq<Path>)
    requires WellFormed(a) && WellFormed(b) && WellFormed(c) && p.In? && Under(p.dir, d) && p.dir != d
    requires TwoOf(IsDir(a, p.dir), IsDir(b, p.dir), IsDir(c, p.dir))
    requires forall q :: q in cs <==> IsChild(q, d) && TwoDirs(Look(a, q), Look(b, q), Look(c, q))
    ensures BelowSome(p, cs)
  {
    var x := if IsDir(a, p.dir) then a else b;
    var y := if IsDir(a, p.dir) && IsDir(b, p.dir) then b else c;
    var q := ChildDir(x, d, p.dir);
    var q' := ChildDir(y, d, p.dir);
    Siblings(p.dir, q, q', d);
    UnderIsDeeper(p.dir, q);
    assert q in cs && Under(p, q);
  }

  /** The node of `p`, if it is a directory. */
  ghost predicate NodeOf(t: DirectoryTree, p: Path, n: Option<Addr>)
    reads t
  {
    if IsDirOpt(Look(t.Seen(), p)) then p in t.nodes && n == Some(t.nodes[p]) else n == None
  }

  lemma NodeFacts(t: DirectoryTree, d: Path, n: Addr)
    requires t.Valid() && NodeOf(t, d, Some(n))
    ensures t.State().Has(d) && n in t.store && t.store[n].content == t.State().Kids(d) && IsDir(t.Seen(), d)
  {
    hide Lists, DirectoryTree.Seen;
    t.SeenFacts();
  }

  /** The two-way diff below a directory of two trees. */
  method TwoWay(x: DirectoryTree, y: DirectoryTree, nx: Addr, ny: Addr, opt: CompareOpt, ghost d: Path)
      returns (ok: bool, lines: seq<Line2>, ghost ps: seq<Path>)
    requires x.Valid() && y.Valid() && NodeOf(x, d, Some(nx)) && NodeOf(y, d, Some(ny))
    ensures ok <==> forall p :: Under(p, d) && p != d ==> !Stray2(x, y, p)
    ensures ok ==> lines == Lines2(x.Seen(), y.Seen(), ps) && TopDown(ps)
    ensures ok ==> Covers2(ps, x.Seen(), y.Seen(), opt, d)
  {
    hide Shape.Wired, Indexed, Ordered, Shape.Contents, TopDown, Covers2, Lines2, DirectoryTree.Seen, Stray2;
    NodeFacts(x, d, nx);
    NodeFacts(y, d, ny);
    var cmp := new Diff2Helper(x, y, opt);
    ok, ps := cmp.RecursiveCompare(x.store[nx].content, y.store[ny].content, d);
    lines := cmp.result;
  }

  /** Where the comparison of three trees goes, a list has a path that no index has. */
  ghost predicate Stray3(a: DirectoryTree, b: DirectoryTree, c: DirectoryTree, p: Path)
    reads a, b, c
  {
    && p.In? && TwoOf(IsDir(a.Seen(), p.dir), IsDir(b.Seen(), p.dir), IsDir(c.Seen(), p.dir))
    && (p in a.Contents() || p in b.Contents() || p in c.Contents())
    && p !in a.Seen() && p !in b.Seen() && p !in c.Seen()
  }

  type Nodes3 = (Option<Addr>, Option<Addr>, Option<Addr>)

  /** The comparison of three trees fails an assertion at `p`. */
  ghost predicate Misfit3(a: DirectoryTree, b: DirectoryTree, c: DirectoryTree, opt: CompareOpt, p: Path)
    reads a, b, c
  {
    Skewed(Look(a.Seen(), p), Look(b.Seen(), p), Look(c.Seen(), p), opt) || Stray3(a, b, c, p)
  }

  class Diff3Helper {
    const a: DirectoryTree
    const b: DirectoryTree
    const c: DirectoryTree
    const opt: CompareOpt
    var result: seq<Line3>

    constructor (a: DirectoryTree, b: DirectoryTree, c: DirectoryTree, opt: CompareOpt)
      ensures this.a == a && this.b == b && this.c == c && this.opt == opt && result == []
    {
      this.a, this.b, this.c, this.opt := a, b, c, opt;
      result := [];
    }

    ghost predicate Usable()
      reads a, b, c
    {
      a.Valid() && b.Valid() && c.Valid()
    }

    ghost predicate Two(p: Path)
      reads a, b, c
    {
      TwoDirs(Look(a.Seen(), p), Look(b.Seen(), p), Look(c.Seen(), p))
    }

    /** The nodes of `p` in the trees where it is a directory, which are at least two. */
    ghost predicate Common(p: Path, n: Nodes3)
      reads a, b, c
    {
      Two(p) && NodeOf(a, p, n.0) && NodeOf(b, p, n.1) && NodeOf(c, p, n.2)
    }

    /** The entries of `p` call for a line. */
    ghost predicate Differs(p: Path)
      reads a, b, c
    {
      Differ3(Look(a.Seen(), p), Look(b.Seen(), p), Look(c.Seen(), p), opt)
    }

    ghost function LinesAt(ps: seq<Path>): seq<Line3>
      reads a, b, c
    {
      Lines3(a.Seen(), b.Seen(), c.Seen(), ps)
    }

    /** Compare one level three ways. */
    method Level(names: set<Path>, ghost d: Path)
        returns (ok: bool, common: seq<Nodes3>, ghost cs: seq<Path>, ghost ps: seq<Path>)
      requires Usable() && forall p :: p in names ==> EntryName(p, d) && IsChild(p, d)
      requires IsDir(a.Seen(), d) && IsDir(b.Seen(), d) && IsDir(c.Seen(), d)
      modifies this
      ensures ok <==> forall p :: p in names ==> !Misfit3(a, b, c, opt, p)
      ensures ok ==> result == old(result) + LinesAt(ps) && TopDown(ps)
      ensures ok ==> forall p :: p in ps <==> p in names && Differs(p)
      ensures ok ==> |cs| == |common| && NoDup(cs) && forall i :: 0 <= i < |cs| ==> Common(cs[i], common[i])
      ensures ok ==> forall p :: p in cs <==> p in names && Two(p)
    {
      hide Shape.Wired, Indexed, Ordered, Shape.Contents, Lines3, TopDown, Misfit3, Differs, Two, Common, Usable,
           DirectoryTree.Seen, EntryName;
      common, cs, ps := [], [], [];
      Lines3Empty(a.Seen(), b.Seen(), c.Seen());
      var todo := names;
      while todo != {}
        invariant todo <= names && forall p :: p in names - todo ==> !Misfit3(a, b, c, opt, p)
        invariant result == old(result) + LinesAt(ps) && TopDown(ps)
        invariant forall p :: p in ps <==> p in names - todo && Differs(p)
        invariant |cs| == |common| && NoDup(cs) && forall i :: 0 <= i < |cs| ==> Common(cs[i], common[i])
        invariant forall p :: p in cs <==> p in names - todo && Two(p)
        decreases todo
      {
        var p :| p in todo;
        todo := todo - {p};
        var bad, two, n := CompareOne(p, d);
        if bad { return false, common, cs, ps; }
        TopDownStep(ps, p, d);
        Lines3Step(a.Seen(), b.Seen(), c.Seen(), ps, p);
        ps := if Differs(p) then ps + [p] else ps;
        if two {
          common := common + [n];
          cs := cs + [p];
        }
      }
      ok := true;
    }

    method CompareOne(p: Path, ghost d: Path) returns (bad: bool, two: bool, n: Nodes3)
      requires Usable() && EntryName(p, d) && IsDir(a.Seen(), d) && IsDir(b.Seen(), d) && IsDir(c.Seen(), d)
      modifies this
      ensures bad <==> Misfit3(a, b, c, opt, p)
      ensures result == old(result) + if Differs(p) then [LineAt3(a.Seen(), b.Seen(), c.Seen(), p)] else []
      ensures (two <==> Two(p)) && (two ==> Common(p, n))
    {
      hide Shape.Wired, Indexed, Ordered, Shape.Contents, IsDirOpt, DirectoryTree.Seen;
      var x, y, z := a.Search(p), b.Search(p), c.Search(p);
      bad := (x.None? && y.None? && z.None?) || Skewed(x, y, z, opt);
      if Differ3(x, y, z, opt) {
        result := result + [Line3(x, y, z)];
      }
      two := TwoDirs(x, y, z);
      n := NodesAt(p);
    }

    method NodesAt(p: Path) returns (n: Nodes3)
      requires Usable()
      ensures NodeOf(a, p, n.0) && NodeOf(b, p, n.1) && NodeOf(c, p, n.2)
    {
      hide Shape.Wired, Indexed, Ordered, Shape.Contents, DirectoryTree.Seen;
      a.SeenFacts();
      b.SeenFacts();
      c.SeenFacts();
      var x, y, z := a.Search(p), b.Search(p), c.Search(p);
      n := (if IsDirOpt(x) then Some(a.index[p]) else None,
            if IsDirOpt(y) then Some(b.index[p]) else None,
            if IsDirOpt(z) then Some(c.index[p]) else None);
    }

    ghost predicate Found(ps: seq<Path>, d: Path)
      reads a, b, c
    {
      TopDown(ps) && Covers3(ps, a.Seen(), b.Seen(), c.Seen(), opt, d)
    }

    ghost predicate StraightBelow(d: Path)
      reads a, b, c
    {
      forall p :: Under(p, d) && p != d ==> !Misfit3(a, b, c, opt, p)
    }

    /** Only two trees have the directory: the problem reduces to a two-way diff. */
    method Pair(x: DirectoryTree, y: DirectoryTree, nx: Addr, ny: Addr, k: nat, ghost d: Path)
        returns (ok: bool, ghost ps: seq<Path>)
      requires Usable() && k < 3 && x == (if k == 0 then b else a) && y == (if k == 2 then b else c)
      requires NodeOf(x, d, Some(nx)) && NodeOf(y, d, Some(ny))
      requires !IsDirOpt(Look((if k == 0 then a else if k == 1 then b else c).Seen(), d)) && d != Top
      modifies this
      ensures ok <==> StraightBelow(d)
      ensures ok ==> Found(ps, d) && result == old(result) + LinesAt(ps)
    {
      hide Shape.Wired, Indexed, Ordered, Shape.Contents, TopDown, Covers2, Covers3, StraightBelow, NodeOf, Stray2,
           DirectoryTree.Seen;
      a.SeenFacts();
      b.SeenFacts();
      c.SeenFacts();
      var lines;
      ok, lines, ps := TwoWay(x, y, nx, ny, opt, d);
      PairStraight(x, y, k, d);
      if !ok { return; }
      OnlyTwo(a.Seen(), b.Seen(), c.Seen(), opt, d, k, ps);
      var more := Widen(lines, k);
      assert more == LinesAt(ps);
      result := result + more;
    }

    lemma PairStraight(x: DirectoryTree, y: DirectoryTree, k: nat, d: Path)
      requires Usable() && k < 3 && x == (if k == 0 then b else a) && y == (if k == 2 then b else c)
      requires !IsDirOpt(Look((if k == 0 then a else if k == 1 then b else c).Seen(), d)) && d != Top
      ensures StraightBelow(d) <==> forall p :: Under(p, d) && p != d ==> !Stray2(x, y, p)
    {
      hide Shape.Wired, Indexed, Ordered, Shape.Contents, DirectoryTree.Seen;
      var t := if k == 0 then a else if k == 1 then b else c;
      t.SeenFacts();
      t.Facts();
      forall p | Under(p, d) && p != d ensures Misfit3(a, b, c, opt, p) <==> Stray2(x, y, p) {
        NothingBelow(t.Seen(), d, p);
        NothingBelow(t.Contents(), d, p);
      }
    }

    /** Compare below a directory of two or three trees. */
    method Lower(n: Nodes3, ghost p: Path, ghost d: Path) returns (ok: bool, ghost ps: seq<Path>)
      requires Usable() && Common(p, n) && IsChild(p, d)
      modifies this
      ensures ok <==> StraightBelow(p)
      ensures ok ==> Found(ps, p) && result == old(result) + LinesAt(ps)
      decreases Strictly(a.State(), d), 0, 0
    {
      hide Shape.Wired, Indexed, Ordered, Shape.Contents, Found, StraightBelow, Lines3, Strictly, DirectoryTree.Seen;
      ok := true;
      if n.0.Some? && n.1.Some? && n.2.Some? {
        NodeFacts(a, p, n.0.value);
        NodeFacts(b, p, n.1.value);
        NodeFacts(c, p, n.2.value);
        StrictlyLess(a.State(), p, d);
        ok, ps := RecursiveCompare(a.store[n.0.value].content, b.store[n.1.value].content, c.store[n.2.value].content,
            p);
      } else if n.0.None? {
        ok, ps := Pair(b, c, n.1.value, n.2.value, 0, p);
      } else if n.1.None? {
        ok, ps := Pair(a, c, n.0.value, n.2.value, 1, p);
      } else {
        ok, ps := Pair(a, b, n.0.value, n.1.value, 2, p);
      }
    }

    method RecursiveCompare(la: seq<Addr>, lb: seq<Addr>, lc: seq<Addr>, ghost d: Path)
        returns (ok: bool, ghost ps: seq<Path>)
      requires Usable() && IsDir(a.Seen(), d) && IsDir(b.Seen(), d) && IsDir(c.Seen(), d)
      requires a.State().Has(d) && la == a.State().Kids(d)
      requires b.State().Has(d) && lb == b.State().Kids(d)
      requires c.State().Has(d) && lc == c.State().Kids(d)
      modifies this
      ensures ok <==> StraightBelow(d)
      ensures ok ==> Found(ps, d) && result == old(result) + LinesAt(ps)
      decreases Strictly(a.State(), d), 1
    {
      hide Shape.Wired, Indexed, Ordered, Shape.Contents, Strictly, NoDup, Misfit3, Two, Differs, Common, Found,
           StraightBelow, Lines3, EntryName, DirectoryTree.Seen;
      ps := [];
      var names := AllNames(la, lb, lc, d);
      var common;
      ghost var cs, top;
      ok, common, cs, top := Level(names, d);
      StraightSplit(names, d, cs);
      if !ok { return; }
      ok, ps := Descend(common, d, cs, top);
      if !ok { return; }
      FoundAll(names, d, cs, top, ps);
      Lines3Join(a.Seen(), b.Seen(), c.Seen(), top, ps);
      ps := top + ps;
    }

    ghost predicate EntryName(p: Path, d: Path)
      reads a, b, c
    {
      IsChild(p, d) && (p in a.Contents() || p in b.Contents() || p in c.Contents())
    }

    method AllNames(la: seq<Addr>, lb: seq<Addr>, lc: seq<Addr>, ghost d: Path) returns (names: set<Path>)
      requires Usable()
      requires a.State().Has(d) && la == a.State().Kids(d)
      requires b.State().Has(d) && lb == b.State().Kids(d)
      requires c.State().Has(d) && lc == c.State().Kids(d)
      ensures forall p :: p in names <==> EntryName(p, d)
      ensures forall p :: p in names ==> IsChild(p, d)
    {
      hide Shape.Wired, Indexed, Ordered, Shape.Contents;
      var na := Names(a, la, d);
      var nb := Names(b, lb, d);
      var nc := Names(c, lc, d);
      names := na + nb + nc;
    }

    /**
     * The comparison survives everything below `d` if it survives the entries of `d` and what is below each directory.
     */
    lemma StraightSplit(names: set<Path>, d: Path, cs: seq<Path>)
      requires Usable() && (forall p :: p in names <==> EntryName(p, d))
      ensures (exists p :: p in names && Misfit3(a, b, c, opt, p)) ==> !StraightBelow(d)
      ensures (exists i :: 0 <= i < |cs| && IsChild(cs[i], d) && !StraightBelow(cs[i])) ==> !StraightBelow(d)
      ensures && (forall p :: p in cs <==> p in names && Two(p))
              && (forall p :: p in names ==> !Misfit3(a, b, c, opt, p))
              && (forall i :: 0 <= i < |cs| ==> StraightBelow(cs[i]))
              ==> StraightBelow(d)
    {
      hide Shape.Wired, Indexed, Ordered, Shape.Contents, DirectoryTree.Seen, Misfit3;
      forall p | p in names ensures Under(p, d) && p != d { ChildDeeper(p, d); }
      forall p, q | IsChild(q, d) && Under(p, q) ensures Under(p, d) && p != d {
        UnderTrans(p, q, d);
        UnderIsDeeper(p, q);
      }
      if && (forall p :: p in cs <==> p in names && Two(p))
         && (forall p :: p in names ==> !Misfit3(a, b, c, opt, p))
         && (forall i :: 0 <= i < |cs| ==> StraightBelow(cs[i])) {
        forall p | Under(p, d) && p != d ensures !Misfit3(a, b, c, opt, p) {
          if Misfit3(a, b, c, opt, p) { BadBelow(names, d, cs, p); }
        }
      }
    }

    lemma BadBelow(names: set<Path>, d: Path, cs: seq<Path>, p: Path)
      requires Usable() && (forall q :: q in names <==> EntryName(q, d))
      requires forall q :: q in cs <==> q in names && Two(q)
      requires Misfit3(a, b, c, opt, p) && Under(p, d) && p != d
      ensures p in names || BelowSome(p, cs)
    {
      hide Shape.Wired, Indexed, Ordered, Shape.Contents, DirectoryTree.Seen, BelowSome;
      a.SeenFacts();
      b.SeenFacts();
      c.SeenFacts();
      if p.dir != d {
        assert TwoOf(IsDir(a.Seen(), p.dir), IsDir(b.Seen(), p.dir), IsDir(c.Seen(), p.dir));
        BelowTwo(a.Seen(), b.Seen(), c.Seen(), d, p, cs);
      }
    }

    lemma FoundAll(names: set<Path>, d: Path, cs: seq<Path>, top: seq<Path>, ps: seq<Path>)
      requires Usable() && IsDir(a.Seen(), d) && IsDir(b.Seen(), d) && IsDir(c.Seen(), d)
      requires forall p :: p in names <==> EntryName(p, d)
      requires forall p :: p in cs <==> p in names && Two(p)
      requires forall p :: p in top <==> p in names && Differs(p)
      requires TopDown(top + ps)
      requires forall p :: p in ps <==> Reported3(a.Seen(), b.Seen(), c.Seen(), opt, p) && BelowSome(p, cs)
      ensures Found(top + ps, d)
    {
      hide Shape.Wired, Indexed, Ordered, Shape.Contents, Reported3, BelowSome, TopDown, DirectoryTree.Seen, WellFormed;
      var ma, mb, mc := a.Seen(), b.Seen(), c.Seen();
      a.SeenFacts();
      b.SeenFacts();
      c.SeenFacts();
      forall p ensures Reported3(ma, mb, mc, opt, p) && Under(p, d) && p != d <==> p in top + ps {
        Cover3(ma, mb, mc, opt, d, top, cs, p);
      }
    }

    method Descend(common: seq<Nodes3>, ghost d: Path, ghost cs: seq<Path>, ghost top: seq<Path>)
        returns (ok: bool, ghost ps: seq<Path>)
      requires Usable() && |cs| == |common| && NoDup(cs)
      requires forall i :: 0 <= i < |cs| ==> Common(cs[i], common[i]) && IsChild(cs[i], d)
      requires TopDown(top) && forall x :: x in top ==> IsChild(x, d)
      modifies this
      ensures ok <==> forall i :: 0 <= i < |cs| ==> StraightBelow(cs[i])
      ensures ok ==> result == old(result) + LinesAt(ps) && TopDown(top + ps)
      ensures ok ==> forall p :: p in ps <==> Reported3(a.Seen(), b.Seen(), c.Seen(), opt, p) && BelowSome(p, cs)
      decreases Strictly(a.State(), d), 0
    {
      hide Shape.Wired, Indexed, Ordered, Shape.Contents, NoDup, TopDown, Lines3, Reported3, BelowSome, Strictly,
           Common, StraightBelow, DirectoryTree.Seen;
      ghost var ma, mb, mc := a.Seen(), b.Seen(), c.Seen();
      ps := [];
      NoneBelow(cs);
      Lines3Empty(ma, mb, mc);
      assert top + ps == top;
      for i := 0 to |common|
        invariant result == old(result) + Lines3(ma, mb, mc, ps) && TopDown(top + ps)
        invariant forall j :: 0 <= j < i ==> StraightBelow(cs[j])
        invariant forall p :: p in ps <==> Reported3(ma, mb, mc, opt, p) && BelowSome(p, cs[..i])
      {
        ghost var sub;
        ok, sub := Lower(common[i], cs[i], d);
        if !ok { return; }
        TopDownJoin(top + ps, sub, cs, i, d);
        assert top + (ps + sub) == top + ps + sub;
        Lines3Join(ma, mb, mc, ps, sub);
        BelowStep(cs, i);
        ps := ps + sub;
      }
      assert cs[..|cs|] == cs;
      ok := true;
    }
  }

  /** The lines are those of the reported paths, each once. */
  ghost predicate Reports3(lines: seq<Line3>, a: Catalog, b: Catalog, c: Catalog, opt: CompareOpt) {
    NoDup(lines) && forall l :: l in lines <==> exists p :: Reported3(a, b, c, opt, p) && LineAt3(a, b, c, p) == l
  }

  /** Compare what three indexes have. It fails an assertion just when a line is skewed or a path is in no index. */
  method Diff3(a: DirectoryTree, b: DirectoryTree, c: DirectoryTree, opt: CompareOpt)
      returns (ok: bool, lines: seq<Line3>, ghost ps: seq<Path>)
    requires a.Valid() && b.Valid() && c.Valid()
    ensures ok <==> forall p :: !Misfit3(a, b, c, opt, p)
    ensures ok ==> lines == Lines3(a.Seen(), b.Seen(), c.Seen(), ps)
    ensures ok ==> IsDiff3(ps, a.Seen(), b.Seen(), c.Seen(), opt)
    ensures ok ==> Reports3(lines, a.Seen(), b.Seen(), c.Seen(), opt)
  {
    hide Shape.Wired, Indexed, Ordered, Shape.Contents, TopDown, Lines3, Differ2, Differ3, Reports3, DirectoryTree.Seen,
         Misfit3;
    var cmp := new Diff3Helper(a, b, c, opt);
    a.SeenFacts();
    b.SeenFacts();
    c.SeenFacts();
    ok, ps := cmp.RecursiveCompare(a.topContent, b.topContent, c.topContent, Top);
    lines := cmp.result;
    forall p ensures Under(p, Top) { UnderTop(p); }
    TopIsFine(a, b, c, opt);
    if ok { EachOnce3(a.Seen(), b.Seen(), c.Seen(), opt, ps); }
  }

  lemma TopIsFine(a: DirectoryTree, b: DirectoryTree, c: DirectoryTree, opt: CompareOpt)
    requires a.Valid()
    ensures !Misfit3(a, b, c, opt, Top)
  {
    a.Facts();
  }

  lemma EachOnce3(a: Catalog, b: Catalog, c: Catalog, opt: CompareOpt, ps: seq<Path>)
    requires WellFormed(a) && WellFormed(b) && WellFormed(c) && IsDiff3(ps, a, b, c, opt)
    ensures Reports3(Lines3(a, b, c, ps), a, b, c, opt)
  {
    hide WellFormed, TopDown, Reported3;
    var lines := Lines3(a, b, c, ps);
    forall i, j | 0 <= i < j < |lines| ensures lines[i] != lines[j] {
      Apart2(ps, i, j);
      assert ps[i] in ps && ps[j] in ps;
      OwnLine3(a, b, c, opt, ps[i]);
      OwnLine3(a, b, c, opt, ps[j]);
    }
    forall p | Reported3(a, b, c, opt, p) ensures LineAt3(a, b, c, p) in lines {
      var i :| 0 <= i < |ps| && ps[i] == p;
      assert lines[i] == LineAt3(a, b, c, p);
    }
    forall l | l in lines ensures exists p :: Reported3(a, b, c, opt, p) && LineAt3(a, b, c, p) == l {
      var i :| 0 <= i < |lines| && lines[i] == l;
      assert ps[i] in ps && LineAt3(a, b, c, ps[i]) == l;
    }
  }

  lemma OwnLine3(a: Catalog, b: Catalog, c: Catalog, opt: CompareOpt, p: Path)
    requires WellFormed(a) && WellFormed(b) && WellFormed(c) && Reported3(a, b, c, opt, p)
    ensures var l := LineAt3(a, b, c, p);
            p == if l.a.Some? then l.a.value.rp else if l.b.Some? then l.b.value.rp else if l.c.Some? then l.c.value.rp
                else Top
  {
  }

  /** Whatever differs among three trees is reported, or something above it is. */
  lemma {:induction false} ReportedAbove3(a: Catalog, b: Catalog, c: Catalog, opt: CompareOpt, p: Path)
      returns (q: Path)
    requires WellFormed(a) && WellFormed(b) && WellFormed(c) && Differ3(Look(a, p), Look(b, p), Look(c, p), opt)
    ensures Under(p, q) && Reported3(a, b, c, opt, q)
  {
    if IsDir(a, p.dir) && IsDir(b, p.dir) && IsDir(c, p.dir) {
      q := p;
    } else {
      q := ReportedAbove3(a, b, c, opt, p.dir);
    }
  }
}
