/** Metadata files: the writer, and what the reader makes of its text. */
module Writer {
  import opened Elements
  import opened Catalogs
  import opened Shapes
  import opened Order
  import opened Trees
  import opened Listings
  import opened Lines
  import opened Metadata

  // ---------- what is written ----------

  /** The directory `b` and everything before it in its list are directories. */
  ghost predicate InFront(s: Shape, b: Path) {
    && b in s.nodes && b.In? && s.Has(b.dir)
    && var l := s.Kids(b.dir);
       forall i, j :: 0 <= i <= j < |l| && l[j] == s.nodes[b] && l[i] in s.store ==> s.store[l[i]].elem.ty.Directory?
  }

  /** The writer gets to `b`: it stops at the first entry of a list that is not a directory. */
  ghost predicate Open(s: Shape, b: Path) {
    b == Top || (InFront(s, b) && Open(s, b.dir))
  }

  /** The lists among those of `u` that are written. */
  ghost function WrittenIn(s: Shape, u: set<Path>): Listing
    requires Linked(s)
  {
    map b | b in ListsOf(s) && b in u && Open(s, b) :: ListsOf(s)[b]
  }

  ghost function SeenIn(s: Shape, u: set<Path>): set<Path>
    requires Linked(s)
  {
    set p | p in s.nodes && p.In? && p.dir in WrittenIn(s, u)
  }

  ghost function Written(s: Shape): Listing
    requires Linked(s)
  {
    map b | b in ListsOf(s) && Open(s, b) :: ListsOf(s)[b]
  }

  /** Every list is written just when no directory that has entries comes after something else. */
  lemma WrittenAll(s: Shape)
    requires Linked(s)
    ensures Written(s) == ListsOf(s) <==> forall b :: b in ListsOf(s) && b != Top ==> InFront(s, b)
  {
    hide Linked, ListsOf, InFront;
    if Written(s) == ListsOf(s) {
      forall b | b in ListsOf(s) && b != Top ensures InFront(s, b) { assert b in Written(s); }
    }
    if forall b :: b in ListsOf(s) && b != Top ==> InFront(s, b) {
      forall b | b in ListsOf(s) ensures Open(s, b) { OpenAll(s, b); }
    }
  }

  lemma {:induction false} OpenAll(s: Shape, b: Path)
    requires Linked(s) && b in ListsOf(s) && forall c :: c in ListsOf(s) && c != Top ==> InFront(s, c)
    ensures Open(s, b)
  {
    hide Linked, ListsOf, InFront;
    if b != Top {
      assert b in s.nodes by { InNodes(s, b); }
      HasList(s, b);
      OpenAll(s, b.dir);
    }
  }

  lemma InNodes(s: Shape, b: Path)
    requires Linked(s) && b in ListsOf(s) && b != Top
    ensures b in s.nodes
  {
  }

  lemma SameWritten(s: Shape, u: set<Path>, v: set<Path>)
    requires Linked(s) && forall b :: b in ListsOf(s) && Open(s, b) ==> (b in u <==> b in v)
    ensures WrittenIn(s, u) == WrittenIn(s, v) && SeenIn(s, u) == SeenIn(s, v)
  {
    hide Linked, ListsOf, Open;
  }

  // ---------- what the reader makes of it ----------

  /**
   * What has been written so far reads as the lists of `u`, the last of which needs a blank line first if `printBreak`.
   */
  ghost predicate Wrote(cal: Calendar, lines: seq<string>, printBreak: bool, s: Shape, u: set<Path>)
    requires Linked(s)
  {
    && FeedAll(cal, lines).Some? && (printBreak <==> FeedAll(cal, lines).value.cur != [])
    && Flush(FeedAll(cal, lines).value) == Some(Loading(WrittenIn(s, u), SeenIn(s, u), []))
  }

  /** The element can be read from its line. */
  ghost predicate Legible(cal: Calendar, e: Element) {
    cal.Inverse(e.mt) && Printable(e) && OneLine(e)
  }

  lemma LineReads(cal: Calendar, e: Element)
    requires Legible(cal, e)
    ensures ReadElement(cal, Print(cal, e)) == Some(e) && Print(cal, e) != "" && '\n' !in Print(cal, e)
  {
    hide Print, ReadElement, Printable, OneLine;
    LineRoundTrip(cal, e);
    PrintOneLine(cal, e);
  }

  ghost predicate AllLegible(cal: Calendar, m: Catalog) {
    forall p :: p in m ==> Legible(cal, m[p])
  }

  ghost predicate NoBreaks(lines: seq<string>) {
    forall l :: l in lines ==> '\n' !in l
  }

  /** A directory whose turn it is: it has been listed itself, and its entries have not. */
  ghost predicate Due(s: Shape, d: Path, u: set<Path>)
    requires Linked(s)
  {
    && s.Has(d) && Open(s, d) && d !in u && u !! Beneath(s, d)
    && (if d == Top then u == {} else d.In? && d.dir in WrittenIn(s, u))
  }

  /** The list of a directory that is due is accepted. */
  lemma DueFits(s: Shape, d: Path, u: set<Path>)
    requires Linked(s) && Due(s, d, u)
    ensures Flush(Loading(WrittenIn(s, u), SeenIn(s, u), KidElems(s, d))) == Some(Loading(WrittenIn(s, u + {d}),
            SeenIn(s, u + {d}), []))
  {
    hide Linked, ListsOf, Open, Elems, Beneath, KidElems, WrittenIn, SeenIn, Acceptable;
    InLists(s, d);
    KidsGroup(s, d);
    if s.Kids(d) == [] {
      SameWritten(s, u, u + {d});
    } else {
      OneMoreList(s, d, u);
      DueDirectory(s, d, u);
    }
  }

  lemma KidsGroup(s: Shape, d: Path)
    requires Linked(s) && s.Has(d)
    ensures Group(KidElems(s, d), d) && PathsOf(KidElems(s, d)) == set p | p in s.nodes && IsChild(p, d)
    ensures KidElems(s, d) == [] <==> s.Kids(d) == []
    ensures KidElems(s, d) != [] ==> DirOf(KidElems(s, d)) == d
  {
    hide ListsOf;
    var l, g := s.Kids(d), KidElems(s, d);
    assert Lists(l, s.nodes, s.store, d);
    forall e | e in g ensures IsChild(e.rp, d) && e.rp in s.nodes {
      var i :| 0 <= i < |g| && g[i] == e;
      assert l[i] in l;
    }
    forall i, j | 0 <= i < j < |g| ensures g[i].rp != g[j].rp {
      assert l[i] in l && l[j] in l && l[i] != l[j];
    }
    forall p | p in s.nodes && IsChild(p, d) ensures p in PathsOf(g) {
      var i :| 0 <= i < |l| && l[i] == s.nodes[p];
      assert g[i] in g && g[i].rp == p;
    }
    if g != [] { assert g[0] in g; }
  }

  lemma OneMoreList(s: Shape, d: Path, u: set<Path>)
    requires Linked(s) && Due(s, d, u) && d in ListsOf(s)
    ensures WrittenIn(s, u + {d}) == WrittenIn(s, u)[d := KidElems(s, d)]
    ensures SeenIn(s, u + {d}) == SeenIn(s, u) + (set p | p in s.nodes && IsChild(p, d))
    ensures d !in WrittenIn(s, u)
  {
    hide Linked, ListsOf, Open, Beneath;
    InLists(s, d);
  }

  lemma DueDirectory(s: Shape, d: Path, u: set<Path>)
    requires Linked(s) && Due(s, d, u) && s.Kids(d) != []
    ensures Acceptable(Loading(WrittenIn(s, u), SeenIn(s, u), KidElems(s, d)), d)
  {
    hide Linked, ListsOf, Open, Beneath, Group, PathsOf;
    KidsGroup(s, d);
    if d == Top {
      assert WrittenIn(s, u) == map[];
    } else {
      DueListed(s, d, u);
    }
  }

  lemma DueListed(s: Shape, d: Path, u: set<Path>)
    requires Linked(s) && Due(s, d, u) && d != Top
    ensures ListedDir(WrittenIn(s, u), d) && d !in WrittenIn(s, u)
  {
    hide Linked, ListsOf, Beneath;
    HasPath(s, d);
    HasList(s, d);
    FrontDirectory(s, d);
    ListedDirIs(s, d);
    var e :| e in ListsOf(s)[d.dir] && e.rp == d && e.ty.Directory?;
    assert e in WrittenIn(s, u)[d.dir];
  }

  lemma FrontDirectory(s: Shape, d: Path)
    requires Linked(s) && InFront(s, d)
    ensures d in s.Contents() && s.Contents()[d].ty.Directory?
  {
    HasList(s, d);
    var l := s.Kids(d.dir);
    var j :| 0 <= j < |l| && l[j] == s.nodes[d];
    assert Lists(l, s.nodes, s.store, d.dir);
  }

  lemma HasPath(s: Shape, d: Path)
    requires Linked(s) && s.Has(d) && d != Top
    ensures d in s.nodes
  {
  }

  // ---------- the writer ----------

  /** A kid's element is that of its path. */
  lemma KidLegible(cal: Calendar, s: Shape, d: Path, i: nat)
    requires Linked(s) && s.Has(d) && i < |s.Kids(d)| && AllLegible(cal, s.Contents())
    ensures s.Kids(d)[i] in s.store && Legible(cal, s.store[s.Kids(d)[i]].elem)
  {
    hide Legible;
    assert Lists(s.Kids(d), s.nodes, s.store, d) && s.Kids(d)[i] in s.Kids(d);
    assert s.Contents()[s.store[s.Kids(d)[i]].elem.rp] == s.store[s.Kids(d)[i]].elem;
  }

  /** After the blank line, if one is due, a new list starts. */
  lemma Broken(cal: Calendar, lines: seq<string>, printBreak: bool, s: Shape, u: set<Path>)
    requires Linked(s) && Wrote(cal, lines, printBreak, s, u)
    ensures FeedAll(cal, if printBreak then lines + [""] else lines) == Some(Loading(WrittenIn(s, u), SeenIn(s, u), []))
  {
    hide Linked, WrittenIn, SeenIn, Acceptable;
    FeedMore(cal, lines, "");
  }

  /** The whole list has been printed. */
  lemma Listed(cal: Calendar, lines: seq<string>, s: Shape, d: Path, u: set<Path>)
    requires Linked(s) && Due(s, d, u)
    requires FeedAll(cal, lines) == Some(Loading(WrittenIn(s, u), SeenIn(s, u), KidElems(s, d)))
    ensures Wrote(cal, lines, s.Kids(d) != [], s, u + {d})
  {
    hide Linked, WrittenIn, SeenIn, Flush, Due;
    DueFits(s, d, u);
  }

  class MetadataWriter {
    const cal: Calendar
    const t: DirectoryTree
    var lines: seq<string>
    var printBreak: bool

    constructor (cal: Calendar, t: DirectoryTree)
      ensures this.cal == cal && this.t == t && lines == [] && !printBreak
    {
      this.cal, this.t, lines, printBreak := cal, t, [], false;
    }

    /** The text so far reads as the lists of `u`, if every element can be read from its line. */
    ghost predicate Good(u: set<Path>)
      requires Linked(t.State())
      reads this, t
    {
      AllLegible(cal, t.Contents()) ==> NoBreaks(lines) && Wrote(cal, lines, printBreak, t.State(), u)
    }

    /** Print the entries of one directory. */
    method WriteList(l: seq<Addr>, ghost d: Path, ghost u: set<Path>)
      requires t.Valid() && Linked(t.State()) && t.State().Has(d) && l == t.State().Kids(d) && Due(t.State(), d, u)
      requires Good(u)
      modifies this
      ensures Good(u + {d})
    {
      hide Linked, WrittenIn, SeenIn, Due, Print, ReadElement, Legible, Shape.Wired, Indexed, Ordered, Wrote, FeedAll,
           AllLegible, Shape.Contents, NoBreaks;
      ghost var s := t.State();
      ghost var legible := AllLegible(cal, t.Contents());
      KidsKnown(s, d);
      if legible { Broken(cal, lines, printBreak, s, u); }
      BlankLine(lines);
      if printBreak { lines := lines + [""]; }
      for i := 0 to |l|
        invariant legible ==> NoBreaks(lines)
        invariant legible ==> FeedAll(cal, lines) == Some(Loading(WrittenIn(s, u), SeenIn(s, u), KidElems(s, d)[..i]))
      {
        var line := Print(cal, t.store[l[i]].elem);
        if legible {
          KidLegible(cal, s, d, i);
          LineReads(cal, t.store[l[i]].elem);
          FeedMore(cal, lines, line);
          BlankLine(lines);
          AnotherLine(lines, line);
          assert KidElems(s, d)[..i + 1] == KidElems(s, d)[..i] + [t.store[l[i]].elem];
        }
        lines := lines + [line];
      }
      assert KidElems(s, d)[..|l|] == KidElems(s, d);
      printBreak := l != [];
      if legible { Listed(cal, lines, s, d, u); }
    }

    /** Print the entries of one directory, and then those of its directories up to the first other entry. */
    method RecursiveWrite(l: seq<Addr>, ghost d: Path, ghost u: set<Path>)
      requires t.Valid() && Linked(t.State()) && t.State().Has(d) && l == t.State().Kids(d) && Due(t.State(), d, u)
      requires Good(u)
      modifies this
      ensures Good(u + {d} + Beneath(t.State(), d))
      decreases Beneath(t.State(), d) - {d}
    {
      hide Linked, Due, Good, Shape.Wired, Indexed, Ordered, Swept, Beneath, Open, InFront;
      ghost var s := t.State();
      WriteList(l, d, u);
      SweptSteps(s, d);
      KidsKnown(s, d);
      assert u + {d} + {} == u + {d};
      for i := 0 to |l|
        invariant Good(u + {d} + Swept(s, l[..i]))
        invariant forall j :: 0 <= j < i ==> t.store[l[j]].elem.ty.Directory?
      {
        if !t.store[l[i]].elem.ty.Directory? {
          NothingBehind(s, d, u, i);
          SameGood(u + {d} + Swept(s, l[..i]), u + {d} + Beneath(s, d));
          return;
        }
        ghost var v := u + {d} + Swept(s, l[..i]);
        ghost var c := KidAt(s, d, i);
        NextDue(s, d, u, i, c);
        RecursiveWrite(t.store[l[i]].content, c, v);
        assert v + {c} + Beneath(s, c) == u + {d} + Swept(s, l[..i + 1]);
      }
      assert u + {d} + Swept(s, l[..|l|]) == u + {d} + Beneath(s, d);
    }

    lemma SameGood(u: set<Path>, v: set<Path>)
      requires Linked(t.State()) && Good(u) && WrittenIn(t.State(), u) == WrittenIn(t.State(), v)
      requires SeenIn(t.State(), u) == SeenIn(t.State(), v)
      ensures Good(v)
    {
      hide Linked, WrittenIn, SeenIn;
    }
  }

  lemma KidsKnown(s: Shape, d: Path)
    requires Linked(s) && s.Has(d)
    ensures Known(s.Kids(d), s.store) && KidElems(s, d) == Elems(s.Kids(d), s.store)
  {
    assert Lists(s.Kids(d), s.nodes, s.store, d);
  }

  lemma BlankLine(lines: seq<string>)
    ensures NoBreaks(lines) ==> NoBreaks(lines + [""])
  {
  }

  lemma AnotherLine(lines: seq<string>, line: string)
    requires NoBreaks(lines) && '\n' !in line
    ensures NoBreaks(lines + [line])
  {
  }

  lemma SweptSteps(s: Shape, d: Path)
    requires s.Wired() && s.Has(d)
    ensures Swept(s, s.Kids(d)[..0]) == {}
    ensures Swept(s, s.Kids(d)[..|s.Kids(d)|]) == Beneath(s, d) - {d}
  {
    SweptAll(s, d);
    assert s.Kids(d)[..|s.Kids(d)|] == s.Kids(d);
  }

  /** The next directory of the list is due. */
  lemma NextDue(s: Shape, d: Path, u: set<Path>, i: nat, c: Path)
    requires s.Wired() && Linked(s) && Due(s, d, u) && i < |s.Kids(d)| && Known(s.Kids(d), s.store)
    requires c in s.nodes && s.nodes[c] == s.Kids(d)[i] && IsChild(c, d)
    requires Beneath(s, c) <= Beneath(s, d) - {d} && Swept(s, s.Kids(d)[..i]) !! Beneath(s, c)
    requires forall j :: 0 <= j <= i ==> s.store[s.Kids(d)[j]].elem.ty.Directory?
    ensures c in Beneath(s, c) && s.Has(c) && s.Kids(c) == s.store[s.Kids(d)[i]].content
    ensures Due(s, c, u + {d} + Swept(s, s.Kids(d)[..i]))
  {
    hide ListsOf, Swept, Lists;
    KidsOf(s, d);
    InLists(s, d);
    LeafBeneath(s, c);
  }

  /** Nothing behind an entry that is not a directory is written. */
  lemma NothingBehind(s: Shape, d: Path, u: set<Path>, i: nat)
    requires s.Wired() && Linked(s) && s.Has(d) && i < |s.Kids(d)| && Known(s.Kids(d), s.store)
    requires !s.store[s.Kids(d)[i]].elem.ty.Directory?
    ensures WrittenIn(s, u + {d} + Swept(s, s.Kids(d)[..i])) == WrittenIn(s, u + {d} + Beneath(s, d))
    ensures SeenIn(s, u + {d} + Swept(s, s.Kids(d)[..i])) == SeenIn(s, u + {d} + Beneath(s, d))
  {
    hide Linked, ListsOf, Shape.Wired, Open;
    var v, w := u + {d} + Swept(s, s.Kids(d)[..i]), u + {d} + Beneath(s, d);
    SweptSome(s, d, i);
    forall b | b in ListsOf(s) && Open(s, b) && b in Beneath(s, d) - {d} ensures b in Swept(s, s.Kids(d)[..i]) {
      BehindIsShut(s, d, i, b);
    }
    SameWritten(s, v, w);
  }

  lemma BehindIsShut(s: Shape, d: Path, i: nat, b: Path)
    requires s.Wired() && s.Has(d) && i < |s.Kids(d)| && Known(s.Kids(d), s.store)
    requires !s.store[s.Kids(d)[i]].elem.ty.Directory?
    requires b in s.nodes && Under(b, d) && b != d && Open(s, b)
    ensures b in Swept(s, s.Kids(d)[..i])
  {
    hide Lists;
    var c := FirstStep(s, d, b);
    OpenAbove(s, b, c);
    KidsOf(s, d);
    var l := s.Kids(d);
    var j :| 0 <= j < |l| && l[j] == s.nodes[c];
    assert l[i] in s.store;
    assert j < i;
    assert l[j] in l[..i];
  }

  lemma {:induction false} OpenAbove(s: Shape, b: Path, c: Path)
    requires Open(s, b) && Under(b, c) && c.In?
    ensures Open(s, c)
  {
    if b != c { OpenAbove(s, b.dir, c); }
  }

  /** Write a metadata file. Reading the text gives the lists that the writer gets to. */
  method WriteTo(t: DirectoryTree, cal: Calendar) returns (text: string)
    requires t.Valid()
    ensures Linked(t.State())
    ensures AllLegible(cal, t.Contents()) ==> LoadText(cal, text) == Some(Written(t.State()))
  {
    hide Linked, Shape.Wired, Indexed, Ordered, WrittenIn, SeenIn, NoBreaks, AllLegible, GetLines, FeedAll,
         Shape.Contents;
    ghost var s := t.State();
    LinkedTree(t);
    var w := new MetadataWriter(cal, t);
    StartWriting(cal, s);
    w.RecursiveWrite(t.topContent, Top, {});
    text := Unlines(w.lines);
    if AllLegible(cal, t.Contents()) {
      WrittenOut(cal, w.lines, s, w.printBreak);
    }
  }

  lemma LinkedTree(t: DirectoryTree)
    requires t.Valid()
    ensures Linked(t.State()) && t.State().Has(Top) && t.State().Kids(Top) == t.topContent
  {
    WiredIsLinked(t.State());
  }

  lemma StartWriting(cal: Calendar, s: Shape)
    requires Linked(s)
    ensures NoBreaks([]) && Wrote(cal, [], false, s, {}) && Due(s, Top, {})
  {
    hide ListsOf, Lists;
    assert WrittenIn(s, {}) == map[];
    assert SeenIn(s, {}) == {};
  }

  lemma WrittenOut(cal: Calendar, lines: seq<string>, s: Shape, printBreak: bool)
    requires Linked(s) && NoBreaks(lines) && Wrote(cal, lines, printBreak, s, {} + {Top} + Beneath(s, Top))
    ensures LoadText(cal, Unlines(lines)) == Some(Written(s))
  {
    hide ListsOf, Lists, FeedAll, GetLines, Unlines, Flush, Open;
    LinesRoundTrip(lines);
    forall b | b in ListsOf(s) ensures b in {} + {Top} + Beneath(s, Top) {
      if b != Top { InNodes(s, b); UnderTop(b); }
    }
    assert WrittenIn(s, {} + {Top} + Beneath(s, Top)) == Written(s);
  }

  // ---------- the round trip ----------

  /**
   * A tree `s` has been written and `t` is what was read back. The lists are the same just when no directory
   * that has entries comes after something else in its list; then the whole tree is the same.
   */
  lemma FileRoundTrip(cal: Calendar, s: Shape, text: string, t: Shape)
    requires s.Wired() && Linked(s) && LoadText(cal, text) == Some(Written(s)) && Linked(t)
    requires ListsOf(t) == LoadText(cal, text).value
    ensures ListsOf(t) == ListsOf(s) <==> forall b :: b in ListsOf(s) && b != Top ==> InFront(s, b)
    ensures t.Wired()
    ensures ListsOf(t) == ListsOf(s) ==> t.Contents() == s.Contents()
  {
    hide Linked, ListsOf, Shape.Wired, LoadText, InFront;
    WrittenAll(s);
    if ListsOf(t) == ListsOf(s) { ListsTell(s, t); }
    LinkedIsWired(s);
    LinkedIsWired(t);
    forall d | d in ListsOf(t) ensures IsDir(t.Contents(), d) {
      assert Open(s, d);
      if d != Top { ReadDirectory(s, t, d); }
    }
  }

  /** What the writer goes down is a directory for the reader as well. */
  lemma ReadDirectory(s: Shape, t: Shape, d: Path)
    requires Linked(s) && Linked(t) && ListsOf(t) == Written(s) && d in ListsOf(s) && d != Top && Open(s, d)
    ensures IsDir(t.Contents(), d)
  {
    hide Linked, ListsOf;
    InNodes(s, d);
    HasList(s, d);
    assert d.dir in Written(s);
    var i := PositionOf(s, d);
    SameElement(s, t, d.dir, i);
  }

  lemma PositionOf(s: Shape, d: Path) returns (i: nat)
    requires Linked(s) && d in s.nodes && d.In? && s.Has(d.dir) && InFront(s, d)
    ensures i < |s.Kids(d.dir)| && Known(s.Kids(d.dir), s.store)
    ensures s.store[s.Kids(d.dir)[i]].elem.rp == d && s.store[s.Kids(d.dir)[i]].elem.ty.Directory?
  {
    HasList(s, d);
    KidsKnown(s, d.dir);
    i :| 0 <= i < |s.Kids(d.dir)| && s.Kids(d.dir)[i] == s.nodes[d];
  }

  lemma SameElement(s: Shape, t: Shape, b: Path, i: nat)
    requires Linked(s) && Linked(t) && b in ListsOf(s) && b in ListsOf(t) && ListsOf(s)[b] == ListsOf(t)[b]
    requires s.Has(b) && i < |s.Kids(b)| && Known(s.Kids(b), s.store)
    ensures var e := s.store[s.Kids(b)[i]].elem; e.rp in t.Contents() && t.Contents()[e.rp] == e
  {
    InLists(s, b);
    InLists(t, b);
    KidsKnown(t, b);
    assert ListsOf(s)[b][i] == s.store[s.Kids(b)[i]].elem && ListsOf(t)[b][i] == t.store[t.Kids(b)[i]].elem;
    assert Lists(t.Kids(b), t.nodes, t.store, b) && t.Kids(b)[i] in t.Kids(b);
  }

  /** Lists with the directories first lose nothing. */
  lemma DirsFirstWritten(s: Shape)
    requires s.Wired() && Linked(s) && Ordered(s)
    ensures Written(s) == ListsOf(s)
  {
    hide ListsOf, Linked, Ordered, Shape.Wired;
    WrittenAll(s);
    forall b | b in ListsOf(s) && b != Top ensures InFront(s, b) {
      InNodes(s, b);
      HasList(s, b);
      NonEmptyIsDir(s, b);
      OrderedAt(s, b.dir);
    }
  }

  lemma NonEmptyIsDir(s: Shape, b: Path)
    requires s.Wired() && Linked(s) && b in ListsOf(s) && b in s.nodes
    ensures s.store[s.nodes[b]].elem.ty.Directory?
  {
    hide Lists;
    var p := SomeKid(s, b);
  }

  /** A file `f` before a directory `d` that holds `x`. */
  function Mixed(f: Element, d: Element, x: Element): Shape {
    Shape(Top, [0, 1], map[f.rp := 0, d.rp := 1, x.rp := 2], map[0 := Cell(f, []), 1 := Cell(d, [2]), 2 := Cell(x, [])])
  }

  lemma MixedWired(f: Element, d: Element, x: Element)
    requires f.rp == In(Top, "f") && d.rp == In(Top, "d") && x.rp == In(d.rp, "x") && d.ty.Directory?
    ensures Mixed(f, d, x).Wired() && Linked(Mixed(f, d, x))
  {
    var s := Mixed(f, d, x);
    forall b | s.Has(b) ensures Lists(s.Kids(b), s.nodes, s.store, b) {}
    WiredIsLinked(s);
  }

  /** The entries of the directory are not written. */
  lemma FileBeforeDirectory(f: Element, d: Element, x: Element)
    requires f.rp == In(Top, "f") && d.rp == In(Top, "d") && x.rp == In(d.rp, "x") && f.ty.Regular? && d.ty.Directory?
    ensures var s := Mixed(f, d, x); s.Wired() && Linked(s) && d.rp in ListsOf(s) && d.rp !in Written(s)
  {
    hide Shape.Wired, Linked, ListsOf;
    var s := Mixed(f, d, x);
    MixedWired(f, d, x);
    InLists(s, d.rp);
    assert s.Kids(Top)[0] == 0 && s.Kids(Top)[1] == 1;
    assert !InFront(s, d.rp);
  }
}
