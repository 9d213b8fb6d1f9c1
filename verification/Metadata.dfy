/** Metadata files: the reader and the text it accepts. */
module Metadata {
  import opened Elements
  import opened Catalogs
  import opened Shapes
  import opened Order
  import opened Trees
  import opened Listings
  import opened Lines

  // ---------- lines ----------

  function LineEnd(text: string): (n: nat)
    ensures n <= |text| && (n < |text| ==> text[n] == '\n')
  {
    if text == "" || text[0] == '\n' then 0 else 1 + LineEnd(text[1..])
  }

  /** The lines of a text; the last one may lack its line break. */
  function GetLines(text: string): seq<string> {
    if text == "" then []
    else
      var n := LineEnd(text);
      [text[..n]] + if n < |text| then GetLines(text[n + 1..]) else []
  }

  function Unlines(lines: seq<string>): string {
    if lines == [] then "" else lines[0] + ("\n" + Unlines(lines[1..]))
  }

  lemma {:induction false} LineEndIs(line: string, rest: string)
    requires '\n' !in line
    ensures LineEnd(line + ("\n" + rest)) == |line|
  {
    if line == "" {
      assert line + ("\n" + rest) == "\n" + rest;
    } else {
      assert (line + ("\n" + rest))[1..] == line[1..] + ("\n" + rest);
      LineEndIs(line[1..], rest);
    }
  }

  lemma {:induction false} LinesRoundTrip(lines: seq<string>)
    requires forall l :: l in lines ==> '\n' !in l
    ensures GetLines(Unlines(lines)) == lines
  {
    if lines != [] {
      var text, rest := Unlines(lines), Unlines(lines[1..]);
      assert lines[0] in lines;
      LineEndIs(lines[0], rest);
      assert text[..|lines[0]|] == lines[0] && text[|lines[0]| + 1..] == rest;
      LinesRoundTrip(lines[1..]);
    }
  }

  // ---------- what a text says ----------

  /** What has been read: the finished lists, the paths in them, and the list that is being read. */
  datatype Loading = Loading(lists: Listing, seen: set<Path>, cur: seq<Element>)

  const NOTHING := Loading(map[], {}, [])

  function PathsOf(g: seq<Element>): set<Path> {
    set e | e in g :: e.rp
  }

  /** Different entries of one directory. */
  ghost predicate Group(g: seq<Element>, d: Path) {
    && (forall e :: e in g ==> IsChild(e.rp, d))
    && (forall i, j :: 0 <= i < j < |g| ==> g[i].rp != g[j].rp)
  }

  /** The list that has been read belongs to a directory `d` that is known and whose entries are not. */
  ghost predicate Acceptable(l: Loading, d: Path) {
    && Group(l.cur, d) && PathsOf(l.cur) !! l.seen
    && (if l.lists == map[] then d == Top else ListedDir(l.lists, d) && d !in l.lists)
  }

  function DirOf(g: seq<Element>): Path
    requires g != []
  {
    if g[0].rp.In? then g[0].rp.dir else Top
  }

  /** A blank line ends a list. */
  ghost function Flush(l: Loading): Option<Loading> {
    if l.cur == [] then Some(l)
    else if Acceptable(l, DirOf(l.cur)) then Some(Loading(l.lists[DirOf(l.cur) := l.cur], l.seen + PathsOf(l.cur), []))
    else None
  }

  ghost function Feed(cal: Calendar, l: Loading, line: string): Option<Loading> {
    if line == "" then Flush(l)
    else var e :- ReadElement(cal, line); Some(l.(cur := l.cur + [e]))
  }

  ghost function FeedAll(cal: Calendar, lines: seq<string>): Option<Loading> {
    if lines == [] then Some(NOTHING)
    else var l :- FeedAll(cal, lines[..|lines| - 1]); Feed(cal, l, lines[|lines| - 1])
  }

  lemma FeedMore(cal: Calendar, lines: seq<string>, line: string)
    ensures FeedAll(cal, lines + [line]) ==
              if FeedAll(cal, lines).Some? then Feed(cal, FeedAll(cal, lines).value, line) else None
  {
    assert (lines + [line])[..|lines|] == lines;
  }

  /** The lists that a text describes, if it describes any. */
  ghost function LoadText(cal: Calendar, text: string): Option<Listing> {
    var l :- FeedAll(cal, GetLines(text));
    var r :- Flush(l);
    Some(r.lists)
  }

  /** A list is a line for each entry; a blank line comes before the list of the next directory. */
  lemma FileSpelled(cal: Calendar, x: Element, y: Element, z: Element, k: string, l: string, m: string)
    requires ReadElement(cal, k) == Some(x) && ReadElement(cal, l) == Some(y) && ReadElement(cal, m) == Some(z)
    requires k != "" && l != "" && m != "" && '\n' !in k && '\n' !in l && '\n' !in m
    requires x.ty.Directory? && x.rp.In? && x.rp.dir == Top && y.rp.In? && y.rp.dir == Top && x.rp != y.rp
    requires z.rp.In? && z.rp.dir == x.rp
    ensures LoadText(cal, k + "\n" + l + "\n\n" + m + "\n") == Some(map[Top := [x, y], x.rp := [z]])
  {
    hide ReadElement, GetLines, FeedAll, Flush;
    var text := k + "\n" + l + "\n\n" + m + "\n";
    var lines := [k, l, "", m];
    TextOf(k, l, m);
    LinesRoundTrip(lines);
    FeedStart(cal);
    FeedMore(cal, [], k);
    FeedMore(cal, [k], l);
    FeedMore(cal, [k, l], "");
    FeedMore(cal, [k, l, ""], m);
    assert [] + [k] == [k] && [k] + [l] == [k, l] && [k, l] + [""] == [k, l, ""] && [k, l, ""] + [m] == lines;
    TwoGroups(x, y, z);
    assert [] + [x] == [x] && [x] + [y] == [x, y] && [] + [z] == [z];
    assert FeedAll(cal, [k, l]) == Some(Loading(map[], {}, [x, y]));
    assert FeedAll(cal, [k, l, ""]) == Some(Loading(map[Top := [x, y]], {x.rp, y.rp}, []));
    assert FeedAll(cal, lines) == Some(Loading(map[Top := [x, y]], {x.rp, y.rp}, [z]));
  }

  lemma FeedStart(cal: Calendar)
    ensures FeedAll(cal, []) == Some(NOTHING)
  {
  }

  lemma TextOf(k: string, l: string, m: string)
    ensures Unlines([k, l, "", m]) == k + "\n" + l + "\n\n" + m + "\n"
  {
    var lines := [k, l, "", m];
    assert lines[1..] == [l, "", m] && lines[1..][1..] == ["", m] && lines[1..][1..][1..] == [m] && [m][1..] == [];
    assert Unlines([m]) == m + ("\n" + "");
    assert Unlines(["", m]) == "" + ("\n" + Unlines([m]));
    assert "\n\n" == "\n" + "\n";
  }

  lemma TwoGroups(x: Element, y: Element, z: Element)
    requires x.ty.Directory? && x.rp.In? && x.rp.dir == Top && y.rp.In? && y.rp.dir == Top && x.rp != y.rp
    requires z.rp.In? && z.rp.dir == x.rp
    ensures Flush(Loading(map[], {}, [x, y])) == Some(Loading(map[Top := [x, y]], {x.rp, y.rp}, []))
    ensures Flush(Loading(map[Top := [x, y]], {x.rp, y.rp}, [z])) ==
              Some(Loading(map[Top := [x, y], x.rp := [z]], {x.rp, y.rp, z.rp}, []))
  {
    assert x in [x, y] && y in [x, y] && z in [z];
    assert PathsOf([x, y]) == {x.rp, y.rp} && PathsOf([z]) == {z.rp};
    assert Acceptable(Loading(map[], {}, [x, y]), Top);
    assert z.rp != x.rp && z.rp != y.rp && Top in map[Top := [x, y]];
    assert Acceptable(Loading(map[Top := [x, y]], {x.rp, y.rp}, [z]), x.rp);
    var none: Listing := map[];
    assert none[Top := [x, y]] == map[Top := [x, y]] && {} + PathsOf([x, y]) == {x.rp, y.rp};
    assert map[Top := [x, y]][x.rp := [z]] == map[Top := [x, y], x.rp := [z]];
    assert {x.rp, y.rp} + PathsOf([z]) == {x.rp, y.rp, z.rp};
  }

  // ---------- the reader ----------

  /** The tree `s` holds what has been read; the nodes of the unfinished list are in `k`. */
  ghost predicate Holds(s: Shape, l: Loading, k: seq<Addr>) {
    && Linked(s) && ListsOf(s) == l.lists && s.nodes.Keys == l.seen
    && NoDup(k) && Known(k, s.store) && Elems(k, s.store) == l.cur
    && (forall n :: n in k ==> s.store[n].content == [])
    && (forall p :: p in s.nodes ==> s.nodes[p] !in k)
  }

  ghost predicate Building(t: DirectoryTree, l: Loading, k: seq<Addr>)
    reads t
  {
    && t.nodes == t.index && Holds(t.State(), l, k) && (forall n :: n in t.store ==> n < t.next)
    && (forall e :: e in l.cur ==> e.rp.In?)
  }

  method Clear(t: DirectoryTree)
    modifies t
    ensures Building(t, NOTHING, []) && t.disk == null
  {
    t.topContent, t.index, t.store, t.next, t.disk := [], map[], map[], 0, null;
    t.nodes := map[];
    assert Linked(t.State()) && ListsOf(t.State()) == map[];
  }

  /** The first `i` nodes of `k` are different new entries of `d`, and the index has them. */
  ghost predicate Entering(s: Shape, k: seq<Addr>, i: nat, d: Path, index: Nodes)
    requires Known(k, s.store) && i <= |k|
  {
    && (forall n :: n in k[..i] ==> IsChild(s.store[n].elem.rp, d) && s.store[n].elem.rp !in s.nodes)
    && (forall a, b :: 0 <= a < b < i ==> s.store[k[a]].elem.rp != s.store[k[b]].elem.rp)
    && Entered(s, k[..i], index)
  }

  /** Enter the nodes `k` into the index, if they are different entries of the directory `d`. */
  method EnterAll(t: DirectoryTree, k: seq<Addr>, d: Path, ghost l: Loading) returns (ok: bool)
    requires Building(t, l, k)
    modifies t`index
    ensures ok <==> Group(l.cur, d) && PathsOf(l.cur) !! l.seen
    ensures ok ==> Joining(t.State(), d, k) && Entered(t.State(), k, t.index)
  {
    hide Linked, ListsOf, NoDup, Entering, Group, Joining, Entered;
    NoneEntered(t.State(), k, d);
    for i := 0 to |k|
      invariant Entering(t.State(), k, i, d, t.index)
    {
      var e := t.store[k[i]].elem;
      EnterNext(t.State(), l, k, i, d, t.index);
      if !IsChild(e.rp, d) || e.rp in t.index { return false; }
      t.index := t.index[e.rp := k[i]];
    }
    AllEntered(t.State(), l, k, d, t.index);
    return true;
  }

  lemma NoneEntered(s: Shape, k: seq<Addr>, d: Path)
    requires Known(k, s.store)
    ensures Entering(s, k, 0, d, s.nodes)
  {
  }

  lemma EnterNext(s: Shape, l: Loading, k: seq<Addr>, i: nat, d: Path, index: Nodes)
    requires Holds(s, l, k) && i < |k| && Entering(s, k, i, d, index)
    ensures var e := s.store[k[i]].elem;
            if !IsChild(e.rp, d) || e.rp in index then !Group(l.cur, d) || !(PathsOf(l.cur) !! l.seen)
            else Entering(s, k, i + 1, d, index[e.rp := k[i]])
  {
    hide Linked, ListsOf, NoDup, Elems, Entering, Group, IsChild, PathsOf;
    var e := s.store[k[i]].elem;
    if !IsChild(e.rp, d) || e.rp in index {
      EnterRefused(s, l, k, i, d, index);
    } else {
      EnterMore(s, k, i, d, index);
    }
  }

  lemma EnterRefused(s: Shape, l: Loading, k: seq<Addr>, i: nat, d: Path, index: Nodes)
    requires Holds(s, l, k) && i < |k| && Entering(s, k, i, d, index)
    requires !IsChild(s.store[k[i]].elem.rp, d) || s.store[k[i]].elem.rp in index
    ensures !Group(l.cur, d) || !(PathsOf(l.cur) !! l.seen)
  {
    hide Linked, ListsOf, NoDup, Elems;
    var e := s.store[k[i]].elem;
    assert e == l.cur[i] && e in l.cur && e.rp in PathsOf(l.cur);
    if e.rp in index && e.rp !in s.nodes {
      var j :| 0 <= j < i && k[j] == index[e.rp];
      assert l.cur[j].rp == l.cur[i].rp;
    }
  }

  lemma EnterMore(s: Shape, k: seq<Addr>, i: nat, d: Path, index: Nodes)
    requires Known(k, s.store) && i < |k| && Entering(s, k, i, d, index)
    requires IsChild(s.store[k[i]].elem.rp, d) && s.store[k[i]].elem.rp !in index
    ensures Entering(s, k, i + 1, d, index[s.store[k[i]].elem.rp := k[i]])
  {
    assert k[..i + 1] == k[..i] + [k[i]];
    forall a | 0 <= a < i ensures s.store[k[a]].elem.rp in index { assert k[a] in k[..i]; }
  }

  lemma AllEntered(s: Shape, l: Loading, k: seq<Addr>, d: Path, index: Nodes)
    requires Holds(s, l, k) && Entering(s, k, |k|, d, index)
    ensures Group(l.cur, d) && PathsOf(l.cur) !! l.seen && Joining(s, d, k) && Entered(s, k, index)
  {
    hide Linked, ListsOf, NoDup, Elems, Entered;
    assert k[..|k|] == k;
    forall e | e in l.cur ensures IsChild(e.rp, d) && e.rp !in s.nodes {
      var i :| 0 <= i < |l.cur| && l.cur[i] == e;
      assert k[i] in k;
    }
  }

  /** A list is finished: it becomes the content of its directory. */
  method Add(t: DirectoryTree, k: seq<Addr>, ghost l: Loading) returns (ok: bool)
    requires Building(t, l, k)
    modifies t
    ensures ok <==> Flush(l).Some?
    ensures ok ==> Building(t, Flush(l).value, []) && t.disk == old(t.disk)
    ensures k == [] ==> t.State() == old(t.State()) && t.index == old(t.index)
    ensures ok && k != [] ==> l.cur != [] && old(t.State()).Has(DirOf(l.cur)) && old(t.State()).Kids(DirOf(l.cur)) == []
    ensures ok && k != [] ==> Joining(old(t.State()), DirOf(l.cur), k) && Entered(old(t.State()), k, t.index)
    ensures ok && k != [] ==> t.State() == Attached(old(t.State()), DirOf(l.cur), k, t.index)
  {
    hide Linked, ListsOf, NoDup, Group, Joining, Entered, Elems;
    ghost var s := t.State();
    if k == [] {
      return true;
    }
    Front(s, l, k);
    var d := t.store[k[0]].elem.rp.dir;
    ok := EnterAll(t, k, d, l);
    if !ok { return; }
    PlaceOf(s, l, k, d, t.index);
    if t.topContent == [] {
      if d != Top { return false; }
      t.topContent := k;
    } else {
      if d !in t.index { return false; }
      if t.store[t.index[d]].content != [] { return false; }
      if !t.store[t.index[d]].elem.ty.Directory? { return false; }
      t.store := t.store[t.index[d] := t.store[t.index[d]].(content := k)];
    }
    t.nodes := t.index;
    Settled(s, l, k, d, t.index);
    assert t.State() == Attached(s, d, k, t.index);
  }

  lemma Front(s: Shape, l: Loading, k: seq<Addr>)
    requires Holds(s, l, k) && k != [] && forall e :: e in l.cur ==> e.rp.In?
    ensures k[0] in s.store && s.store[k[0]].elem.rp.In? && l.cur != [] && DirOf(l.cur) == s.store[k[0]].elem.rp.dir
  {
    hide Linked, ListsOf, NoDup;
    assert l.cur[0] in l.cur;
  }

  /** Whether there is a directory for the list. */
  lemma PlaceOf(s: Shape, l: Loading, k: seq<Addr>, d: Path, index: Nodes)
    requires Holds(s, l, k) && k != [] && Joining(s, d, k) && Entered(s, k, index)
    ensures l.lists == map[] <==> s.top == []
    ensures d in index ==> s.Has(d) && d != Top && index[d] == s.nodes[d] && index[d] in s.store
    ensures d in index ==> (s.store[index[d]].content == [] <==> d !in l.lists)
    ensures ListedDir(l.lists, d) <==> d in index && s.store[index[d]].elem.ty.Directory?
    ensures s.Has(Top) && s.Kids(Top) == s.top
  {
    hide NoDup, Lists, Elems;
    if s.top == [] { NoTopNoNodes(s); } else { InLists(s, Top); }
    assert !IsChild(d, d) by { if d.In? { assert Depth(d) == Depth(d.dir) + 1; } }
    InLists(s, d);
    ListedDirIs(s, d);
  }

  lemma Settled(s: Shape, l: Loading, k: seq<Addr>, d: Path, index: Nodes)
    requires Holds(s, l, k) && k != [] && s.Has(d) && s.Kids(d) == [] && Joining(s, d, k) && Entered(s, k, index)
    ensures Holds(Attached(s, d, k, index), Loading(l.lists[d := l.cur], l.seen + PathsOf(l.cur), []), [])
  {
    hide Lists, Linked, ListsOf, Joining, Entered, PathsOf, Elems;
    Attach(s, d, k, index);
    SeenPaths(s, l, k, index);
  }

  lemma SeenPaths(s: Shape, l: Loading, k: seq<Addr>, index: Nodes)
    requires Holds(s, l, k) && Entered(s, k, index)
    ensures index.Keys == l.seen + PathsOf(l.cur)
  {
    hide NoDup, Linked, ListsOf, Elems;
    forall p ensures p in index <==> p in s.nodes || p in PathsOf(l.cur) {
      if p in index && p !in s.nodes {
        var i :| 0 <= i < |k| && k[i] == index[p];
        assert l.cur[i].rp == p && l.cur[i] in l.cur;
      }
      if p in PathsOf(l.cur) {
        var i :| 0 <= i < |k| && l.cur[i].rp == p;
        assert k[i] in k;
      }
    }
  }

  /** A node for one line joins the unfinished list. */
  method Push(t: DirectoryTree, k: seq<Addr>, e: Element, ghost l: Loading) returns (k': seq<Addr>)
    requires Building(t, l, k) && e.rp.In?
    modifies t`store, t`next
    ensures Building(t, l.(cur := l.cur + [e]), k')
  {
    hide Linked, ListsOf, Elems;
    ghost var s := t.State();
    k' := k + [t.next];
    MoreStore(s, t.next, Cell(e, []), k, k');
    t.store := t.store[t.next := Cell(e, [])];
    t.next := t.next + 1;
  }

  /** A new address changes nothing. */
  lemma MoreStore(s: Shape, n: Addr, c: Cell, k: seq<Addr>, k': seq<Addr>)
    requires Linked(s) && n !in s.store && Known(k, s.store) && k' == k + [n]
    ensures var s' := s.(store := s.store[n := c]);
            Linked(s') && ListsOf(s') == ListsOf(s) && Known(k', s'.store)
                && Elems(k', s'.store) == Elems(k, s.store) + [c.elem]
    ensures forall p :: p in s.nodes ==> s.nodes[p] != n
  {
    hide NoDup, Lists;
    var s' := s.(store := s.store[n := c]);
    forall b | s'.Has(b) ensures s.Has(b) && s'.Kids(b) == s.Kids(b) && Lists(s'.Kids(b), s'.nodes, s'.store, b) {
      ListsKept(s, n, c, b);
    }
    forall b ensures ListAt(ListsOf(s'), b) == ListAt(ListsOf(s), b) {
      InLists(s, b);
      InLists(s', b);
      if s.Has(b) { ListsKept(s, n, c, b); }
    }
    SameListing(ListsOf(s'), ListsOf(s));
  }

  function ListAt(l: Listing, b: Path): Option<seq<Element>> {
    if b in l then Some(l[b]) else None
  }

  lemma SameListing(l: Listing, m: Listing)
    requires forall b :: ListAt(l, b) == ListAt(m, b)
    ensures l == m
  {
    assert forall b :: b in l <==> ListAt(l, b).Some?;
    assert forall b :: b in m <==> ListAt(m, b).Some?;
    assert forall b | b in l :: l[b] == ListAt(l, b).value && m[b] == ListAt(m, b).value;
  }

  lemma ListsKept(s: Shape, n: Addr, c: Cell, b: Path)
    requires Linked(s) && n !in s.store && s.Has(b)
    ensures Lists(s.Kids(b), s.nodes, s.store[n := c], b) && Known(s.Kids(b), s.store)
    ensures Elems(s.Kids(b), s.store[n := c]) == Elems(s.Kids(b), s.store)
  {
    assert Lists(s.Kids(b), s.nodes, s.store, b);
  }

  /** Read a metadata file. It accepts just the texts that describe lists, and then holds these lists. */
  method ReadFrom(t: DirectoryTree, cal: Calendar, text: string) returns (ok: bool)
    modifies t
    ensures ok <==> LoadText(cal, text).Some?
    ensures ok ==> Linked(t.State()) && ListsOf(t.State()) == LoadText(cal, text).value && t.nodes == t.index
    ensures ok ==> t.disk == null
    ensures ok ==> (t.Valid() <==> (t.ordered ==> Ordered(t.State())))
  {
    hide Linked, ListsOf, Elems, Holds, Flush, NoDup, Ordered;
    Clear(t);
    var lines := GetLines(text);
    ghost var l := NOTHING;
    var k := [];
    for i := 0 to |lines|
      invariant FeedAll(cal, lines[..i]) == Some(l) && Building(t, l, k) && t.disk == null
    {
      assert lines[..i + 1] == lines[..i] + [lines[i]];
      FeedMore(cal, lines[..i], lines[i]);
      if lines[i] == "" {
        ok := Add(t, k, l);
        if !ok { Refused(cal, lines, i + 1); return; }
        k, l := [], Flush(l).value;
      } else {
        var e := ReadElement(cal, lines[i]);
        if e.None? { Refused(cal, lines, i + 1); return false; }
        ReadElementPrintable(cal, lines[i]);
        k := Push(t, k, e.value, l);
        l := l.(cur := l.cur + [e.value]);
      }
    }
    assert lines[..|lines|] == lines;
    ok := Add(t, k, l);
    if ok {
      FeedOwned(cal, lines);
      FlushOwned(l);
      SoundTree(t, Flush(l).value);
    }
  }

  /** A text that was refused stays refused. */
  lemma {:induction false} Refused(cal: Calendar, lines: seq<string>, i: nat)
    requires i <= |lines| && FeedAll(cal, lines[..i]).None?
    ensures FeedAll(cal, lines).None?
    decreases |lines| - i
  {
    if i == |lines| {
      assert lines[..i] == lines;
    } else {
      assert lines[..i + 1] == lines[..i] + [lines[i]];
      FeedMore(cal, lines[..i], lines[i]);
      Refused(cal, lines, i + 1);
    }
  }

  /** Only directories have entries. */
  ghost predicate Owned(l: Listing) {
    forall d :: d in l ==> d == Top || ListedDir(l, d)
  }

  lemma FlushOwned(l: Loading)
    requires Owned(l.lists)
    ensures Flush(l).Some? ==> Owned(Flush(l).value.lists)
  {
    hide Group, PathsOf;
    if Flush(l).Some? {
      var l' := Flush(l).value;
      forall d | d in l'.lists && d != Top ensures ListedDir(l'.lists, d) {
        assert ListedDir(l.lists, d);
        var e :| e in l.lists[d.dir] && e.rp == d && e.ty.Directory?;
        assert e in l'.lists[d.dir];
      }
    }
  }

  lemma {:induction false} FeedOwned(cal: Calendar, lines: seq<string>)
    ensures FeedAll(cal, lines).Some? ==> Owned(FeedAll(cal, lines).value.lists)
  {
    hide ReadElement, Flush, Owned;
    if lines == [] {
      NothingOwned();
    } else {
      FeedOwned(cal, lines[..|lines| - 1]);
      if FeedAll(cal, lines[..|lines| - 1]).Some? { FlushOwned(FeedAll(cal, lines[..|lines| - 1]).value); }
    }
  }

  lemma NothingOwned()
    ensures Owned(NOTHING.lists)
  {
  }

  /** Index and lists of what was read agree, and make a tree. */
  lemma SoundTree(t: DirectoryTree, l: Loading)
    requires Building(t, l, []) && Owned(l.lists)
    ensures Linked(t.State()) && ListsOf(t.State()) == l.lists
    ensures t.Valid() <==> (t.ordered ==> Ordered(t.State()))
  {
    hide Linked, ListsOf, Shape.Wired, Ordered;
    forall d | d in l.lists && d != Top ensures IsDir(t.Contents(), d) { ListedDirIs(t.State(), d); }
    LinkedIsWired(t.State());
    ContentsAre(t.State());
  }

  lemma ContentsAre(s: Shape)
    requires Linked(s)
    ensures s.Contents().Keys == s.nodes.Keys
  {
    hide Lists;
  }
}
