/** The order of directory lists: directories first, then by path; and `std::list::sort` with it. */
module Order {
  import opened Elements
  import opened Shapes

  /** A path as numbers whose dictionary order is the component-wise order of paths. */
  function Key(p: Path): seq<int> {
    if p.In? then Key(p.dir) + seq(|p.name|, i requires 0 <= i < |p.name| => p.name[i] as int + 1) + [0] else []
  }

  predicate KeyLess(a: seq<int>, b: seq<int>) {
    b != [] && (a == [] || a[0] < b[0] || (a[0] == b[0] && KeyLess(a[1..], b[1..])))
  }

  /** The `operator<` of the source. */
  predicate Before(a: Element, b: Element) {
    if a.ty.Directory? == b.ty.Directory? then KeyLess(Key(a.rp), Key(b.rp)) else a.ty.Directory?
  }

  lemma {:induction false} KeyLessTrans(a: seq<int>, b: seq<int>, c: seq<int>)
    requires !KeyLess(b, a) && !KeyLess(c, b)
    ensures !KeyLess(c, a)
  {
    if a != [] && b != [] && c != [] && a[0] == b[0] == c[0] {
      KeyLessTrans(a[1..], b[1..], c[1..]);
    }
  }

  lemma {:induction false} KeyLessAsym(a: seq<int>, b: seq<int>)
    requires KeyLess(a, b)
    ensures !KeyLess(b, a)
  {
    if a != [] && a[0] == b[0] { KeyLessAsym(a[1..], b[1..]); }
  }

  // ---------- what the order is ----------

  /** One name is a part of the start of the other, or has the smaller character where they differ first. */
  ghost predicate NameBefore(m: string, n: string) {
    exists k :: 0 <= k <= |m| && k < |n| && m[..k] == n[..k] && (k == |m| || m[k] < n[k])
  }

  /** One path leads to the other, or has the smaller name where they differ first. */
  ghost predicate PathBefore(p: seq<string>, q: seq<string>) {
    exists k :: 0 <= k <= |p| && k < |q| && p[..k] == q[..k] && (k == |p| || NameBefore(p[k], q[k]))
  }

  /** The names of a path, from the top. */
  function Names(p: Path): seq<string> {
    if p.In? then Names(p.dir) + [p.name] else []
  }

  function Code(n: string): seq<int> {
    seq(|n|, i requires 0 <= i < |n| => n[i] as int + 1)
  }

  function KeyOf(names: seq<string>): seq<int> {
    if names == [] then [] else Code(names[0]) + [0] + KeyOf(names[1..])
  }

  lemma {:induction false} KeyIs(p: Path)
    ensures Key(p) == KeyOf(Names(p))
  {
    if p.In? {
      KeyIs(p.dir);
      KeyMore(Names(p.dir), p.name);
    }
  }

  lemma {:induction false} KeyMore(names: seq<string>, n: string)
    ensures KeyOf(names + [n]) == KeyOf(names) + Code(n) + [0]
  {
    if names == [] {
      assert [n][1..] == [];
      assert names + [n] == [n];
    } else {
      KeyMore(names[1..], n);
      assert (names + [n])[1..] == names[1..] + [n];
    }
  }

  lemma {:induction false} SameStart(c: seq<int>, a: seq<int>, b: seq<int>)
    ensures KeyLess(c + a, c + b) <==> KeyLess(a, b)
  {
    if c == [] {
      assert c + a == a && c + b == b;
    } else {
      SameStart(c[1..], a, b);
      assert (c + a)[1..] == c[1..] + a && (c + b)[1..] == c[1..] + b;
    }
  }

  lemma NameStep(m: string, n: string)
    requires m != "" && n != "" && m[0] == n[0]
    ensures NameBefore(m, n) <==> NameBefore(m[1..], n[1..])
  {
    if k :| 0 <= k <= |m| && k < |n| && m[..k] == n[..k] && (k == |m| || m[k] < n[k]) {
      assert m[..k][1..] == m[1..][..k - 1] && n[..k][1..] == n[1..][..k - 1];
      assert m[1..][..k - 1] == n[1..][..k - 1];
    }
    var u, v := m[1..], n[1..];
    if k :| 0 <= k <= |u| && k < |v| && u[..k] == v[..k] && (k == |u| || u[k] < v[k]) {
      assert m[..k + 1] == [m[0]] + u[..k] && n[..k + 1] == [n[0]] + v[..k];
    }
  }

  /** Different names are compared before anything that follows them. */
  lemma {:induction false} CodeLess(m: string, n: string, a: seq<int>, b: seq<int>)
    requires m != n
    ensures KeyLess(Code(m) + [0] + a, Code(n) + [0] + b) <==> NameBefore(m, n)
  {
    var x, y := Code(m) + [0] + a, Code(n) + [0] + b;
    if m == "" {
      assert x[0] == 0 < y[0] && m[..0] == n[..0];
    } else if n == "" {
      assert y[0] == 0 < x[0];
    } else if m[0] == n[0] {
      assert x[1..] == Code(m[1..]) + [0] + a && y[1..] == Code(n[1..]) + [0] + b;
      assert m == [m[0]] + m[1..] && n == [n[0]] + n[1..];
      CodeLess(m[1..], n[1..], a, b);
      NameStep(m, n);
    } else {
      assert m[..0] == n[..0];
      assert x[0] < y[0] <==> m[0] < n[0];
      if k :| 0 <= k <= |m| && k < |n| && m[..k] == n[..k] && (k == |m| || m[k] < n[k]) && k > 0 {
        assert m[..k][0] == n[..k][0];
      }
    }
  }

  lemma PathStep(p: seq<string>, q: seq<string>)
    requires p != [] && q != []
    ensures PathBefore(p, q) <==> if p[0] == q[0] then PathBefore(p[1..], q[1..]) else NameBefore(p[0], q[0])
  {
    hide NameBefore;
    if k :| 0 <= k <= |p| && k < |q| && p[..k] == q[..k] && (k == |p| || NameBefore(p[k], q[k])) {
      if k == 0 {
        NotBeforeItself(p[0], q[0]);
      } else {
        assert p[..k][0] == q[..k][0];
        assert p[..k][1..] == p[1..][..k - 1] && q[..k][1..] == q[1..][..k - 1];
      }
    }
    if p[0] == q[0] {
      var u, v := p[1..], q[1..];
      if k :| 0 <= k <= |u| && k < |v| && u[..k] == v[..k] && (k == |u| || NameBefore(u[k], v[k])) {
        assert p[..k + 1] == [p[0]] + u[..k] && q[..k + 1] == [q[0]] + v[..k];
      }
    } else if NameBefore(p[0], q[0]) {
      assert p[..0] == q[..0];
    }
  }

  lemma NotBeforeItself(m: string, n: string)
    requires NameBefore(m, n)
    ensures m != n
  {
  }

  /** Paths are compared name by name. */
  lemma {:induction false} KeyLessIs(p: seq<string>, q: seq<string>)
    ensures KeyLess(KeyOf(p), KeyOf(q)) <==> PathBefore(p, q)
  {
    hide NameBefore, PathBefore;
    if p == [] || q == [] {
      EmptyPaths(p, q);
    } else if p[0] == q[0] {
      SameStart(Code(p[0]) + [0], KeyOf(p[1..]), KeyOf(q[1..]));
      KeyLessIs(p[1..], q[1..]);
      PathStep(p, q);
    } else {
      CodeLess(p[0], q[0], KeyOf(p[1..]), KeyOf(q[1..]));
      PathStep(p, q);
    }
  }

  lemma EmptyPaths(p: seq<string>, q: seq<string>)
    requires p == [] || q == []
    ensures KeyLess(KeyOf(p), KeyOf(q)) <==> PathBefore(p, q)
  {
    if p == [] && q != [] { assert p[..0] == q[..0]; }
  }

  /** The order of entries: directories come before everything else; entries of the same kind are in order of paths. */
  lemma BeforeIs(a: Element, b: Element)
    ensures Before(a, b) <==>
              if a.ty.Directory? == b.ty.Directory? then PathBefore(Names(a.rp), Names(b.rp)) else a.ty.Directory?
  {
    hide KeyLess, Key, PathBefore, Names;
    KeyIs(a.rp);
    KeyIs(b.rp);
    KeyLessIs(Names(a.rp), Names(b.rp));
  }

  /** In one directory the order is that of the names. */
  lemma {:induction false} NamesDecide(d: seq<string>, m: string, n: string)
    ensures PathBefore(d + [m], d + [n]) <==> NameBefore(m, n)
  {
    hide PathBefore, NameBefore;
    PathStep(d + [m], d + [n]);
    if d == [] {
      assert d + [m] == [m] && d + [n] == [n];
      if m == n {
        NoEmptyPath();
        assert [m][1..] == [] && [n][1..] == [];
        if NameBefore(m, n) { NotBeforeItself(m, n); }
      }
    } else {
      assert (d + [m])[1..] == d[1..] + [m] && (d + [n])[1..] == d[1..] + [n];
      NamesDecide(d[1..], m, n);
    }
  }

  lemma NoEmptyPath()
    ensures !PathBefore([], [])
  {
  }

  ghost predicate Known(l: seq<Addr>, store: Store) {
    forall i :: 0 <= i < |l| ==> l[i] in store
  }

  /** No entry comes after one it should precede. */
  ghost predicate Sorted(l: seq<Addr>, store: Store)
    requires Known(l, store)
  {
    forall i, j :: 0 <= i < j < |l| ==> !Before(store[l[j]].elem, store[l[i]].elem)
  }

  lemma SortedDirsFirst(l: seq<Addr>, store: Store)
    requires Known(l, store) && Sorted(l, store)
    ensures DirsFirst(l, store)
  {
  }

  /** Directories come first; entries of the same kind are in the order of their paths. */
  ghost predicate InPathOrder(l: seq<Addr>, store: Store)
    requires Known(l, store)
  {
    forall i, j :: 0 <= i < j < |l| ==>
      var a, b := store[l[i]].elem, store[l[j]].elem;
      && (b.ty.Directory? ==> a.ty.Directory?)
      && (a.ty.Directory? == b.ty.Directory? ==> !PathBefore(Names(b.rp), Names(a.rp)))
  }

  lemma SortedIs(l: seq<Addr>, store: Store)
    requires Known(l, store)
    ensures Sorted(l, store) <==> InPathOrder(l, store)
  {
    hide Before, PathBefore, Names;
    forall i, j | 0 <= i < j < |l| ensures Before(store[l[j]].elem, store[l[i]].elem) <==>
        !(var a, b := store[l[i]].elem, store[l[j]].elem;
          && (b.ty.Directory? ==> a.ty.Directory?)
          && (a.ty.Directory? == b.ty.Directory? ==> !PathBefore(Names(b.rp), Names(a.rp)))) {
      BeforeIs(store[l[j]].elem, store[l[i]].elem);
    }
  }

  /** A new entry goes after everything that it does not precede. */
  method Insert(l: seq<Addr>, n: Addr, store: Store) returns (r: seq<Addr>)
    requires Known(l, store) && n in store && Sorted(l, store)
    ensures Known(r, store) && Sorted(r, store)
    ensures multiset(r) == multiset(l) + multiset{n}
  {
    hide Before, Sorted;
    var k := |l|;
    while k > 0 && Before(store[n].elem, store[l[k - 1]].elem)
      invariant 0 <= k <= |l|
      invariant forall j :: k <= j < |l| ==> Before(store[n].elem, store[l[j]].elem)
    {
      k := k - 1;
    }
    r := l[..k] + [n] + l[k..];
    Inserted(l, n, store, k);
    assert l == l[..k] + l[k..];
  }

  lemma Inserted(l: seq<Addr>, n: Addr, store: Store, k: nat)
    requires Known(l, store) && n in store && Sorted(l, store) && k <= |l|
    requires k > 0 ==> !Before(store[n].elem, store[l[k - 1]].elem)
    requires forall j :: k <= j < |l| ==> Before(store[n].elem, store[l[j]].elem)
    ensures Known(l[..k] + [n] + l[k..], store) && Sorted(l[..k] + [n] + l[k..], store)
  {
    hide Before;
    var r := l[..k] + [n] + l[k..];
    forall i, j | 0 <= i < j < |r| ensures !Before(store[r[j]].elem, store[r[i]].elem) {
      if i == k {
        BeforeAsym(store[n].elem, store[l[j - 1]].elem);
      } else if j == k {
        assert i < k - 1 ==> !Before(store[l[k - 1]].elem, store[l[i]].elem);
        BeforeTrans(store[l[i]].elem, store[l[k - 1]].elem, store[n].elem);
      } else {
        assert r[i] == l[if i < k then i else i - 1] && r[j] == l[if j < k then j else j - 1];
      }
    }
  }

  lemma BeforeAsym(a: Element, b: Element)
    requires Before(a, b)
    ensures !Before(b, a)
  {
    if a.ty.Directory? == b.ty.Directory? { KeyLessAsym(Key(a.rp), Key(b.rp)); }
  }

  lemma BeforeTrans(a: Element, b: Element, c: Element)
    requires a == b || !Before(b, a)
    requires !Before(c, b)
    ensures !Before(c, a)
  {
    if a != b && !KeyLess(Key(b.rp), Key(a.rp)) && !KeyLess(Key(c.rp), Key(b.rp)) {
      KeyLessTrans(Key(a.rp), Key(b.rp), Key(c.rp));
    }
  }

  method Sort(l: seq<Addr>, store: Store) returns (r: seq<Addr>)
    requires Known(l, store)
    ensures Known(r, store) && Sorted(r, store) && InPathOrder(r, store)
    ensures multiset(r) == multiset(l)
  {
    assert forall i :: 0 <= i < |l| ==> l[i] in store;
    r := [];
    assert Known(r, store) && Sorted(r, store);
    hide Known, Sorted, InPathOrder;
    for i := 0 to |l|
      invariant Known(r, store) && Sorted(r, store)
      invariant multiset(r) == multiset(l[..i])
    {
      assert l[..i + 1] == l[..i] + [l[i]];
      r := Insert(r, l[i], store);
    }
    assert l[..|l|] == l;
    SortedIs(r, store);
  }

  /** A rearranged list holds the same entries, each as often. */
  lemma SameEntries(l: seq<Addr>, r: seq<Addr>)
    requires multiset(r) == multiset(l)
    ensures forall n :: n in r <==> n in l
    ensures NoDup(l) ==> NoDup(r)
  {
    assert forall n :: n in r <==> n in multiset(r);
    assert forall n :: n in l <==> n in multiset(l);
    if NoDup(l) {
      forall i, j | 0 <= i < j < |r| ensures r[i] != r[j] {
        if r[i] == r[j] {
          Twice(r, i, j);
          Once(l, r[i]);
        }
      }
    }
  }

  lemma Twice(r: seq<Addr>, i: nat, j: nat)
    requires i < j < |r| && r[i] == r[j]
    ensures multiset(r)[r[i]] >= 2
  {
    assert r == r[..i] + [r[i]] + r[i + 1..j] + [r[j]] + r[j + 1..];
  }

  lemma {:induction false} Once(l: seq<Addr>, n: Addr)
    requires NoDup(l)
    ensures multiset(l)[n] <= 1
  {
    if l != [] {
      assert l == l[..|l| - 1] + [l[|l| - 1]];
      Once(l[..|l| - 1], n);
      if n == l[|l| - 1] { assert n !in l[..|l| - 1]; assert n !in multiset(l[..|l| - 1]); }
    }
  }
}
