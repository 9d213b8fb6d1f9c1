/** The backup replays a two-way diff. What the replay makes of a catalog, whatever the order of the lines. */
module Replay {
  import opened Elements
  import opened Catalogs
  import opened Diffs
  import opened Repairs

  /**
   * Only permissions, owner or modified time have to be set; for files without a hash on either side another time is
   * taken for another content.
   */
  predicate Updatable(x: Element, y: Element) {
    SameContent(x, y) && (x.ty.Regular? && (x.hash == "" || y.hash == "") ==> x.mt == y.mt)
  }

  /** The content changed although permissions, owner and modified time did not. */
  predicate Rotten(x: Element, y: Element) {
    SameStamp(x, y) && !SameContent(x, y)
  }

  /** The line is handled by removing or copying whole subtrees. */
  predicate Structural(x: Option<Element>, y: Option<Element>) {
    x.None? || y.None? || !Updatable(x.value, y.value)
  }

  /** Directories have nothing that could tell their content apart. */
  ghost predicate PlainDirs(m: Catalog) {
    forall p :: p in m && m[p].ty.Directory? ==> m[p].sz == 0 && m[p].hash == "" && m[p].target == ""
  }

  /** `q` lies at or below a path in `done` whose whole subtree has been replaced. */
  ghost predicate Overwritten(s: Catalog, ref: Catalog, done: set<Path>, q: Path) {
    exists p :: p in done && Structural(Look(s, p), Look(ref, p)) && Under(q, p)
  }

  /**
   * The entry of `q` after the lines of `done` have been replayed on `base`, where the diff was taken between `s` and
   * `ref`, and whole subtrees come from `from`.
   */
  ghost function EntryAfter(from: Catalog, s: Catalog, base: Catalog, ref: Catalog, done: set<Path>,
                            q: Path): Option<Element> {
    if Overwritten(s, ref, done, q) then Look(from, q)
    else if q in done && q in base && q in s && q in ref then Some(Merge(base[q], s[q], ref[q]))
    else Look(base, q)
  }

  /** `now` is what the replay makes of `base`. */
  ghost predicate Delivered(from: Catalog, s: Catalog, base: Catalog, ref: Catalog, done: set<Path>, now: Catalog) {
    forall q :: Look(now, q) == EntryAfter(from, s, base, ref, done, q)
  }

  ghost predicate Replayed(s: Catalog, base: Catalog, ref: Catalog, done: set<Path>, now: Catalog) {
    Delivered(s, s, base, ref, done, now)
  }

  lemma ReplayStart(from: Catalog, s: Catalog, base: Catalog, ref: Catalog)
    ensures Delivered(from, s, base, ref, {}, base)
  {
  }

  /** Nothing is reported below a line that replaces a subtree. */
  lemma LinesApart(s: Catalog, ref: Catalog, p: Path, q: Path)
    requires WellFormed(s) && WellFormed(ref) && PlainDirs(s) && PlainDirs(ref)
    requires Reported2(s, ref, ALL, p) && Reported2(s, ref, ALL, q) && Structural(Look(s, p), Look(ref, p)) && q != p
    ensures !Under(q, p)
  {
    if Under(q, p) {
      DirAbove(s, p, q);
      DirAbove(ref, p, q);
    }
  }

  lemma DirAbove(m: Catalog, p: Path, q: Path)
    requires WellFormed(m) && q.In? && IsDir(m, q.dir) && Under(q, p) && q != p && p.In?
    ensures p in m && m[p].ty.Directory?
  {
    if q.dir != p { Ancestor(m, q.dir, p); }
  }

  lemma OverwrittenMore(s: Catalog, ref: Catalog, done: set<Path>, p: Path, q: Path)
    ensures Overwritten(s, ref, done + {p}, q) <==>
            Overwritten(s, ref, done, q) || (Structural(Look(s, p), Look(ref, p)) && Under(q, p))
  {
    var done' := done + {p};
    assert p in done';
    if Overwritten(s, ref, done, q) {
      var r :| r in done && Structural(Look(s, r), Look(ref, r)) && Under(q, r);
      assert r in done';
    }
  }

  lemma ReplayStructural(from: Catalog, s: Catalog, base: Catalog, ref: Catalog, done: set<Path>, now: Catalog, p: Path)
    requires Delivered(from, s, base, ref, done, now) && Structural(Look(s, p), Look(ref, p)) && WellFormed(from)
    requires p.In?
    ensures Delivered(from, s, base, ref, done + {p}, Corrected(now, from, p))
  {
    hide Overwritten, Corrected, WellFormed, Structural, Merge;
    forall q ensures Look(Corrected(now, from, p), q) == EntryAfter(from, s, base, ref, done + {p}, q) {
      LookCorrected(now, from, p, q);
      OverwrittenMore(s, ref, done, p, q);
      assert Look(now, q) == EntryAfter(from, s, base, ref, done, q);
    }
  }

  lemma ReplayUpdate(from: Catalog, s: Catalog, base: Catalog, ref: Catalog, done: set<Path>, now: Catalog, p: Path)
    requires Delivered(from, s, base, ref, done, now) && !Structural(Look(s, p), Look(ref, p))
    requires p !in done && !Overwritten(s, ref, done, p)
    ensures Delivered(from, s, base, ref, done + {p}, if p in now then now[p := Merge(now[p], s[p], ref[p])] else now)
  {
    hide Overwritten, Updatable, Merge;
    assert Look(now, p) == EntryAfter(from, s, base, ref, done, p);
    var now' := if p in now then now[p := Merge(now[p], s[p], ref[p])] else now;
    forall q ensures Look(now', q) == EntryAfter(from, s, base, ref, done + {p}, q) {
      OverwrittenMore(s, ref, done, p, q);
      assert Look(now, q) == EntryAfter(from, s, base, ref, done, q);
    }
  }

  // ---------- before the line of a path ----------

  /** Lines that have been replayed leave the line of another path, and its directory, as they were. */
  lemma StillThere(from: Catalog, s: Catalog, base: Catalog, ref: Catalog, done: set<Path>, now: Catalog, p: Path)
    requires WellFormed(s) && WellFormed(ref) && PlainDirs(s) && PlainDirs(ref)
    requires Delivered(from, s, base, ref, done, now)
    requires Reported2(s, ref, ALL, p) && p !in done && (forall q :: q in done ==> Reported2(s, ref, ALL, q))
    ensures !Overwritten(s, ref, done, p) && Look(now, p) == Look(base, p)
    ensures IsDir(base, p.dir) ==> IsDir(now, p.dir)
  {
    hide Updatable;
    if Overwritten(s, ref, done, p) {
      var q :| q in done && Structural(Look(s, q), Look(ref, q)) && Under(p, q);
      LinesApart(s, ref, q, p);
    }
    assert !Overwritten(s, ref, done, p.dir);
    assert Look(now, p) == EntryAfter(from, s, base, ref, done, p);
    assert Look(now, p.dir) == EntryAfter(from, s, base, ref, done, p.dir);
  }

  // ---------- after all lines ----------

  /** An update heals its line. */
  lemma UpdateHeals(x: Element, y: Element)
    requires Updatable(x, y)
    ensures Same(x, Merge(y, x, y)) && Merge(y, x, y).ty == y.ty
  {
  }

  /** What was replayed agrees with the source. */
  lemma DoneAgrees(s: Catalog, ref: Catalog, done: set<Path>, now: Catalog, q: Path)
    requires Replayed(s, ref, ref, done, now)
    requires Overwritten(s, ref, done, q) || (q in done && !Structural(Look(s, q), Look(ref, q)))
    ensures SameOpt(Look(s, q), Look(now, q))
  {
    hide Updatable, Merge;
    assert Look(now, q) == EntryAfter(s, s, ref, ref, done, q);
    if !Overwritten(s, ref, done, q) { UpdateHeals(s[q], ref[q]); }
  }

  lemma DirKept(s: Catalog, ref: Catalog, done: set<Path>, now: Catalog, d: Path)
    requires Replayed(s, ref, ref, done, now) && !Overwritten(s, ref, done, d)
    ensures IsDir(now, d) <==> IsDir(ref, d)
  {
    hide Overwritten;
    assert Look(now, d) == EntryAfter(s, s, ref, ref, done, d);
  }

  /** After the replay, exactly the skipped lines are reported. */
  lemma ReplayConverges(s: Catalog, ref: Catalog, done: set<Path>, skip: set<Path>, now: Catalog)
    requires WellFormed(s) && WellFormed(ref) && PlainDirs(s) && PlainDirs(ref) && Replayed(s, ref, ref, done, now)
    requires done !! skip && forall p :: p in done || p in skip <==> Reported2(s, ref, ALL, p)
    ensures forall p :: Reported2(s, now, ALL, p) <==> p in skip
  {
    hide Overwritten, Updatable, Merge, WellFormed, PlainDirs, EntryAfter;
    forall p ensures Reported2(s, now, ALL, p) <==> p in skip {
      if p in skip {
        StillThere(s, s, ref, ref, done, now, p);
      } else if Reported2(s, now, ALL, p) {
        NotReported(s, ref, done, now, p);
      }
    }
  }

  lemma NotReported(s: Catalog, ref: Catalog, done: set<Path>, now: Catalog, p: Path)
    requires Replayed(s, ref, ref, done, now) && Reported2(s, now, ALL, p)
    ensures !Overwritten(s, ref, done, p) && p !in done && Reported2(s, ref, ALL, p)
  {
    if Overwritten(s, ref, done, p.dir) {
      var q :| q in done && Structural(Look(s, q), Look(ref, q)) && Under(p.dir, q);
      assert Under(p, q) && Overwritten(s, ref, done, p);
    }
    hide Updatable, Merge;
    if Overwritten(s, ref, done, p) || (p in done && !Structural(Look(s, p), Look(ref, p))) {
      DoneAgrees(s, ref, done, now, p);
    }
    DirKept(s, ref, done, now, p.dir);
    assert Look(now, p) == EntryAfter(s, s, ref, ref, done, p);
  }

  // ---------- the order of the lines ----------

  /** One line replayed on a catalog. */
  function ReplayLine(now: Catalog, s: Catalog, ref: Catalog, p: Path): Catalog {
    if Structural(Look(s, p), Look(ref, p)) then Corrected(now, s, p)
    else if p in now && p in s && p in ref then now[p := Merge(now[p], s[p], ref[p])]
    else now
  }

  /** The lines replayed one after the other. */
  function ReplayAll(base: Catalog, s: Catalog, ref: Catalog, ps: seq<Path>): Catalog {
    if ps == [] then base else ReplayLine(ReplayAll(base, s, ref, ps[..|ps| - 1]), s, ref, ps[|ps| - 1])
  }

  function PathSet(ps: seq<Path>): set<Path> {
    set p | p in ps
  }

  /** Different lines of one diff. */
  ghost predicate LinesOf(ps: seq<Path>, s: Catalog, ref: Catalog) {
    && (forall i, j :: 0 <= i < j < |ps| ==> ps[i] != ps[j])
    && (forall p :: p in ps ==> Reported2(s, ref, ALL, p))
  }

  /** Step by step, the lines of a diff make the entries that the outcome says, whatever their order. */
  lemma {:induction false} ReplaySteps(base: Catalog, s: Catalog, ref: Catalog, ps: seq<Path>)
    requires WellFormed(s) && WellFormed(ref) && PlainDirs(s) && PlainDirs(ref) && LinesOf(ps, s, ref)
    ensures Replayed(s, base, ref, PathSet(ps), ReplayAll(base, s, ref, ps))
  {
    hide WellFormed, PlainDirs, Delivered, ReplayLine, Reported2;
    if ps == [] {
      ReplayStart(s, s, base, ref);
      assert PathSet(ps) == {};
    } else {
      var n := |ps| - 1;
      FewerLines(ps, s, ref);
      ReplaySteps(base, s, ref, ps[..n]);
      ReplayOne(base, s, ref, ps[..n], ps[n], ReplayAll(base, s, ref, ps[..n]));
      assert PathSet(ps) == PathSet(ps[..n]) + {ps[n]};
    }
  }

  lemma FewerLines(ps: seq<Path>, s: Catalog, ref: Catalog)
    requires LinesOf(ps, s, ref) && ps != []
    ensures LinesOf(ps[..|ps| - 1], s, ref) && ps[|ps| - 1] !in ps[..|ps| - 1] && Reported2(s, ref, ALL, ps[|ps| - 1])
  {
    assert ps[|ps| - 1] in ps;
  }

  lemma ReplayOne(base: Catalog, s: Catalog, ref: Catalog, ps: seq<Path>, p: Path, now: Catalog)
    requires WellFormed(s) && WellFormed(ref) && PlainDirs(s) && PlainDirs(ref) && LinesOf(ps, s, ref)
    requires Replayed(s, base, ref, PathSet(ps), now) && p !in ps && Reported2(s, ref, ALL, p)
    ensures Replayed(s, base, ref, PathSet(ps) + {p}, ReplayLine(now, s, ref, p))
  {
    hide WellFormed, PlainDirs, Delivered, Corrected, Merge, Updatable, Overwritten;
    var done := PathSet(ps);
    StillThere(s, s, base, ref, done, now, p);
    if Structural(Look(s, p), Look(ref, p)) {
      ReplayStructural(s, s, base, ref, done, now, p);
    } else {
      ReplayUpdate(s, s, base, ref, done, now, p);
    }
  }

  /** Two orders of the same lines make the same of a catalog. */
  lemma ReplayOrder(base: Catalog, s: Catalog, ref: Catalog, ps: seq<Path>, qs: seq<Path>)
    requires WellFormed(s) && WellFormed(ref) && PlainDirs(s) && PlainDirs(ref) && LinesOf(ps, s, ref)
    requires LinesOf(qs, s, ref)
    requires forall p :: p in ps <==> p in qs
    ensures ReplayAll(base, s, ref, ps) == ReplayAll(base, s, ref, qs)
  {
    hide WellFormed, PlainDirs, LinesOf, Delivered, ReplayAll;
    ReplaySteps(base, s, ref, ps);
    ReplaySteps(base, s, ref, qs);
    assert PathSet(ps) == PathSet(qs);
    DeliveredOnce(s, s, base, ref, PathSet(ps), ReplayAll(base, s, ref, ps), ReplayAll(base, s, ref, qs));
  }

  /** What a replay has made of a catalog is what its lines make of it one after the other, in any order. */
  lemma ReplayedInOrder(s: Catalog, base: Catalog, ref: Catalog, done: set<Path>, now: Catalog, ps: seq<Path>)
    requires WellFormed(s) && WellFormed(ref) && PlainDirs(s) && PlainDirs(ref) && LinesOf(ps, s, ref)
    requires Replayed(s, base, ref, done, now) && done == PathSet(ps)
    ensures now == ReplayAll(base, s, ref, ps)
  {
    hide WellFormed, PlainDirs, LinesOf, Delivered, ReplayAll;
    ReplaySteps(base, s, ref, ps);
    DeliveredOnce(s, s, base, ref, done, now, ReplayAll(base, s, ref, ps));
  }

  lemma DeliveredOnce(from: Catalog, s: Catalog, base: Catalog, ref: Catalog, done: set<Path>, now: Catalog,
                      now': Catalog)
    requires Delivered(from, s, base, ref, done, now) && Delivered(from, s, base, ref, done, now')
    ensures now == now'
  {
    hide EntryAfter;
    forall q ensures Look(now, q) == Look(now', q) {
      assert Look(now, q) == EntryAfter(from, s, base, ref, done, q);
    }
    assert forall q :: q in now <==> Look(now, q).Some?;
    assert forall q :: q in now' <==> Look(now', q).Some?;
  }

  lemma NothingDelivered(from: Catalog, s: Catalog, base: Catalog, ref: Catalog, now: Catalog)
    requires Delivered(from, s, base, ref, {}, now)
    ensures now == base
  {
    ReplayStart(from, s, base, ref);
    DeliveredOnce(from, s, base, ref, {}, now, base);
  }

  // ---------- the metadata ----------

  /** The metadata agree with the backup at every path. */
  ghost predicate Tracks(t: Catalog, m: Catalog) {
    forall q :: SameOpt(Look(t, q), Look(m, q))
  }

  /** The metadata have the same paths as the backup, and the same types of entries. */
  ghost predicate Alike(t: Catalog, m: Catalog) {
    forall q :: (q in t <==> q in m) && (q in t ==> t[q].ty == m[q].ty)
  }

  /**
   * The same lines replayed on both keep the agreement, though each field is only set where source and backup differed.
   */
  lemma ReplayTracks(s: Catalog, ref: Catalog, meta: Catalog, done: set<Path>, now: Catalog, now': Catalog, q: Path)
    requires Alike(ref, meta) && Replayed(s, ref, ref, done, now) && Replayed(s, meta, ref, done, now')
    ensures Overwritten(s, ref, done, q) || SameOpt(Look(ref, q), Look(meta, q)) ==>
              SameOpt(Look(now, q), Look(now', q))
    ensures (q in now <==> q in now') && (q in now ==> now[q].ty == now'[q].ty)
  {
    hide Overwritten;
    assert Look(now, q) == EntryAfter(s, s, ref, ref, done, q) && Look(now', q) == EntryAfter(s, s, meta, ref, done, q);
    assert (q in ref <==> q in meta) && (q in ref ==> ref[q].ty == meta[q].ty);
  }

  /** An entry keeps its hash unless its subtree came from the source. */
  lemma ReplayHash(s: Catalog, meta: Catalog, ref: Catalog, done: set<Path>, now: Catalog, q: Path)
    requires Replayed(s, meta, ref, done, now) && !Overwritten(s, ref, done, q)
    ensures q in now <==> q in meta
    ensures q in now ==> now[q].hash == meta[q].hash && now[q].ty == meta[q].ty
  {
    hide Overwritten;
    assert Look(now, q) == EntryAfter(s, s, meta, ref, done, q);
  }
}
