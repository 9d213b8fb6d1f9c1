/** Everything that could be written before a scrub or a backup can be written after it. */
module Legibility {
  import opened Elements
  import opened Catalogs
  import opened Disks
  import opened Ranks
  import opened Repairs
  import opened Votes
  import opened Texts
  import opened Lines
  import opened Writer
  import Scan
  import Replay
  import Hashes
  import Sessions

  lemma LegibleMerge(cal: Calendar, base: Element, from: Element, ref: Element)
    requires Legible(cal, base) && Legible(cal, from)
    ensures Legible(cal, Merge(base, from, ref))
  {
    hide Calendar.Inverse, Plain, Proper, InRange, PathText;
  }

  lemma LegibleStripped(cal: Calendar, e: Element, f: Element)
    requires Legible(cal, f) && Reflects(e, f)
    ensures Legible(cal, e)
  {
    hide Calendar.Inverse, Plain, Proper, InRange, PathText;
  }

  lemma LegibleScan(cal: Calendar, files: Catalog, opt: Scan.ScanOpt)
    requires AllLegible(cal, files)
    ensures AllLegible(cal, Sessions.ScanOf(files, opt))
  {
    hide Legible;
    forall p | p in files ensures Legible(cal, Sessions.ScanOf(files, opt)[p]) {
      LegibleStripped(cal, Sessions.ScanOf(files, opt)[p], files[p]);
    }
  }

  lemma DigestPlain(h: string)
    requires Digest(h)
    ensures Plain(h) && |h| == 40
  {
    assert h[0] in h;
  }

  /** An entry whose hash was computed from the file. */
  lemma LegibleHashed(cal: Calendar, e: Element, f: Element)
    requires Legible(cal, e) && e.ty.Regular? && Digest(f.hash)
    ensures Legible(cal, e.(hash := f.hash))
  {
    hide Calendar.Inverse, Plain, Proper, InRange, PathText, Digest;
    DigestPlain(f.hash);
  }

  /** If what is known of the files can be written, so can their hashes. */
  lemma LegibleDisk(cal: Calendar, m: Catalog, files: Catalog)
    requires AllLegible(cal, m) && Mirrors(m, files) && AllSane(files)
    ensures AllLegible(cal, files)
  {
    hide Legible, Digest;
    forall p | p in files ensures Legible(cal, files[p]) {
      assert Reflects(m[p], files[p]) && Sane(files[p]);
      if files[p].ty.Regular? { LegibleHashed(cal, m[p], files[p]); }
      assert files[p] == m[p] || files[p] == m[p].(hash := files[p].hash);
    }
  }

  // ---------- scrubs ----------

  ghost predicate Legible3(cal: Calendar, t: Trio) {
    AllLegible(cal, t.a) && AllLegible(cal, t.b) && AllLegible(cal, t.c)
  }

  lemma LegibleEdit(cal: Calendar, m: Catalog, s: Catalog, p: Path)
    requires AllLegible(cal, m)
    ensures AllLegible(cal, Cut(m, p))
    ensures AllLegible(cal, s) ==> AllLegible(cal, Replaced(m, s, p)) && AllLegible(cal, m + Subtree(s, p))
    ensures AllLegible(cal, s) ==> AllLegible(cal, Corrected(m, s, p))
  {
    hide Legible;
  }

  lemma LegibleUpdate(cal: Calendar, m: Catalog, p: Path, e: Element)
    requires AllLegible(cal, m) && Legible(cal, e)
    ensures AllLegible(cal, m[p := e])
  {
    hide Legible;
  }

  lemma LegibleRepair(cal: Calendar, t: Trio, s: Catalog, p: Path)
    requires Legible3(cal, t) && AllLegible(cal, s) && (p in t.b ==> p in t.c)
    ensures Legible3(cal, RepairOf(t, s, p))
  {
    hide AllLegible, Cut, Subtree, Merge, Replaced, SameContent, Same, Legible;
    LegibleEdit(cal, t.a, s, p);
    LegibleEdit(cal, t.b, s, p);
    LegibleEdit(cal, t.c, s, p);
    LegibleEntries(cal, t, s, p);
    if p in t.b {
      LegibleUpdate(cal, t.a, p, t.b[p]);
      LegibleUpdate(cal, Cut(t.a, p), p, t.b[p]);
      if p in t.a { LegibleSet(cal, t.a, p, t.b[p], t.a[p]); }
      if p in s {
        LegibleSet(cal, t.b, p, s[p], t.b[p]);
        LegibleSet(cal, t.c, p, s[p], t.b[p]);
        if p in t.a { LegibleSet(cal, t.a, p, s[p], t.b[p]); }
      }
    }
  }

  lemma LegibleEntries(cal: Calendar, t: Trio, s: Catalog, p: Path)
    requires Legible3(cal, t) && AllLegible(cal, s)
    ensures (p in t.a ==> Legible(cal, t.a[p])) && (p in t.b ==> Legible(cal, t.b[p]))
    ensures (p in t.c ==> Legible(cal, t.c[p])) && (p in s ==> Legible(cal, s[p]))
  {
    hide Legible;
  }

  lemma LegibleSet(cal: Calendar, m: Catalog, p: Path, from: Element, ref: Element)
    requires AllLegible(cal, m) && p in m && Legible(cal, from)
    ensures AllLegible(cal, m[p := Merge(m[p], from, ref)])
  {
    hide Legible, Merge;
    LegibleMerge(cal, m[p], from, ref);
  }

  lemma LegibleStep(cal: Calendar, t: Trio, g: Setting, e: Event)
    requires Legible3(cal, t) && AllLegible(cal, g.s) && Legal(t, g, e)
    ensures Legible3(cal, Step(t, g, e))
  {
    hide AllLegible, Cut, Corrected, RepairOf, WellFormed, Helpless, Excuse;
    LegibleEdit(cal, t.b, t.a, e.p);
    LegibleEdit(cal, t.c, t.a, e.p);
    if !e.left && e.seen && Outvoted(t, e.p) { LegibleRepair(cal, t, g.s, e.p); }
  }

  /** No history of votes and repairs makes an entry that cannot be written. */
  lemma {:induction false} LegibleRun(cal: Calendar, t: Trio, g: Setting, log: seq<Event>)
    requires Legible3(cal, t) && AllLegible(cal, g.s) && Lawful(t, g, log)
    ensures Legible3(cal, After(t, g, log))
  {
    hide Legible3, AllLegible, Legal, Step;
    if log != [] {
      LegibleRun(cal, t, g, log[..|log| - 1]);
      LegibleStep(cal, After(t, g, log[..|log| - 1]), g, log[|log| - 1]);
    }
  }

  // ---------- backups ----------

  /** A backup brings nothing into what it edits that cannot be written. */
  lemma LegibleReplay(cal: Calendar, from: Catalog, s: Catalog, base: Catalog, ref: Catalog, done: set<Path>,
                      now: Catalog)
    requires Replay.Delivered(from, s, base, ref, done, now) && AllLegible(cal, from) && AllLegible(cal, s)
    requires AllLegible(cal, base)
    ensures AllLegible(cal, now)
  {
    hide Legible, Replay.Overwritten, Merge;
    forall q | q in now ensures Legible(cal, now[q]) {
      assert Look(now, q) == Replay.EntryAfter(from, s, base, ref, done, q);
      if q in base && q in s && q in ref { LegibleMerge(cal, base[q], s[q], ref[q]); }
    }
  }

  lemma LegibleFilled(cal: Calendar, m: Catalog, m': Catalog, files: Catalog)
    requires AllLegible(cal, m) && Hashes.Completed(m, m', files, m'.Keys) && AllSane(files)
    requires forall p :: p in m ==> m[p].rp == p && (p in files ==> m[p].ty == files[p].ty)
    ensures AllLegible(cal, m')
  {
    hide Legible, Digest;
    forall p | p in m' ensures Legible(cal, m'[p]) {
      if Hashes.Missing(m[p]) && p in files {
        assert Sane(files[p]);
        LegibleHashed(cal, m[p], files[p]);
      }
    }
  }

  /** The metadata that have followed a backup can be written. */
  lemma LegibleFollowed(cal: Calendar, s: Catalog, t0: Catalog, m0: Catalog, done: set<Path>, t: Catalog, m: Catalog,
                        files: Catalog, hashAll: bool)
    requires Sessions.Followed(s, t0, m0, done, m, files, hashAll) && AllLegible(cal, s) && AllLegible(cal, m0)
    requires Replay.Alike(t, m) && Mirrors(t, files) && AllSane(files) && WellFormed(m)
    ensures AllLegible(cal, m)
  {
    hide AllLegible, WellFormed, Mirrors, AllSane, Replay.Delivered, Replay.Alike;
    if hashAll {
      LegibleReplay(cal, s, s, m0, t0, done, m);
    } else {
      var m1 :| Replay.Replayed(s, m0, t0, done, m1) && Hashes.Completed(m1, m, files, m.Keys);
      LegibleReplay(cal, s, s, m0, t0, done, m1);
      SameTypes(m1, m, t, files);
      LegibleFilled(cal, m1, m, files);
    }
  }

  lemma SameTypes(m1: Catalog, m: Catalog, t: Catalog, files: Catalog)
    requires Hashes.Completed(m1, m, files, m.Keys) && Replay.Alike(t, m) && Mirrors(t, files) && WellFormed(m)
    ensures forall p :: p in m1 ==> m1[p].rp == p && (p in files ==> m1[p].ty == files[p].ty)
  {
    hide WellFormed;
    forall p | p in m1 ensures m1[p].rp == p && (p in files ==> m1[p].ty == files[p].ty) {
      Sessions.OwnPath(m, p);
      assert p in t && Reflects(t[p], files[p]) && t[p].ty == m[p].ty;
    }
  }

  /** The links of the metadata that have followed a backup are as usual. */
  lemma LinksFollowed(s: Catalog, t0: Catalog, m0: Catalog, done: set<Path>, m: Catalog, files: Catalog, hashAll: bool)
    requires Sessions.Followed(s, t0, m0, done, m, files, hashAll) && SaneLinks(s) && SaneLinks(m0)
    requires Replay.Alike(t0, m0)
    ensures forall p :: p in m && m[p].ty.Symlink? ==> m[p].per == LINK_PERM
  {
    hide Replay.Delivered, Replay.Alike, SaneLinks;
    if hashAll {
      LinksReplayed(s, t0, m0, done, m);
    } else {
      var m1 :| Replay.Replayed(s, m0, t0, done, m1) && Hashes.Completed(m1, m, files, m.Keys);
      LinksReplayed(s, t0, m0, done, m1);
    }
  }

  lemma LinksReplayed(s: Catalog, t0: Catalog, m0: Catalog, done: set<Path>, m: Catalog)
    requires Replay.Replayed(s, m0, t0, done, m) && SaneLinks(s) && SaneLinks(m0) && Replay.Alike(t0, m0)
    ensures forall p :: p in m && m[p].ty.Symlink? ==> m[p].per == LINK_PERM
  {
    forall p | p in m && m[p].ty.Symlink? ensures m[p].per == LINK_PERM {
      assert Look(m, p) == Replay.EntryAfter(s, s, m0, t0, done, p);
      assert Under(p, p);
    }
  }
}
