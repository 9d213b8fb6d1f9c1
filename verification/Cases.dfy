/** Histories that happen: results of a scrub that its user may not expect, and when exactly they come about. */
module Cases {
  import opened Elements
  import opened Catalogs
  import opened Diffs
  import opened Ranks
  import opened Repairs
  import opened Votes
  import opened Scrub

  // ---------- the flags are cleared only once ----------

  /**
   * The files have the directory `d`, which the backup lacks and the source has; the backup has the file `a`, which the
   * files lack.
   */
  ghost function Doubt(d: Element, a: Element): Trio {
    Trio(map[a.rp := a], map[d.rp := d], map[d.rp := d])
  }

  /** The user keeps `a`, `d` is copied, which makes the scrub look again, and the user lets go of `a`. */
  ghost function Change(d: Element, a: Element): seq<Event> {
    [Event(a.rp, true, true, Some(false)), Event(d.rp, true, false, None), Event(a.rp, true, false, Some(true))]
  }

  ghost predicate Beside(d: Element, a: Element) {
    d.ty.Directory? && a.ty.Regular? && d.rp.In? && a.rp.In? && d.rp.dir == Top && a.rp.dir == Top && d.rp != a.rp
  }

  lemma Apart(d: Element, a: Element)
    requires Beside(d, a)
    ensures !Under(a.rp, d.rp) && !Under(d.rp, a.rp) && Under(a.rp, a.rp) && Under(d.rp, d.rp)
  {
  }

  lemma DoubtFirst(d: Element, a: Element, g: Setting)
    requires Beside(d, a) && g == Setting(map[d.rp := d], true, true)
    ensures Legal(Doubt(d, a), g, Event(a.rp, true, true, Some(false)))
    ensures Step(Doubt(d, a), g, Event(a.rp, true, true, Some(false))) == Doubt(d, a)
    ensures !Upsets(Doubt(d, a), g, Event(a.rp, true, true, Some(false)))
  {
  }

  lemma DoubtSecond(d: Element, a: Element, g: Setting)
    requires Beside(d, a) && g == Setting(map[d.rp := d], true, true)
    ensures Legal(Doubt(d, a), g, Event(d.rp, true, false, None))
    ensures Upsets(Doubt(d, a), g, Event(d.rp, true, false, None))
    ensures Step(Doubt(d, a), g, Event(d.rp, true, false, None)) == Doubt(d, a).(a := map[a.rp := a, d.rp := d])
  {
    Apart(d, a);
    assert Subtree(g.s, d.rp) == g.s;
    assert map[a.rp := a] + g.s == map[a.rp := a, d.rp := d];
  }

  lemma DoubtThird(d: Element, a: Element, g: Setting, t: Trio)
    requires Beside(d, a) && g == Setting(map[d.rp := d], true, true)
    requires t == Doubt(d, a).(a := map[a.rp := a, d.rp := d])
    ensures Legal(t, g, Event(a.rp, true, false, Some(true))) && !Upsets(t, g, Event(a.rp, true, false, Some(true)))
    ensures Step(t, g, Event(a.rp, true, false, Some(true))) == Trio(map[d.rp := d], map[d.rp := d], map[d.rp := d])
    ensures forall p :: ReportedAt(t, p) <==> p == a.rp
    ensures HalfExact(t, g, {})
  {
    Apart(d, a);
    assert Cut(t.a, a.rp) == map[d.rp := d];
  }

  lemma DoubtHistory(d: Element, a: Element, g: Setting)
    requires Beside(d, a) && g == Setting(map[d.rp := d], true, true)
    ensures Lawful(Doubt(d, a), g, Change(d, a)) && Lawful(Doubt(d, a), g, Change(d, a)[..2])
    ensures After(Doubt(d, a), g, Change(d, a)[..2]) == Doubt(d, a).(a := map[a.rp := a, d.rp := d])
    ensures After(Doubt(d, a), g, Change(d, a)) == Trio(map[d.rp := d], map[d.rp := d], map[d.rp := d])
  {
    hide Legal, Step;
    var t0, log := Doubt(d, a), Change(d, a);
    DoubtFirst(d, a, g);
    DoubtSecond(d, a, g);
    DoubtThird(d, a, g, t0.(a := map[a.rp := a, d.rp := d]));
    HistoryStart(t0, g);
    HistoryMore(t0, g, [], t0, log[0]);
    HistoryMore(t0, g, [log[0]], t0, log[1]);
    assert log[..2] == [log[0]] + [log[1]];
    HistoryMore(t0, g, log[..2], t0.(a := map[a.rp := a, d.rp := d]), log[2]);
    assert log == log[..2] + [log[2]];
  }

  lemma DoubtTurns(d: Element, a: Element, g: Setting)
    requires Beside(d, a) && g == Setting(map[d.rp := d], true, true)
    ensures InTurns(Doubt(d, a), g, Change(d, a), [0, 2]) && Undisturbed(Doubt(d, a), g, Change(d, a), 2, 3)
    ensures SomeLeft(Change(d, a)) && !SomeLeft(Change(d, a)[2..])
    ensures Heard(Doubt(d, a).(a := map[a.rp := a, d.rp := d]), Change(d, a), 2)
  {
    hide Upsets, Legal, Step;
    Apart(d, a);
    var t0, log := Doubt(d, a), Change(d, a);
    assert log[0] in log && log[0].left;
    DoubtFirst(d, a, g);
    DoubtSecond(d, a, g);
    DoubtThird(d, a, g, t0.(a := map[a.rp := a, d.rp := d]));
    DoubtHistory(d, a, g);
    assert log[..0] == [] && log[..1] == [log[0]] && log[..1][..0] == [];
    assert !UpsetAt(t0, g, log, 0) && UpsetAt(t0, g, log, 1) && !UpsetAt(t0, g, log, 2);
    assert [0, 2][..1] == [0];
    assert OneTurn(log[..2], 0, 2);
    assert InTurns(t0, g, log[..2], [0]);
    assert log[2].p == a.rp;
  }

  /**
   * The user is asked about the same line in every look, but what was given up in one look is not forgotten in the
   * next: with the second answer everything agrees, and yet the scrub returns 2 and does not save the files.
   */
  lemma SecondThoughts(d: Element, a: Element, g: Setting)
    requires Beside(d, a) && g == Setting(map[d.rp := d], true, true)
    ensures var t := Trio(map[d.rp := d], map[d.rp := d], map[d.rp := d]);
            ScrubDone(Doubt(d, a), g, Change(d, a), [0, 2], t, {}, {}, 2) && forall p :: t.WeightAt(p) == 0
  {
    hide Lawful, After, InTurns, SomeLeft, Heard, HalfExact, Spared, MajorityAside, Calm, Legal, Remade, OneTurn,
         Undisturbed;
    var t0, log, t := Doubt(d, a), Change(d, a), Trio(map[d.rp := d], map[d.rp := d], map[d.rp := d]);
    DoubtHistory(d, a, g);
    DoubtTurns(d, a, g);
    DoubtThird(d, a, g, t0.(a := map[a.rp := a, d.rp := d]));
    AllSeen(t0.(a := map[a.rp := a, d.rp := d]));
    AllSeen(t);
    NoneRemade(t0, g, log[..2]);
    NoneRemade(t0, g, log);
    SparedAll(t0, g, log, t);
    AllAlike(map[d.rp := d], g);
    if Calm(t0, g, log) { AsideDecided(t0, g, log, t, {}, {}, {}); }
  }

  lemma NoneRemade(t0: Trio, g: Setting, log: seq<Event>)
    requires Lawful(t0, g, log)
    ensures Remade(t0, g, log, {})
  {
  }

  lemma AllAlike(m: Catalog, g: Setting)
    ensures var t := Trio(m, m, m); OnlyHalf(t, g.s, {}) && AllExcused(t, g, {})
  {
  }

  /**
   * When the scrub returns 2 although nothing differs in what it sees but the half updated entries: just when a line
   * was left before the last look, and none since.
   */
  lemma TwoInVain(t0: Trio, g: Setting, log: seq<Event>, looks: seq<nat>, t: Trio, half: set<Path>, stale: set<Path>,
                  n: nat)
    requires ScrubDone(t0, g, log, looks, t, half, stale, n)
    ensures n == 2 && OnlyHalf(Hiding(t, stale), g.s, half) <==>
              SomeLeft(log[..LastOf(looks)]) && !SomeLeft(log[LastOf(looks)..])
  {
    hide InTurns, History, Spared, MajorityAside, Remade, HalfFrom, Heard, HalfExact, AllExcused, OnlyHalf,
         Undisturbed;
    SomeLeftMore(log[..LastOf(looks)], log[LastOf(looks)..]);
    assert log == log[..LastOf(looks)] + log[LastOf(looks)..];
  }

  /** A scrub that looks once leaves exactly those lines half updated that call for it at the start. */
  lemma HalfAtOneLook(t0: Trio, g: Setting, log: seq<Event>, t: Trio, half: set<Path>, stale: set<Path>, n: nat)
    requires ScrubDone(t0, g, log, [0], t, half, stale, n)
    ensures stale == {} && HalfExact(t0, g, half)
  {
    hide InTurns, History, Spared, MajorityAside, HalfFrom, Heard, HalfExact, AllExcused, OnlyHalf, Undisturbed;
    assert log[..0] == [];
    AllSeen(t0);
  }

  // ---------- a vote on a directory ----------

  /** Both files have `x` in the directory where the backup has `y`, and the second file has the directory changed. */
  ghost function Nested(d: Element, e: Element, x: Element, y: Element): Trio {
    Trio(map[d.rp := d, x.rp := y], map[d.rp := d, x.rp := x], map[d.rp := e, x.rp := x])
  }

  ghost predicate Within(d: Element, e: Element, x: Element, y: Element) {
    && d.ty.Directory? && e.ty.Directory? && d.rp == e.rp && d.rp.In? && d.rp.dir == Top && !Same(d, e)
    && x.rp == y.rp && x.rp.In? && x.rp.dir == d.rp && !Same(y, x)
  }

  lemma NestedFormed(d: Element, e: Element, x: Element, y: Element)
    requires Within(d, e, x, y)
    ensures Formed(Nested(d, e, x, y)) && Formed(Nested(d, e, x, y).(c := map[d.rp := d, x.rp := y]))
  {
  }

  lemma NestedCopies(d: Element, e: Element, x: Element, y: Element)
    requires Within(d, e, x, y)
    ensures var t := Nested(d, e, x, y); Replaced(t.c, t.a, d.rp) == t.a && Replaced(t.b, t.a, x.rp) == t.a
  {
    hide Same, Cut, Subtree;
    var t := Nested(d, e, x, y);
    assert Under(x.rp, d.rp) && Under(d.rp, d.rp) && Under(x.rp, x.rp) && !Under(d.rp, x.rp);
    forall q
      ensures Look(Replaced(t.c, t.a, d.rp), q) == Look(t.a, q) && Look(Replaced(t.b, t.a, x.rp), q) == Look(t.a, q)
    {
      LookReplaced(t.c, t.a, d.rp, q);
      LookReplaced(t.b, t.a, x.rp, q);
    }
    SameLooks(Replaced(t.c, t.a, d.rp), t.a);
    SameLooks(Replaced(t.b, t.a, x.rp), t.a);
  }

  lemma SameLooks(m: Catalog, n: Catalog)
    requires forall q :: Look(m, q) == Look(n, q)
    ensures m == n
  {
    assert forall q :: q in m <==> Look(m, q).Some?;
    assert forall q :: q in n <==> Look(n, q).Some?;
  }

  lemma NestedReported(d: Element, e: Element, x: Element, y: Element)
    requires Within(d, e, x, y)
    ensures ReportedAt(Nested(d, e, x, y), d.rp)
    ensures ReportedAt(Nested(d, e, x, y).(c := map[d.rp := d, x.rp := y]), x.rp)
  {
    hide Same;
    SameIsCompare(Some(d), Some(e));
    SameIsCompare(Some(y), Some(x));
  }

  lemma NestedFirst(d: Element, e: Element, x: Element, y: Element, g: Setting)
    requires Within(d, e, x, y)
    ensures Legal(Nested(d, e, x, y), g, Event(d.rp, true, false, None))
    ensures Upsets(Nested(d, e, x, y), g, Event(d.rp, true, false, None))
    ensures Step(Nested(d, e, x, y), g, Event(d.rp, true, false, None))
         == Nested(d, e, x, y).(c := map[d.rp := d, x.rp := y])
  {
    hide RepairOf, Helpless, Same, Excuse, WellFormed, Reported3, Replaced, Cut;
    var t := Nested(d, e, x, y);
    NestedFormed(d, e, x, y);
    NestedReported(d, e, x, y);
    SelfSame(d);
    NestedCopies(d, e, x, y);
  }

  lemma NestedSecond(d: Element, e: Element, x: Element, y: Element, g: Setting, t: Trio)
    requires Within(d, e, x, y) && t == Nested(d, e, x, y).(c := map[d.rp := d, x.rp := y])
    ensures Legal(t, g, Event(x.rp, true, false, None)) && Outvotes(t, Event(x.rp, true, false, None))
    ensures Step(t, g, Event(x.rp, true, false, None)) == Trio(t.a, t.a, t.a)
  {
    hide RepairOf, Helpless, Same, Excuse, WellFormed, Reported3, Replaced, Cut;
    NestedFormed(d, e, x, y);
    NestedReported(d, e, x, y);
    SelfSame(y);
    NestedCopies(d, e, x, y);
  }

  /**
   * Both metadata files agree on `x` against the backup, and yet the first file is outvoted on it and takes the entry
   * of the backup, because the second file was outvoted on the directory first.
   */
  lemma DirVoteHappens(d: Element, e: Element, x: Element, y: Element, g: Setting)
    requires Within(d, e, x, y)
    ensures var t0, log := Nested(d, e, x, y), [Event(d.rp, true, false, None), Event(x.rp, true, false, None)];
            && SameOpt(Look(t0.b, x.rp), Look(t0.c, x.rp)) && !SameOpt(Look(t0.a, x.rp), Look(t0.b, x.rp))
            && Lawful(t0, g, log) && InTurns(t0, g, log, [0, 1]) && VotedOn(t0, g, log, x.rp)
            && Look(After(t0, g, log).b, x.rp) == Look(t0.a, x.rp)
  {
    hide Legal, Step, Outvotes, Same, Upsets;
    SelfSame(x);
    var t0, log := Nested(d, e, x, y), [Event(d.rp, true, false, None), Event(x.rp, true, false, None)];
    var t := t0.(c := map[d.rp := d, x.rp := y]);
    NestedFirst(d, e, x, y, g);
    NestedSecond(d, e, x, y, g, t);
    HistoryStart(t0, g);
    HistoryMore(t0, g, [], t0, log[0]);
    assert log[..1] == [] + [log[0]];
    HistoryMore(t0, g, log[..1], t, log[1]);
    assert log == log[..1] + [log[1]];
    assert log[..0] == [] && UpsetAt(t0, g, log, 0);
    assert [0, 1][..1] == [0] && OneTurn(log[..1], 0, 1) && InTurns(t0, g, log[..1], [0]);
  }
}
