/** One line of a metadata file: the text of an element. */
module Lines {
  import opened Elements
  import opened Texts

  /** The calendar of the C library: printing a time, and reading one from the front of a text. */
  datatype Calendar = Calendar(put: int -> string, get: string -> Option<(int, string)>) {
    /** What is printed for `mt` is one piece of text without line breaks that is read back as `mt`. */
    ghost predicate Inverse(mt: int) {
      && put(mt) != "" && !Space(put(mt)[0]) && '\n' !in put(mt)
      && forall rest :: Ends(rest) ==> get(put(mt) + rest) == Some((mt, rest))
    }
  }

  // ---------- type and permissions ----------

  function TypeChar(ty: FileType): char {
    match ty
    case Regular => '-'
    case Directory => 'd'
    case Symlink => 'l'
    case Unknown => '?'
  }

  function ReadType(c: char): Option<FileType> {
    if c == '-' then Some(Regular)
    else if c == 'd' then Some(Directory)
    else if c == 'l' then Some(Symlink)
    else if c == '?' then Some(Unknown)
    else None
  }

  function Bit(n: nat, w: nat): nat
    requires w > 0
  {
    n / w % 2
  }

  function Flag(bits: nat, weight: nat, c: char): char
    requires weight > 0
  {
    if Bit(bits, weight) == 1 then c else '-'
  }

  function Mode(e: Element): string {
    [TypeChar(e.ty),
     Flag(e.per, 256, 'r'), Flag(e.per, 128, 'w'), Flag(e.per, 64, 'x'),
     Flag(e.per, 32, 'r'), Flag(e.per, 16, 'w'), Flag(e.per, 8, 'x'),
     Flag(e.per, 4, 'r'), Flag(e.per, 2, 'w'), Flag(e.per, 1, 'x')]
  }

  function ReadFlag(c: char, letter: char): (r: Option<nat>)
    ensures r.Some? ==> r.value < 2
  {
    if c == letter then Some(1) else if c == '-' then Some(0) else None
  }

  function ReadTriple(w: string, i: nat): (r: Option<nat>)
    requires i + 3 <= |w|
    ensures r.Some? ==> r.value < 8
  {
    var a :- ReadFlag(w[i], 'r');
    var b :- ReadFlag(w[i + 1], 'w');
    var c :- ReadFlag(w[i + 2], 'x');
    Some(4 * a + 2 * b + c)
  }

  function ReadPermissions(w: string): (r: Option<nat>)
    requires |w| == 10
    ensures r.Some? ==> r.value < 512
  {
    var a :- ReadTriple(w, 1);
    var b :- ReadTriple(w, 4);
    var c :- ReadTriple(w, 7);
    Some(64 * a + 8 * b + c)
  }

  lemma Quotient(n: int, d: int, h: int, r: int)
    requires d > 0 && n == d * h + r && 0 <= r < d
    ensures n / d == h
  {
    var k := n / d - h;
    assert d * k == r - n % d;
    assert k >= 1 ==> d * k >= d;
    assert k <= -1 ==> d * k <= -d;
  }

  lemma Distribute(w: int, a: int, b: int)
    ensures w * (a + b) == w * a + w * b
  {
  }

  lemma Associate(w: int, a: int, b: int)
    ensures w * (a * b) == (w * a) * b
  {
  }

  /** A number of `w * m` parts: dividing by `w` can be done part by part. */
  lemma Parts(n: nat, w: nat, m: nat)
    requires w > 0 && m > 0 && w * m > 0
    ensures n / w == m * (n / (w * m)) + n % (w * m) / w
  {
    var q, r := n / (w * m), n % (w * m);
    Associate(w, m, q);
    Distribute(w, m * q, r / w);
    Quotient(n, w, m * q + r / w, r % w);
  }

  /** The lowest bit of a number that has been shifted. */
  lemma Half(n: nat, w: nat)
    requires w > 0
    ensures n / w == 2 * (n / (w * 2)) + n / w % 2
  {
    Parts(n, w, 2);
    var r := n % (w * 2);
    Quotient(r, w, if r < w then 0 else 1, if r < w then r else r - w);
  }

  lemma BinarySum(q: seq<int>, b: seq<int>)
    requires |q| == 10 && |b| == 9 && q[9] == 0
    requires forall i :: 0 <= i < 9 ==> q[i] == 2 * q[i + 1] + b[i]
    ensures q[0] == 256 * b[8] + 128 * b[7] + 64 * b[6] + 32 * b[5] + 16 * b[4] + 8 * b[3] + 4 * b[2] + 2 * b[1] + b[0]
  {
  }

  lemma Bits(n: nat)
    requires n < 512
    ensures n == 256 * Bit(n, 256) + 128 * Bit(n, 128) + 64 * Bit(n, 64) + 32 * Bit(n, 32) + 16 * Bit(n, 16)
                 + 8 * Bit(n, 8) + 4 * Bit(n, 4) + 2 * Bit(n, 2) + Bit(n, 1)
  {
    Half(n, 1); Half(n, 2); Half(n, 4); Half(n, 8); Half(n, 16); Half(n, 32); Half(n, 64); Half(n, 128); Half(n, 256);
    BinarySum([n, n / 2, n / 4, n / 8, n / 16, n / 32, n / 64, n / 128, n / 256, n / 512],
              [Bit(n, 1), Bit(n, 2), Bit(n, 4), Bit(n, 8), Bit(n, 16), Bit(n, 32), Bit(n, 64), Bit(n, 128),
                  Bit(n, 256)]);
  }

  lemma FlagRoundTrip(bits: nat, weight: nat, c: char)
    requires weight > 0 && c != '-'
    ensures ReadFlag(Flag(bits, weight, c), c) == Some(Bit(bits, weight))
  {
  }

  lemma ModeRoundTrip(e: Element)
    requires e.per < 512
    ensures |Mode(e)| == 10 && ReadType(Mode(e)[0]) == Some(e.ty) && ReadPermissions(Mode(e)) == Some(e.per)
  {
    hide Flag, ReadFlag, Bit;
    Bits(e.per);
    FlagRoundTrip(e.per, 256, 'r'); FlagRoundTrip(e.per, 128, 'w'); FlagRoundTrip(e.per, 64, 'x');
    FlagRoundTrip(e.per, 32, 'r'); FlagRoundTrip(e.per, 16, 'w'); FlagRoundTrip(e.per, 8, 'x');
    FlagRoundTrip(e.per, 4, 'r'); FlagRoundTrip(e.per, 2, 'w'); FlagRoundTrip(e.per, 1, 'x');
  }

  lemma ModePlain(e: Element)
    ensures Plain(Mode(e))
  {
  }

  // ---------- the line ----------

  function PathPart(e: Element): string {
    Quote(PathText(e.rp))
  }

  function HashText(e: Element): string {
    if e.hash == "" then "*" else e.hash
  }

  function KindPart(e: Element): string {
    match e.ty
    case Regular => Number(e.sz) + (" " + (HashText(e) + (" " + PathPart(e))))
    case Symlink => Quote(e.target) + (" " + PathPart(e))
    case _ => PathPart(e)
  }

  function TimePart(cal: Calendar, e: Element): string {
    cal.put(e.mt) + (" +0000" + (" " + KindPart(e)))
  }

  function OwnerPart(cal: Calendar, e: Element): string {
    " " + (e.us + (" " + (e.gs + (" " + TimePart(cal, e)))))
  }

  /** The line of an element. */
  function Print(cal: Calendar, e: Element): string {
    Mode(e) + OwnerPart(cal, e)
  }

  datatype Kind = Kind(sz: int, hash: string, target: string)

  function ReadHash(w: string): Option<string> {
    if w == "*" then Some("") else if |w| == 40 then Some(w) else None
  }

  function ReadKind(ty: FileType, s: string): Option<(Kind, string)> {
    match ty
    case Regular =>
      var n :- Integer(s);
      var w :- Word(n.1);
      var h :- ReadHash(w.0);
      Some((Kind(n.0, h, ""), w.1))
    case Symlink =>
      var q :- Quoted(s);
      Some((Kind(0, "", q.0), q.1))
    case _ => Some((Kind(0, "", ""), s))
  }

  function ReadTime(cal: Calendar, s: string): Option<(int, string)> {
    var t :- cal.get(SkipSpace(s));
    if t.0 != -1 && |t.1| >= 6 && t.1[..6] == " +0000" then Some((t.0, t.1[6..])) else None
  }

  /** The path is the last thing on the line. */
  function ReadLast(s: string): Option<Path> {
    var q :- Quoted(s);
    if q.1 == "" then ReadPath(q.0) else None
  }

  function ReadElement(cal: Calendar, line: string): Option<Element> {
    var mode :- Word(line);
    if |mode.0| != 10 then None
    else
      var ty :- ReadType(mode.0[0]);
      var per :- ReadPermissions(mode.0);
      var us :- Word(mode.1);
      var gs :- Word(us.1);
      var mt :- ReadTime(cal, gs.1);
      var kind :- ReadKind(ty, mt.1);
      var rp :- ReadLast(kind.1);
      Some(Element(ty, per, us.0, gs.0, mt.0, kind.0.sz, kind.0.hash, rp, kind.0.target))
  }

  /** The elements that a line can hold: those that the reader can produce. */
  ghost predicate Printable(e: Element) {
    && e.per < 512 && Plain(e.us) && Plain(e.gs) && e.mt != -1 && Proper(e.rp)
    && (if e.ty.Regular? then InRange(e.sz) && (e.hash == "" || (|e.hash| == 40 && Plain(e.hash)))
        else e.sz == 0 && e.hash == "")
    && (e.ty.Symlink? || e.target == "")
  }

  /** Whatever the reader accepts is an element that a line can hold. */
  lemma ReadElementPrintable(cal: Calendar, line: string)
    ensures ReadElement(cal, line).Some? ==> Printable(ReadElement(cal, line).value)
  {
    hide Word, Integer, Quoted, Plain, Proper, ReadPath, ReadPermissions, SkipSpace;
    if ReadElement(cal, line).Some? {
      var mode := Word(line).value;
      var us := Word(mode.1).value;
      var gs := Word(us.1).value;
      var mt := ReadTime(cal, gs.1).value;
      WordIsPlain(mode.1);
      WordIsPlain(us.1);
      ReadKindFits(ReadType(mode.0[0]).value, mt.1);
      ReadLastProper(ReadKind(ReadType(mode.0[0]).value, mt.1).value.1);
    }
  }

  lemma ReadLastProper(s: string)
    ensures ReadLast(s).Some? ==> Proper(ReadLast(s).value)
  {
    hide Quoted, Proper, ReadPath;
    if ReadLast(s).Some? { ReadPathProper(Quoted(s).value.0); }
  }

  lemma ReadKindFits(ty: FileType, s: string)
    requires ReadKind(ty, s).Some?
    ensures var k := ReadKind(ty, s).value.0;
            && (if ty.Regular? then InRange(k.sz) && (k.hash == "" || (|k.hash| == 40 && Plain(k.hash)))
                else k.sz == 0 && k.hash == "")
            && (ty.Symlink? || k.target == "")
  {
    hide Word, Quoted, Plain, SkipSpace, Value, DigitEnd;
    if ty.Regular? {
      var n := Integer(s).value;
      WordIsPlain(n.1);
    }
  }

  lemma KindRoundTrip(e: Element)
    requires Printable(e)
    ensures ReadKind(e.ty, " " + KindPart(e)) == Some((Kind(e.sz, e.hash, e.target), " " + PathPart(e)))
  {
    hide Word, Integer, Quoted, Number, Quote, PathText;
    match e.ty {
      case Regular =>
        IntegerIs(e.sz, " " + (HashText(e) + (" " + PathPart(e))));
        NextWord(HashText(e), " " + PathPart(e));
      case Symlink => QuotedIs(e.target, " " + PathPart(e));
      case _ =>
    }
  }

  lemma NextWord(w: string, rest: string)
    requires Plain(w) && Ends(rest)
    ensures Word(" " + (w + rest)) == Some((w, rest))
  {
    WordIs(w, rest);
    OneSpace(w + rest);
  }

  lemma LastRoundTrip(e: Element)
    requires Proper(e.rp)
    ensures ReadLast(" " + PathPart(e)) == Some(e.rp)
  {
    hide Quoted, Quote, PathText, ReadPath;
    QuotedIs(PathText(e.rp), "");
    assert PathPart(e) + "" == PathPart(e);
    PathRoundTrip(e.rp);
  }

  lemma TimeRoundTrip(cal: Calendar, e: Element)
    requires cal.Inverse(e.mt) && e.mt != -1
    ensures ReadTime(cal, " " + TimePart(cal, e)) == Some((e.mt, " " + KindPart(e)))
  {
    hide KindPart, SkipSpace;
    var rest := " +0000" + (" " + KindPart(e));
    OneSpace(TimePart(cal, e));
    assert cal.get(cal.put(e.mt) + rest) == Some((e.mt, rest));
    assert rest[..6] == " +0000" && rest[6..] == " " + KindPart(e);
  }

  /** Reading the line of an element gives back the element just when a line can hold it. */
  lemma LineRoundTrip(cal: Calendar, e: Element)
    requires cal.Inverse(e.mt)
    ensures ReadElement(cal, Print(cal, e)) == Some(e) <==> Printable(e)
  {
    hide Word, Plain, Proper, Mode, ReadType, ReadPermissions, ReadTime, ReadKind, ReadLast, TimePart, KindPart,
         PathPart, Calendar.Inverse, InRange;
    if Printable(e) {
      ModePlain(e);
      WordIs(Mode(e), OwnerPart(cal, e));
      ModeRoundTrip(e);
      NextWord(e.us, " " + (e.gs + (" " + TimePart(cal, e))));
      NextWord(e.gs, " " + TimePart(cal, e));
      TimeRoundTrip(cal, e);
      KindRoundTrip(e);
      LastRoundTrip(e);
    } else {
      ReadElementPrintable(cal, Print(cal, e));
    }
  }

  /** The set-user-ID, set-group-ID and sticky bits do not survive: an element that has one is read back without it. */
  lemma SpecialBits(cal: Calendar, e: Element)
    requires cal.Inverse(e.mt) && Printable(e.(per := e.per % 512))
    ensures ReadElement(cal, Print(cal, e)) == Some(e.(per := e.per % 512))
    ensures e.per >= 512 ==> !Same(e, ReadElement(cal, Print(cal, e)).value)
  {
    hide ReadElement, Printable, OwnerPart;
    var e' := e.(per := e.per % 512);
    LowFlag(e.per, 256, 1, 'r'); LowFlag(e.per, 128, 2, 'w'); LowFlag(e.per, 64, 4, 'x');
    LowFlag(e.per, 32, 8, 'r'); LowFlag(e.per, 16, 16, 'w'); LowFlag(e.per, 8, 32, 'x');
    LowFlag(e.per, 4, 64, 'r'); LowFlag(e.per, 2, 128, 'w'); LowFlag(e.per, 1, 256, 'x');
    assert Mode(e) == Mode(e');
    SameOwnerPart(cal, e);
    LineRoundTrip(cal, e');
  }

  lemma SameOwnerPart(cal: Calendar, e: Element)
    ensures OwnerPart(cal, e) == OwnerPart(cal, e.(per := e.per % 512))
  {
  }

  lemma LowFlag(bits: nat, weight: nat, m: nat, c: char)
    requires weight > 0 && m > 0 && weight * (2 * m) == 512
    ensures Flag(bits, weight, c) == Flag(bits % 512, weight, c)
  {
    Parts(bits, weight, 2 * m);
    Associate(2, m, bits / 512);
    Even(m * (bits / 512), bits % 512 / weight);
  }

  lemma Even(h: int, x: int)
    ensures (2 * h + x) % 2 == x % 2
  {
  }

  // ---------- the line is one line ----------

  /** No line break in the texts of the element. */
  ghost predicate OneLine(e: Element) {
    '\n' !in e.target && '\n' !in PathText(e.rp)
  }

  lemma {:induction false} EscapeOneLine(s: string)
    ensures '\n' in Escape(s) <==> '\n' in s
  {
    if s != "" {
      EscapeOneLine(s[1..]);
      assert '\n' in s <==> s[0] == '\n' || '\n' in s[1..];
    }
  }

  lemma PlainOneLine(s: string)
    requires Plain(s)
    ensures '\n' !in s
  {
    assert Space('\n');
  }

  lemma NumberOneLine(n: int)
    ensures '\n' !in Number(n)
  {
    hide Digits;
    DigitsAre(if n < 0 then 0 - n else n);
    assert !Digit('\n');
  }

  lemma KindOneLine(e: Element)
    requires Printable(e) && OneLine(e)
    ensures '\n' !in KindPart(e)
  {
    hide Plain, Number, Escape, PathText, Proper, InRange;
    EscapeOneLine(PathText(e.rp));
    EscapeOneLine(e.target);
    NumberOneLine(e.sz);
    if e.hash != "" { PlainOneLine(e.hash); }
  }

  lemma PrintOneLine(cal: Calendar, e: Element)
    requires cal.Inverse(e.mt) && Printable(e) && OneLine(e)
    ensures '\n' !in Print(cal, e) && Print(cal, e) != ""
  {
    hide Plain, KindPart, Mode, Proper, InRange;
    ModePlain(e);
    PlainOneLine(Mode(e));
    PlainOneLine(e.us);
    PlainOneLine(e.gs);
    KindOneLine(e);
  }

  // ---------- the format, spelled out ----------

  /** The first character is the type, the next nine are the permission bits, from 0400 down to 0001. */
  lemma ModeSpelled(cal: Calendar, e: Element, i: nat)
    requires i < 9
    ensures |Print(cal, e)| > 10
    ensures Print(cal, e)[0] == (match e.ty case Regular => '-' case Directory => 'd' case Symlink => 'l'
                                            case Unknown => '?')
    ensures Print(cal, e)[1 + i] ==
              if e.per / [256, 128, 64, 32, 16, 8, 4, 2, 1][i] % 2 == 1 then "rwxrwxrwx"[i] else '-'
  {
    hide OwnerPart;
    assert OwnerPart(cal, e) != "" by { OwnerSpelled(cal, e); }
    assert Mode(e)[1 + i] == Print(cal, e)[1 + i];
  }

  /** User and group follow, and the time with its zone. */
  lemma OwnerSpelled(cal: Calendar, e: Element)
    ensures OwnerPart(cal, e) == " " + e.us + " " + e.gs + " " + cal.put(e.mt) + " +0000 " + KindPart(e)
  {
    hide KindPart;
    assert " +0000 " == " +0000" + " ";
  }

  /** A file has its size and its hash or an asterisk, a link its target; the path comes last, in quotes. */
  lemma KindSpelled(e: Element)
    ensures e.ty.Regular? && e.hash != "" ==>
              KindPart(e) == Number(e.sz) + " " + e.hash + " \"" + Escape(PathText(e.rp)) + "\""
    ensures e.ty.Regular? && e.hash == "" ==>
              KindPart(e) == Number(e.sz) + " * \"" + Escape(PathText(e.rp)) + "\""
    ensures e.ty.Symlink? ==> KindPart(e) == "\"" + Escape(e.target) + "\" \"" + Escape(PathText(e.rp)) + "\""
    ensures e.ty.Directory? || e.ty.Unknown? ==> KindPart(e) == "\"" + Escape(PathText(e.rp)) + "\""
  {
    hide Number, Escape, PathText;
    assert " * \"" == " " + "*" + " " + "\"" && " \"" == " " + "\"" && "\" \"" == "\"" + " " + "\"";
  }

  /** Numbers are decimal, a path has slashes, and quotes and backslashes get a backslash. */
  lemma WordsSpelled()
    ensures Number(1204) == "1204" && Number(-7) == "-7" && Number(0) == "0"
    ensures PathText(In(In(Top, "a"), "b")) == "a/b" && PathText(In(Top, "a")) == "a"
    ensures Escape("a\"b\\c") == "a\\\"b\\\\c" && Escape("d e") == "d e"
  {
    DigitsSpelled();
    EscapeSpelled();
  }

  lemma DigitsSpelled()
    ensures Digits(1204) == "1204" && Digits(7) == "7" && Digits(0) == "0"
  {
    assert Digits(1) == "1";
    assert Digits(12) == "12";
    assert Digits(120) == "120";
  }

  lemma EscapeSpelled()
    ensures Escape("a\"b\\c") == "a\\\"b\\\\c" && Escape("d e") == "d e" && Escape("d") == "d" && Escape("d/x") == "d/x"
  {
    var s := "a\"b\\c";
    assert s[1..] == "\"b\\c" && s[1..][1..] == "b\\c" && s[1..][1..][1..] == "\\c" && s[1..][1..][1..][1..] == "c";
    assert "c"[1..] == "" && Escape("c") == "c" && Escape("\\c") == "\\\\c" && Escape("b\\c") == "b\\\\c";
    assert Escape("\"b\\c") == "\\\"b\\\\c";
    assert "d e"[1..] == " e" && " e"[1..] == "e" && "e"[1..] == "" && Escape("e") == "e" && Escape(" e") == " e";
    assert "d"[1..] == "" && "d/x"[1..] == "/x" && "/x"[1..] == "x" && "x"[1..] == "" && Escape("x") == "x";
    assert Escape("/x") == "/x";
  }

  lemma ReadsAs(cal: Calendar, e: Element, mode: string, head: string, kind: string, tail: string)
    requires e.us == "u" && e.gs == "g" && Printable(e) && cal.Inverse(e.mt)
    requires Mode(e) == mode && head == mode + " u g " && KindPart(e) == kind && tail == " +0000 " + kind
    ensures ReadElement(cal, head + cal.put(e.mt) + tail) == Some(e)
  {
    hide Mode, KindPart, ReadElement, Printable, Calendar.Inverse;
    OwnerSpelled(cal, e);
    assert " u g " == " " + "u" + " " + "g" + " ";
    assert Print(cal, e) == head + cal.put(e.mt) + tail;
    LineRoundTrip(cal, e);
  }

  lemma OneLetter(c: char)
    requires !Space(c)
    ensures Plain([c])
  {
  }

  /** A directory with the permissions 0755. */
  lemma DirectoryLine(cal: Calendar, mt: int)
    requires cal.Inverse(mt) && mt != -1
    ensures ReadElement(cal, "drwxr-xr-x u g " + cal.put(mt) + " +0000 \"d\"") ==
              Some(Element(Directory, 493, "u", "g", mt, 0, "", In(Top, "d"), ""))
  {
    hide ReadElement, Calendar.Inverse, Escape, Plain, KindPart, Mode;
    var e := Element(Directory, 493, "u", "g", mt, 0, "", In(Top, "d"), "");
    EscapeSpelled();
    KindSpelled(e);
    OneLetter('u');
    OneLetter('g');
    assert Mode(e) == "drwxr-xr-x" by { DirectoryMode(e); }
    assert KindPart(e) == "\"d\"" by { assert "\"d\"" == "\"" + "d" + "\""; }
    ReadsAs(cal, e, "drwxr-xr-x", "drwxr-xr-x u g ", "\"d\"", " +0000 \"d\"");
  }

  lemma DirectoryMode(e: Element)
    requires e.ty.Directory? && e.per == 493
    ensures Mode(e) == "drwxr-xr-x"
  {
  }

  /** A file with the permissions 0640, without a hash. */
  lemma FileLine(cal: Calendar, mt: int)
    requires cal.Inverse(mt) && mt != -1
    ensures ReadElement(cal, "-rw-r----- u g " + cal.put(mt) + " +0000 1204 * \"d/x\"") ==
              Some(Element(Regular, 416, "u", "g", mt, 1204, "", In(In(Top, "d"), "x"), ""))
  {
    hide ReadElement, Calendar.Inverse, Escape, Plain, KindPart, Mode, Number;
    var e := Element(Regular, 416, "u", "g", mt, 1204, "", In(In(Top, "d"), "x"), "");
    FilePath();
    EscapeSpelled();
    WordsSpelled();
    KindSpelled(e);
    OneLetter('u');
    OneLetter('g');
    assert Mode(e) == "-rw-r-----" by { FileMode(e); }
    assert KindPart(e) == "1204 * \"d/x\"" by { assert "1204 * \"d/x\"" == "1204" + " * \"" + "d/x" + "\""; }
    ReadsAs(cal, e, "-rw-r-----", "-rw-r----- u g ", "1204 * \"d/x\"", " +0000 1204 * \"d/x\"");
  }

  lemma FilePath()
    ensures PathText(In(In(Top, "d"), "x")) == "d/x" && Proper(In(In(Top, "d"), "x"))
  {
  }

  lemma FileMode(e: Element)
    requires e.ty.Regular? && e.per == 416
    ensures Mode(e) == "-rw-r-----"
  {
  }

  /** The same file with a hash. */
  lemma HashedLine(cal: Calendar, mt: int, h: string)
    requires cal.Inverse(mt) && mt != -1 && |h| == 40 && Plain(h)
    ensures ReadElement(cal, "-rw-r----- u g " + cal.put(mt) + (" +0000 1204 " + h + " \"d/x\"")) ==
              Some(Element(Regular, 416, "u", "g", mt, 1204, h, In(In(Top, "d"), "x"), ""))
  {
    hide ReadElement, Calendar.Inverse, Escape, Plain, KindPart, Mode, Number;
    var e := Element(Regular, 416, "u", "g", mt, 1204, h, In(In(Top, "d"), "x"), "");
    FilePath();
    EscapeSpelled();
    WordsSpelled();
    KindSpelled(e);
    OneLetter('u');
    OneLetter('g');
    FileMode(e);
    var kind := "1204 " + h + " \"d/x\"";
    assert KindPart(e) == kind by { assert "1204 " == "1204" + " " && " \"d/x\"" == " \"" + "d/x" + "\""; }
    assert " +0000 1204 " + h + " \"d/x\"" == " +0000 " + kind by { assert " +0000 1204 " == " +0000 " + "1204 "; }
    ReadsAs(cal, e, "-rw-r-----", "-rw-r----- u g ", kind, " +0000 1204 " + h + " \"d/x\"");
  }

  /** Something that is neither file nor directory nor link, without permissions. */
  lemma UnknownLine(cal: Calendar, mt: int)
    requires cal.Inverse(mt) && mt != -1
    ensures ReadElement(cal, "?--------- u g " + cal.put(mt) + " +0000 \"d\"") ==
              Some(Element(Unknown, 0, "u", "g", mt, 0, "", In(Top, "d"), ""))
  {
    hide ReadElement, Calendar.Inverse, Escape, Plain, KindPart, Mode;
    var e := Element(Unknown, 0, "u", "g", mt, 0, "", In(Top, "d"), "");
    EscapeSpelled();
    KindSpelled(e);
    OneLetter('u');
    OneLetter('g');
    assert Mode(e) == "?---------" by { UnknownMode(e); }
    assert KindPart(e) == "\"d\"" by { assert "\"d\"" == "\"" + "d" + "\""; }
    ReadsAs(cal, e, "?---------", "?--------- u g ", "\"d\"", " +0000 \"d\"");
  }

  lemma UnknownMode(e: Element)
    requires e.ty.Unknown? && e.per == 0
    ensures Mode(e) == "?---------"
  {
  }

  /** A link whose target has a quote and a backslash. */
  lemma LinkLine(cal: Calendar, mt: int)
    requires cal.Inverse(mt) && mt != -1
    ensures ReadElement(cal, "lrwxrwxrwx u g " + cal.put(mt) + " +0000 \"a\\\"b\\\\c\" \"d\"") ==
              Some(Element(Symlink, 511, "u", "g", mt, 0, "", In(Top, "d"), "a\"b\\c"))
  {
    hide ReadElement, Calendar.Inverse, Escape, Plain, KindPart, Mode;
    var e := Element(Symlink, 511, "u", "g", mt, 0, "", In(Top, "d"), "a\"b\\c");
    EscapeSpelled();
    KindSpelled(e);
    OneLetter('u');
    OneLetter('g');
    assert Mode(e) == "lrwxrwxrwx" by { LinkMode(e); }
    assert KindPart(e) == "\"a\\\"b\\\\c\" \"d\"" by {
      assert "\"a\\\"b\\\\c\" \"d\"" == "\"" + "a\\\"b\\\\c" + "\" \"" + "d" + "\"";
    }
    ReadsAs(cal, e, "lrwxrwxrwx", "lrwxrwxrwx u g ", "\"a\\\"b\\\\c\" \"d\"", " +0000 \"a\\\"b\\\\c\" \"d\"");
  }

  lemma LinkMode(e: Element)
    requires e.ty.Symlink? && e.per == 511
    ensures Mode(e) == "lrwxrwxrwx"
  {
  }
}
