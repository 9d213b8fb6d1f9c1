/** Reading and printing the words, numbers, quoted strings and paths of a metadata line. */
module Texts {
  import opened Elements

  // ---------- words ----------

  predicate Space(c: char) {
    c == ' ' || '\t' <= c <= '\r'
  }

  /** A word: something, and no white space in it. */
  ghost predicate Plain(w: string) {
    w != "" && forall c :: c in w ==> !Space(c)
  }

  /** The text ends here, or white space follows. */
  predicate Ends(s: string) {
    s == "" || Space(s[0])
  }

  function SkipSpace(s: string): string {
    if s != "" && Space(s[0]) then SkipSpace(s[1..]) else s
  }

  function WordEnd(s: string): (n: nat)
    ensures n <= |s|
  {
    if Ends(s) then 0 else 1 + WordEnd(s[1..])
  }

  /** Read a word: skip white space, take what comes before the next. */
  function Word(s: string): Option<(string, string)> {
    var t := SkipSpace(s);
    if WordEnd(t) == 0 then None else Some((t[..WordEnd(t)], t[WordEnd(t)..]))
  }

  lemma {:induction false} WordEndIs(w: string, rest: string)
    requires (forall c :: c in w ==> !Space(c)) && Ends(rest)
    ensures WordEnd(w + rest) == |w|
  {
    if w == "" {
      assert w + rest == rest;
    } else {
      assert (w + rest)[1..] == w[1..] + rest;
      WordEndIs(w[1..], rest);
    }
  }

  lemma {:induction false} WordEndPlain(s: string)
    ensures forall c :: c in s[..WordEnd(s)] ==> !Space(c)
  {
    if !Ends(s) {
      WordEndPlain(s[1..]);
      assert s[..WordEnd(s)] == [s[0]] + s[1..][..WordEnd(s[1..])];
    }
  }

  lemma WordIsPlain(s: string)
    ensures Word(s).Some? ==> Plain(Word(s).value.0)
  {
    WordEndPlain(SkipSpace(s));
  }

  lemma WordIs(w: string, rest: string)
    requires Plain(w) && Ends(rest)
    ensures Word(w + rest) == Some((w, rest))
  {
    WordEndIs(w, rest);
    assert (w + rest)[0] == w[0];
    assert (w + rest)[..|w|] == w && (w + rest)[|w|..] == rest;
  }

  /** The space before something is skipped. */
  lemma OneSpace(s: string)
    requires s != "" && !Space(s[0])
    ensures SkipSpace(" " + s) == s && SkipSpace(s) == s
  {
    assert (" " + s)[1..] == s;
  }

  // ---------- numbers ----------

  predicate Digit(c: char) {
    '0' <= c <= '9'
  }

  function Digits(n: nat): (s: string)
    ensures s != ""
  {
    (if n < 10 then "" else Digits(n / 10)) + ['0' + (n % 10) as char]
  }

  function Value(s: string): nat {
    if s == "" then 0
    else 10 * Value(s[..|s| - 1]) + (if Digit(s[|s| - 1]) then (s[|s| - 1] - '0') as nat else 0)
  }

  function DigitEnd(s: string): (n: nat)
    ensures n <= |s|
  {
    if s == "" || !Digit(s[0]) then 0 else 1 + DigitEnd(s[1..])
  }

  function Number(n: int): string {
    if n < 0 then "-" + Digits(-n) else Digits(n)
  }

  const MAX_SIZE: int := 0x7FFF_FFFF_FFFF_FFFF

  predicate InRange(n: int) {
    -MAX_SIZE - 1 <= n <= MAX_SIZE
  }

  function Signed(n: nat, negative: bool): int {
    if negative then 0 - n else n
  }

  function Unsigned(s: string, negative: bool): Option<(int, string)> {
    var n := DigitEnd(s);
    var v := Signed(Value(s[..n]), negative);
    if n == 0 || !InRange(v) then None else Some((v, s[n..]))
  }

  /** Read a number: skip white space, take a sign and digits. It has to fit a signed 64-bit integer. */
  function Integer(s: string): Option<(int, string)> {
    var t := SkipSpace(s);
    if t != "" && (t[0] == '-' || t[0] == '+') then Unsigned(t[1..], t[0] == '-') else Unsigned(t, false)
  }

  lemma {:induction false} DigitsAre(n: nat)
    ensures Value(Digits(n)) == n && forall c :: c in Digits(n) ==> Digit(c)
  {
    var s := Digits(n);
    var c := '0' + (n % 10) as char;
    assert s[|s| - 1] == c && c - '0' == (n % 10) as char;
    if n >= 10 {
      DigitsAre(n / 10);
      assert s[..|s| - 1] == Digits(n / 10);
    } else {
      assert s[..|s| - 1] == "";
    }
  }

  lemma {:induction false} DigitEndIs(w: string, rest: string)
    requires (forall c :: c in w ==> Digit(c)) && Ends(rest)
    ensures DigitEnd(w + rest) == |w|
  {
    if w == "" {
      assert w + rest == rest;
    } else {
      assert (w + rest)[1..] == w[1..] + rest;
      DigitEndIs(w[1..], rest);
    }
  }

  lemma UnsignedIs(n: nat, rest: string, negative: bool)
    requires Ends(rest) && InRange(Signed(n, negative))
    ensures Unsigned(Digits(n) + rest, negative) == Some((Signed(n, negative), rest))
  {
    DigitsAre(n);
    DigitEndIs(Digits(n), rest);
    var s := Digits(n) + rest;
    assert s[..|Digits(n)|] == Digits(n) && s[|Digits(n)|..] == rest;
  }

  /** A printed number can be read. */
  lemma IntegerIs(n: int, rest: string)
    requires Ends(rest) && InRange(n)
    ensures Integer(" " + (Number(n) + rest)) == Some((n, rest))
  {
    hide Digits, Value, SkipSpace, Unsigned;
    var t := Number(n) + rest;
    if n < 0 {
      assert t[0] == '-' && t[1..] == Digits(-n) + rest;
      UnsignedIs(-n, rest, true);
    } else {
      DigitsAre(n);
      assert t[0] in Digits(n);
      UnsignedIs(n, rest, false);
    }
    OneSpace(t);
  }

  // ---------- quoted strings ----------

  function Escape(s: string): string {
    if s == "" then ""
    else (if s[0] == '"' || s[0] == '\\' then ['\\', s[0]] else [s[0]]) + Escape(s[1..])
  }

  function Quote(s: string): string {
    "\"" + (Escape(s) + "\"")
  }

  /** What comes before the closing quote, and what comes after it. */
  function Unescape(s: string): Option<(string, string)> {
    if s == "" then None
    else if s[0] == '"' then Some(("", s[1..]))
    else if s[0] == '\\' then
      if |s| < 2 then None else var r :- Unescape(s[2..]); Some(([s[1]] + r.0, r.1))
    else var r :- Unescape(s[1..]); Some(([s[0]] + r.0, r.1))
  }

  /** Read a string that may be quoted. */
  function Quoted(s: string): Option<(string, string)> {
    var t := SkipSpace(s);
    if t != "" && t[0] == '"' then Unescape(t[1..]) else Word(t)
  }

  lemma {:induction false} UnescapeIs(s: string, rest: string)
    ensures Unescape(Escape(s) + ("\"" + rest)) == Some((s, rest))
  {
    var t := Escape(s) + ("\"" + rest);
    if s == "" {
      assert t == "\"" + rest && t[1..] == rest;
    } else {
      UnescapeIs(s[1..], rest);
      var u := Escape(s[1..]) + ("\"" + rest);
      if s[0] == '"' || s[0] == '\\' {
        assert t == ['\\', s[0]] + u && t[2..] == u;
      } else {
        assert t == [s[0]] + u && t[1..] == u;
      }
      assert [s[0]] + s[1..] == s;
    }
  }

  lemma QuotedIs(s: string, rest: string)
    ensures Quoted(" " + (Quote(s) + rest)) == Some((s, rest))
  {
    OneSpace(Quote(s) + rest);
    assert (Quote(s) + rest)[1..] == Escape(s) + ("\"" + rest);
    UnescapeIs(s, rest);
  }

  // ---------- paths ----------

  predicate IsName(s: string) {
    s != "" && '/' !in s
  }

  /** Every name of the path is one. */
  predicate Proper(p: Path) {
    p.In? && IsName(p.name) && (p.dir == Top || Proper(p.dir))
  }

  function PathText(p: Path): string {
    match p
    case Top => ""
    case In(Top, n) => n
    case In(d, n) => PathText(d) + ("/" + n)
  }

  /** Where the last name starts. */
  function NameStart(s: string): (n: nat)
    ensures n <= |s|
  {
    if s == "" || s[|s| - 1] == '/' then |s| else NameStart(s[..|s| - 1])
  }

  function ReadPath(s: string): Option<Path>
    decreases |s|
  {
    var n := NameStart(s);
    if n == |s| then None
    else if n == 0 then Some(In(Top, s))
    else var d :- ReadPath(s[..n - 1]); Some(In(d, s[n..]))
  }

  lemma {:induction false} NameStartIs(s: string, n: string)
    requires '/' !in n && (s == "" || s[|s| - 1] == '/')
    ensures NameStart(s + n) == |s|
  {
    if n == "" {
      assert s + n == s;
    } else {
      assert (s + n)[..|s + n| - 1] == s + n[..|n| - 1];
      NameStartIs(s, n[..|n| - 1]);
    }
  }

  lemma {:induction false} NameStartFacts(s: string)
    ensures '/' !in s[NameStart(s)..]
    ensures NameStart(s) > 0 ==> s[NameStart(s) - 1] == '/'
  {
    if s != "" && s[|s| - 1] != '/' {
      NameStartFacts(s[..|s| - 1]);
      var n := NameStart(s);
      assert s[n..] == s[..|s| - 1][n..] + [s[|s| - 1]];
    }
  }

  /** A path is read just when it is the text of a proper path, and it is that path. */
  lemma {:induction false} PathRoundTrip(p: Path)
    requires Proper(p)
    ensures ReadPath(PathText(p)) == Some(p)
  {
    if p.dir == Top {
      NameStartIs("", p.name);
      assert "" + p.name == p.name;
    } else {
      PathRoundTrip(p.dir);
      var d := PathText(p.dir) + "/";
      assert PathText(p) == d + p.name;
      NameStartIs(d, p.name);
      assert (d + p.name)[..|d| - 1] == PathText(p.dir) && (d + p.name)[|d|..] == p.name;
    }
  }

  lemma {:induction false} ReadPathProper(s: string)
    ensures ReadPath(s).Some? ==> Proper(ReadPath(s).value) && PathText(ReadPath(s).value) == s
    decreases |s|
  {
    NameStartFacts(s);
    var n := NameStart(s);
    if 0 < n < |s| {
      ReadPathProper(s[..n - 1]);
      assert s == s[..n - 1] + ("/" + s[n..]);
    } else {
      assert s[0..] == s;
    }
  }
}
