/**
 SQL is written with SQLite placeholders and rewritten for a driver of the `format` and `pyformat`
 styles of PEP 249. Rewriting keeps the meaning of a text exactly when it has no percent sign.
 Colons and question marks are taken to be placeholders wherever they can be one, quoted or not.
 */
module SqlPlaceholders {
  import opened Prelude
  import opened Text

  /** A statement as a driver reads it: characters, named and positional parameters. */
  datatype Piece = Char(c: char) | Named(name: string) | Positional

  predicate IsWord(c: char) {
    'a' <= c <= 'z' || 'A' <= c <= 'Z' || '0' <= c <= '9' || c == '_'
  }

  /** How many word characters the text starts with. */
  function WordLength(s: string): (n: nat)
    ensures n <= |s| && (forall k :: 0 <= k < n ==> IsWord(s[k])) && (n < |s| ==> !IsWord(s[n]))
  {
    if s == "" || !IsWord(s[0]) then 0 else 1 + WordLength(s[1..])
  }

  // ----- the statement as it is written -----

  function ReadNamed(s: string): seq<Piece>
    decreases |s|
  {
    if s == "" then []
    else
      var n := WordLength(s[1..]);
      if s[0] == ':' && n > 0 then [Named(s[1..1 + n])] + ReadNamed(s[1 + n..])
      else [Char(s[0])] + ReadNamed(s[1..])
  }

  function ReadPositional(s: string): seq<Piece> {
    if s == "" then []
    else [if s[0] == '?' then Positional else Char(s[0])] + ReadPositional(s[1..])
  }

  function Read(s: string, named: bool): seq<Piece> {
    if named then ReadNamed(s) else ReadPositional(s)
  }

  // ----- rewriting -----

  /** `re.sub(r":(\w+)\b", r"%(\1)s", s)`; a longest run of word characters always ends at a word boundary. */
  function RewriteNamed(s: string): string
    decreases |s|
  {
    if s == "" then ""
    else
      var n := WordLength(s[1..]);
      if s[0] == ':' && n > 0 then "%(" + s[1..1 + n] + ")s" + RewriteNamed(s[1 + n..])
      else [s[0]] + RewriteNamed(s[1..])
  }

  /** `s.replace("?", "%s")` */
  function RewritePositional(s: string): string {
    if s == "" then "" else (if s[0] == '?' then "%s" else [s[0]]) + RewritePositional(s[1..])
  }

  function PrepareSql(s: string, named: bool): string {
    if named then RewriteNamed(s) else RewritePositional(s)
  }

  // ----- the statement as the driver reads it -----

  function Cons(p: Piece, rest: Option<seq<Piece>>): Option<seq<Piece>> {
    if rest.Some? then Some([p] + rest.value) else None
  }

  /** None is the driver's error for a percent sign that starts no placeholder. */
  function ReadPercent(t: string): Option<seq<Piece>>
    decreases |t|
  {
    if t == "" then Some([])
    else if t[0] != '%' then Cons(Char(t[0]), ReadPercent(t[1..]))
    else if |t| == 1 then None
    else if t[1] == '%' then Cons(Char('%'), ReadPercent(t[2..]))
    else if t[1] == 's' then Cons(Positional, ReadPercent(t[2..]))
    else if t[1] == '(' then
      var i := IndexOf(t[2..], ')');
      if 0 < i && i + 3 < |t| && t[i + 3] == 's' then Cons(Named(t[2..i + 2]), ReadPercent(t[i + 4..])) else None
    else None
  }

  // ----- both as pieces -----

  function Print(p: Piece): string {
    match p
    case Char(c) => [c]
    case Named(name) => "%(" + name + ")s"
    case Positional => "%s"
  }

  function PrintAll(ps: seq<Piece>): string {
    if ps == [] then "" else Print(ps[0]) + PrintAll(ps[1..])
  }

  predicate WellNamed(ps: seq<Piece>) {
    forall p :: p in ps && p.Named? ==> p.name != "" && forall k :: 0 <= k < |p.name| ==> IsWord(p.name[k])
  }

  lemma {:induction false} RewriteNamedPrints(s: string)
    ensures RewriteNamed(s) == PrintAll(ReadNamed(s)) && WellNamed(ReadNamed(s))
    decreases |s|
  {
    if s != "" {
      var n := WordLength(s[1..]);
      var step := if s[0] == ':' && n > 0 then 1 + n else 1;
      RewriteNamedPrints(s[step..]);
      assert ReadNamed(s)[1..] == ReadNamed(s[step..]);
    }
  }

  /** Digits, upper case letters, the underscore and lower case letters, by their ASCII codes. */
  predicate IsNameCode(c: int) {
    48 <= c < 58 || 65 <= c < 91 || c == 95 || 97 <= c < 123
  }

  predicate IsNameText(s: string) {
    forall k :: 0 <= k < |s| ==> IsNameCode(s[k] as int)
  }

  lemma WordLengthOf(name: string, rest: string)
    requires IsNameText(name) && (rest == "" || !IsNameCode(rest[0] as int))
    ensures WordLength(name + rest) == |name|
  {
    var n := WordLength(name + rest);
    assert n < |name| ==> IsNameCode((name + rest)[n] as int);
    if rest != "" {
      assert (name + rest)[|name|] == rest[0];
    }
  }

  /** A whole name behind a colon becomes one placeholder, and what follows is rewritten on its own. */
  lemma NameIsRewritten(name: string, rest: string)
    requires name != "" && IsNameText(name) && (rest == "" || !IsNameCode(rest[0] as int))
    ensures RewriteNamed(":" + name + rest) == "%(" + name + ")s" + RewriteNamed(rest)
  {
    var s := ":" + name + rest;
    assert s[1..] == name + rest;
    WordLengthOf(name, rest);
    assert s[1..1 + |name|] == name && s[1 + |name|..] == rest;
  }

  /** Text without a colon, or without a question mark, stays as it is. */
  lemma {:induction false} OtherTextStays(s: string)
    ensures (forall k :: 0 <= k < |s| ==> s[k] != ':') ==> RewriteNamed(s) == s
    ensures (forall k :: 0 <= k < |s| ==> s[k] != '?') ==> RewritePositional(s) == s
    decreases |s|
  {
    if s != "" {
      OtherTextStays(s[1..]);
      assert s == [s[0]] + s[1..];
    }
  }

  lemma {:induction false} RewritePositionalPrints(s: string)
    ensures RewritePositional(s) == PrintAll(ReadPositional(s)) && WellNamed(ReadPositional(s))
  {
    if s != "" {
      RewritePositionalPrints(s[1..]);
      assert ReadPositional(s)[1..] == ReadPositional(s[1..]);
    }
  }

  lemma ReadsChar(c: char, rest: string)
    requires c != '%'
    ensures ReadPercent([c] + rest) == Cons(Char(c), ReadPercent(rest))
  {
    assert ([c] + rest)[1..] == rest;
  }

  lemma ReadsPositional(rest: string)
    ensures ReadPercent("%s" + rest) == Cons(Positional, ReadPercent(rest))
  {
    assert ("%s" + rest)[2..] == rest;
  }

  lemma ReadsName(name: string, rest: string)
    requires name != "" && forall k :: 0 <= k < |name| ==> IsWord(name[k])
    ensures ReadPercent("%(" + name + ")s" + rest) == Cons(Named(name), ReadPercent(rest))
  {
    var t := "%(" + name + ")s" + rest;
    var i := IndexOf(t[2..], ')');
    assert t[2..] == name + ")s" + rest;
    assert t[2..][|name|] == ')' && forall k :: 0 <= k < |name| ==> t[2..][k] == name[k];
    assert t[2..i + 2] == name && t[i + 4..] == rest;
  }

  /** Reading inverts printing for pieces without a percent sign. */
  lemma {:induction false} ReadAfterPrint(ps: seq<Piece>)
    requires WellNamed(ps) && Char('%') !in ps
    ensures ReadPercent(PrintAll(ps)) == Some(ps)
  {
    if ps != [] {
      var rest := PrintAll(ps[1..]);
      assert ps[0] in ps && ps == [ps[0]] + ps[1..];
      ReadAfterPrint(ps[1..]);
      ReadsFirst(ps[0], rest);
    }
  }

  lemma ReadsFirst(p: Piece, rest: string)
    requires p != Char('%') && WellNamed([p])
    ensures ReadPercent(Print(p) + rest) == Cons(p, ReadPercent(rest))
  {
    assert p in [p];
    match p
    case Char(c) => ReadsChar(c, rest);
    case Named(name) => ReadsName(name, rest);
    case Positional => ReadsPositional(rest);
  }

  // ----- a percent sign spoils the meaning -----

  function Percents(n: nat): seq<Piece> {
    seq(n, _ => Char('%'))
  }

  /** A percent sign escapes a second one, and otherwise never stands for itself. */
  lemma ReadsPercent(u: string)
    ensures u == "" ==> ReadPercent("%" + u).None?
    ensures u != "" && u[0] == '%' ==> ReadPercent("%" + u) == Cons(Char('%'), ReadPercent(u[1..]))
    ensures u != "" && u[0] != '%' && ReadPercent("%" + u).Some? ==>
              ReadPercent("%" + u).value != [] && ReadPercent("%" + u).value[0] != Char('%')
  {
    if u != "" {
      assert ("%" + u)[2..] == u[1..];
    }
  }

  /** The driver reads too few percent signs, and never makes up for it. */
  lemma {:induction false} PercentsAreLost(ps: seq<Piece>, n: nat)
    requires WellNamed(ps) && (n > 0 || (ps != [] && ps[0] == Char('%')))
    ensures ReadPercent(PrintAll(ps)) != Some(Percents(n) + ps)
    decreases |ps|
  {
    if ps == [] {
    } else if ps[0] != Char('%') {
      OtherPieceComesFirst(ps, n);
    } else if |ps| > 1 && !ps[1].Char? {
      ParameterIsLost(ps, n);
    } else if |ps| > 1 && ps[1] == Char('%') {
      var u := PrintAll(ps[1..]);
      ReadsPercent(u);
      assert u[1..] == PrintAll(ps[2..]);
      assert (Percents(n) + ps)[1..] == Percents(n + 1) + ps[2..];
      PercentsAreLost(ps[2..], n + 1);
    } else {
      LonePercentIsLost(ps, n);
    }
  }

  lemma OtherPieceComesFirst(ps: seq<Piece>, n: nat)
    requires WellNamed(ps) && n > 0 && ps != [] && ps[0] != Char('%')
    ensures ReadPercent(PrintAll(ps)) != Some(Percents(n) + ps)
  {
    assert WellNamed([ps[0]]);
    ReadsFirst(ps[0], PrintAll(ps[1..]));
    assert (Percents(n) + ps)[0] == Char('%');
  }

  lemma LonePercentIsLost(ps: seq<Piece>, n: nat)
    requires ps != [] && ps[0] == Char('%') && (|ps| > 1 ==> ps[1].Char? && ps[1].c != '%')
    ensures ReadPercent(PrintAll(ps)) != Some(Percents(n) + ps)
  {
    ReadsPercent(PrintAll(ps[1..]));
    assert (Percents(n) + ps)[0] == Char('%');
  }

  lemma ParameterIsLost(ps: seq<Piece>, n: nat)
    requires |ps| > 1 && ps[0] == Char('%') && !ps[1].Char?
    ensures ReadPercent(PrintAll(ps)) != Some(Percents(n) + ps)
  {
    var u := PrintAll(ps[1..]);
    assert u == Print(ps[1]) + PrintAll(ps[1..][1..]);
    ReadsPercent(u);
    SecondIsChar(ps[1], PrintAll(ps[1..][1..]));
    assert (Percents(n) + ps)[1] == if n == 0 then ps[1] else Char('%');
  }

  /** What a parameter is printed as loses its meaning behind a percent sign. */
  lemma SecondIsChar(p: Piece, rest: string)
    requires !p.Char?
    ensures var u := Print(p) + rest;
            u[0] == '%' && (ReadPercent(u[1..]).Some? ==>
              ReadPercent(u[1..]).value[0] == Char(if p.Named? then '(' else 's'))
  {
  }

  /** Exactly without a percent sign the driver reads what was meant. */
  lemma {:induction false} ReadBackExact(ps: seq<Piece>)
    requires WellNamed(ps)
    ensures ReadPercent(PrintAll(ps)) == Some(ps) <==> Char('%') !in ps
  {
    if Char('%') !in ps {
      ReadAfterPrint(ps);
    } else if ps[0] == Char('%') {
      PercentsAreLost(ps, 0);
      assert Percents(0) + ps == ps;
    } else {
      assert ps == [ps[0]] + ps[1..];
      ReadBackExact(ps[1..]);
      assert WellNamed([ps[0]]);
      ReadsFirst(ps[0], PrintAll(ps[1..]));
    }
  }

  lemma {:induction false} ReadKeepsPercents(s: string, named: bool)
    ensures Char('%') in Read(s, named) <==> '%' in s
    decreases |s|
  {
    if s != "" {
      var n := WordLength(s[1..]);
      var step := if named && s[0] == ':' && n > 0 then 1 + n else 1;
      ReadKeepsPercents(s[step..], named);
      assert s == s[..step] + s[step..];
      assert Read(s, named) == [Read(s, named)[0]] + Read(s[step..], named);
      assert '%' in s[..step] <==> s[0] == '%' by {
        assert forall k :: 1 <= k < step ==> s[k] == s[1..][k - 1] && IsWord(s[1..][k - 1]);
      }
    }
  }

  /** Rewriting keeps the meaning of every statement without a percent sign, and of no other. */
  lemma RewritingKeepsMeaning(s: string, named: bool)
    ensures ReadPercent(PrepareSql(s, named)) == Some(Read(s, named)) <==> '%' !in s
  {
    RewriteNamedPrints(s);
    RewritePositionalPrints(s);
    ReadBackExact(Read(s, named));
    ReadKeepsPercents(s, named);
  }

  /** A name is never cut short: `:task` does not claim the start of `:task_id`. */
  lemma {:induction false} NamesAreWhole(s: string, i: nat)
    requires i + 1 < |ReadNamed(s)| && ReadNamed(s)[i].Named?
    ensures ReadNamed(s)[i + 1].Char? ==> !IsWord(ReadNamed(s)[i + 1].c)
    decreases |s|
  {
    var n := WordLength(s[1..]);
    var step := if s[0] == ':' && n > 0 then 1 + n else 1;
    assert ReadNamed(s)[1..] == ReadNamed(s[step..]);
    if i > 0 {
      NamesAreWhole(s[step..], i - 1);
    } else {
      assert s[step..] != "" && s[step] == s[1..][n];
    }
  }
}
