/**
 Artifact file names, `<family>_v<major>.<minor>.<patch>_<precision>.onnx`: the matcher, the grammar
 it decides, and why a name has only one reading although a family may itself contain "_v".
 Names are ASCII.
 */
module ArtifactNames {
  import opened Prelude
  import opened Text

  datatype Artifact = Artifact(family: string, version: string, precision: string)

  // ----- the matcher -----

  predicate IsDigit(c: char) {
    '0' <= c <= '9'
  }

  predicate IsFamilyStart(c: char) {
    IsDigit(c) || 'a' <= c <= 'z'
  }

  predicate AllDigits(s: string) {
    forall i :: 0 <= i < |s| ==> IsDigit(s[i])
  }

  /** `0|[1-9]\d*` */
  predicate IsNumeral(s: string) {
    s != "" && AllDigits(s) && (s[0] == '0' ==> |s| == 1)
  }

  /** `[a-z0-9][a-z0-9_]*` */
  predicate IsFamily(s: string) {
    s != "" && IsFamilyStart(s[0]) && forall i :: 0 <= i < |s| ==> IsFamilyStart(s[i]) || s[i] == '_'
  }

  /** Families are made from one lower-case letter or digit by appending such characters and underscores. */
  lemma FamiliesAreGenerated(s: string, c: char)
    ensures !IsFamily("")
    ensures IsFamily([c]) <==> '0' <= c <= '9' || 'a' <= c <= 'z'
    ensures s != "" ==> (IsFamily(s + [c]) <==> IsFamily(s) && ('0' <= c <= '9' || 'a' <= c <= 'z' || c == '_'))
  {
    if s != "" {
      assert (s + [c])[|s|] == c && s == (s + [c])[..|s|];
      if IsFamily(s + [c]) {
        forall i | 0 <= i < |s| ensures IsFamilyStart(s[i]) || s[i] == '_' {
          assert (s + [c])[i] == s[i];
        }
      }
    }
  }

  predicate IsPrecision(s: string) {
    s == "fp32" || s == "fp16" || s == "int8"
  }

  predicate MatchesVersion(s: string) {
    var i := IndexOf(s, '.');
    && i < |s| && IsNumeral(s[..i])
    && var rest := s[i + 1..];
       var j := IndexOf(rest, '.');
       j < |rest| && IsNumeral(rest[..j]) && IsNumeral(rest[j + 1..])
  }

  /** Everything after the family. */
  function MatchSuffix(t: string): Option<(string, string)> {
    if |t| >= 2 && t[0] == '_' && t[1] == 'v' then
      var r := t[2..];
      var i := IndexOf(r, '_');
      if i < |r| && MatchesVersion(r[..i]) && |r| == i + 10 && IsPrecision(r[i + 1..i + 5]) && r[i + 5..] == ".onnx"
      then Some((r[..i], r[i + 1..i + 5])) else None
    else None
  }

  type SuffixMatcher = string -> Option<(string, string)>

  /** The lazy family grows until what follows it matches. */
  function FirstMatch(m: SuffixMatcher, s: string, k: nat): Option<Artifact>
    requires k <= |s|
    decreases |s| - k
  {
    var suffix := m(s[k..]);
    if IsFamily(s[..k]) && suffix.Some? then Some(Artifact(s[..k], suffix.value.0, suffix.value.1))
    else if k < |s| then FirstMatch(m, s, k + 1)
    else None
  }

  /** A regex `$` also matches before a newline at the very end. */
  function BeforeFinalNewline(s: string): string {
    if s != "" && s[|s| - 1] == '\n' then s[..|s| - 1] else s
  }

  /** None is the ValueError. */
  function ParseArtifactName(s: string): Option<Artifact> {
    FirstMatch(MatchSuffix, BeforeFinalNewline(s), 0)
  }

  predicate IsSemver(s: string) {
    MatchesVersion(BeforeFinalNewline(s))
  }

  function RemoveSuffix(s: string, suffix: string): string {
    if |suffix| <= |s| && s[|s| - |suffix|..] == suffix then s[..|s| - |suffix|] else s
  }

  function Stem(filename: string): string {
    RemoveSuffix(filename, ".onnx")
  }

  /** How a model card derives the model name from the parsed artifact. */
  function ModelName(filename: string, a: Artifact): string {
    RemoveSuffix(Stem(filename), "_v" + a.version + "_" + a.precision)
  }

  // ----- the grammar -----

  /** The canonical decimal numeral of a natural number. */
  function Decimal(n: nat): (s: string)
    ensures |s| > 0
  {
    if n < 10 then ['0' + n as char] else Decimal(n / 10) + ['0' + (n % 10) as char]
  }

  function VersionOf(major: nat, minor: nat, patch: nat): string {
    Decimal(major) + "." + Decimal(minor) + "." + Decimal(patch)
  }

  ghost predicate IsVersion(s: string) {
    exists a, b, c :: s == VersionOf(a, b, c)
  }

  ghost predicate WellFormed(a: Artifact) {
    IsFamily(a.family) && IsVersion(a.version) && IsPrecision(a.precision)
  }

  function Printed(a: Artifact): string {
    a.family + "_v" + a.version + "_" + a.precision + ".onnx"
  }

  // ----- numerals and versions -----

  function Value(s: string): nat
    requires AllDigits(s)
  {
    if s == "" then 0 else 10 * Value(s[..|s| - 1]) + (s[|s| - 1] - '0') as nat
  }

  lemma {:induction false} DecimalIsNumeral(n: nat)
    ensures IsNumeral(Decimal(n)) && Value(Decimal(n)) == n && (Decimal(n)[0] == '0' <==> n == 0)
    decreases n
  {
    var s := Decimal(n);
    if n >= 10 {
      DecimalIsNumeral(n / 10);
      assert s[..|s| - 1] == Decimal(n / 10) && s[0] == Decimal(n / 10)[0];
    } else {
      assert s[..|s| - 1] == "" && Value("") == 0;
    }
  }

  lemma {:induction false} NumeralIsDecimal(s: string)
    requires IsNumeral(s)
    ensures Decimal(Value(s)) == s && (s[0] != '0' ==> Value(s) > 0)
    decreases |s|
  {
    var init, d := s[..|s| - 1], (s[|s| - 1] - '0') as nat;
    assert s == init + ['0' + d as char];
    if init != "" {
      NumeralIsDecimal(init);
      assert Value(s) / 10 == Value(init) && Value(s) % 10 == d;
    } else {
      assert Value(init) == 0;
    }
  }

  lemma IndexOfConcat(a: string, c: char, b: string)
    requires forall i :: 0 <= i < |a| ==> a[i] != c
    ensures IndexOf(a + [c] + b, c) == |a|
  {
    var s := a + [c] + b;
    assert s[|a|] == c && forall k :: 0 <= k < |a| ==> s[k] == a[k];
  }

  lemma NumeralsMakeVersion(x: string, y: string, z: string)
    requires IsNumeral(x) && IsNumeral(y) && IsNumeral(z)
    ensures MatchesVersion(x + "." + y + "." + z)
  {
    var s, rest := x + "." + y + "." + z, y + "." + z;
    assert s == x + ['.'] + rest && rest == y + ['.'] + z;
    IndexOfConcat(x, '.', rest);
    IndexOfConcat(y, '.', z);
    assert s[..|x|] == x && s[|x| + 1..] == rest && rest[..|y|] == y && rest[|y| + 1..] == z;
  }

  lemma VersionParts(s: string) returns (x: string, y: string, z: string)
    requires MatchesVersion(s)
    ensures IsNumeral(x) && IsNumeral(y) && IsNumeral(z) && s == x + "." + y + "." + z
  {
    var i := IndexOf(s, '.');
    var rest := s[i + 1..];
    var j := IndexOf(rest, '.');
    x, y, z := s[..i], rest[..j], rest[j + 1..];
    SplitAt(s, i);
    SplitAt(rest, j);
    AssociateThree(x, ".", y, ".", z);
  }

  lemma SplitAt(s: string, i: nat)
    requires i < |s|
    ensures s == s[..i] + ([s[i]] + s[i + 1..])
  {}

  lemma AssociateThree(x: string, c: string, y: string, d: string, z: string)
    ensures x + c + y + d + z == x + (c + (y + (d + z)))
  {}

  /** Matched versions are exactly the canonical decimal prints of three naturals. */
  lemma VersionsAreTriples(s: string)
    ensures MatchesVersion(s) <==> IsVersion(s)
  {
    if MatchesVersion(s) {
      var x, y, z := VersionParts(s);
      NumeralIsDecimal(x);
      NumeralIsDecimal(y);
      NumeralIsDecimal(z);
      assert s == VersionOf(Value(x), Value(y), Value(z));
    } else if IsVersion(s) {
      var a, b, c :| s == VersionOf(a, b, c);
      DecimalIsNumeral(a);
      DecimalIsNumeral(b);
      DecimalIsNumeral(c);
      NumeralsMakeVersion(Decimal(a), Decimal(b), Decimal(c));
    }
  }

  /** Text before the first occurrence of a character is determined, and so is the rest. */
  lemma SplitIsUnique(x: string, c: char, y: string, x': string, y': string)
    requires x + [c] + y == x' + [c] + y'
    requires (forall i :: 0 <= i < |x| ==> x[i] != c) && (forall i :: 0 <= i < |x'| ==> x'[i] != c)
    ensures x == x' && y == y'
  {
    IndexOfConcat(x, c, y);
    IndexOfConcat(x', c, y');
    var s := x + [c] + y;
    assert x == s[..|x|] && y == s[|x| + 1..];
    assert x' == s[..|x'|] && y' == s[|x'| + 1..];
  }

  /** And a version determines its three numbers. */
  lemma VersionsAreUnambiguous(a: nat, b: nat, c: nat, a': nat, b': nat, c': nat)
    requires VersionOf(a, b, c) == VersionOf(a', b', c')
    ensures a == a' && b == b' && c == c'
  {
    DecimalIsNumeral(a); DecimalIsNumeral(b); DecimalIsNumeral(c);
    DecimalIsNumeral(a'); DecimalIsNumeral(b'); DecimalIsNumeral(c');
    PartsAreUnique(Decimal(a), Decimal(b), Decimal(c), Decimal(a'), Decimal(b'), Decimal(c'));
  }

  lemma PartsAreUnique(x: string, y: string, z: string, x': string, y': string, z': string)
    requires x + "." + y + "." + z == x' + "." + y' + "." + z'
    requires AllDigits(x) && AllDigits(y) && AllDigits(x') && AllDigits(y')
    ensures x == x' && y == y' && z == z'
  {
    var rest, rest' := y + ['.'] + z, y' + ['.'] + z';
    assert x + "." + y + "." + z == x + ['.'] + rest;
    assert x' + "." + y' + "." + z' == x' + ['.'] + rest';
    SplitIsUnique(x, '.', rest, x', rest');
    SplitIsUnique(y, '.', z, y', z');
  }

  lemma VersionChars(s: string)
    requires MatchesVersion(s)
    ensures forall k :: 0 <= k < |s| ==> IsDigit(s[k]) || s[k] == '.'
  {
    var i := IndexOf(s, '.');
    var rest := s[i + 1..];
    var j := IndexOf(rest, '.');
    forall k | 0 <= k < |s| ensures IsDigit(s[k]) || s[k] == '.' {
      if k < i {
        assert s[k] == s[..i][k];
      } else if i < k < i + 1 + j {
        assert s[k] == rest[..j][k - i - 1];
      } else if k > i + 1 + j {
        assert s[k] == rest[j + 1..][k - i - 1 - j - 1];
      }
    }
  }

  // ----- names -----

  /** The three fixed-width ends of a name. */
  lemma PrintedParts(a: Artifact)
    requires IsPrecision(a.precision)
    ensures var s := Printed(a);
            |s| >= 12 && s[..|s| - 10] == a.family + "_v" + a.version && s[|s| - 9..|s| - 5] == a.precision
  {
    var core := a.family + "_v" + a.version;
    assert Printed(a) == core + ("_" + a.precision + ".onnx");
  }

  lemma NoVInVersion(f: string, v: string, f': string, v': string)
    requires f + "_v" + v == f' + "_v" + v' && MatchesVersion(v')
    ensures |v'| <= |v|
  {
    VersionChars(v');
    var core := f + "_v" + v;
    assert core[|core| - |v| - 1] == 'v';
    forall q | |core| - |v'| <= q < |core| ensures IsDigit(core[q]) || core[q] == '.' {
      assert core[q] == v'[q - (|core| - |v'|)];
    }
  }

  lemma CoresAreUnambiguous(f: string, v: string, f': string, v': string)
    requires f + "_v" + v == f' + "_v" + v' && MatchesVersion(v) && MatchesVersion(v')
    ensures f == f' && v == v'
  {
    NoVInVersion(f, v, f', v');
    NoVInVersion(f', v', f, v);
    var core := f + "_v" + v;
    assert v == core[|core| - |v|..] && f == core[..|core| - |v| - 2];
    assert v' == core[|core| - |v'|..] && f' == core[..|core| - |v'| - 2];
  }

  /** Two readings of one name agree: only the last "_v" that is followed by digits and dots can start the version. */
  lemma NamesAreUnambiguous(a: Artifact, b: Artifact)
    requires WellFormed(a) && WellFormed(b) && Printed(a) == Printed(b)
    ensures a == b
  {
    VersionsAreTriples(a.version);
    VersionsAreTriples(b.version);
    PrintedParts(a);
    PrintedParts(b);
    CoresAreUnambiguous(a.family, a.version, b.family, b.version);
  }

  lemma SuffixIsSound(t: string)
    requires MatchSuffix(t).Some?
    ensures var (version, precision) := MatchSuffix(t).value;
            MatchesVersion(version) && IsPrecision(precision) && t == "_v" + version + "_" + precision + ".onnx"
  {
    var r := t[2..];
    assert t == [t[0], t[1]] + r && "_v" == [t[0], t[1]];
    Reassemble(r, IndexOf(r, '_'));
  }

  lemma Reassemble(r: string, i: nat)
    requires i + 10 == |r| && r[i] == '_' && r[i + 5..] == ".onnx"
    ensures "_v" + r == "_v" + r[..i] + "_" + r[i + 1..i + 5] + ".onnx"
  {
    SplitAt(r, i);
    assert r[i + 1..] == r[i + 1..i + 5] + r[i + 5..];
    AssociateThree("_v", r[..i], "_", r[i + 1..i + 5], ".onnx");
  }

  lemma {:induction false} FirstMatchIsSound(m: SuffixMatcher, s: string, k: nat)
    requires k <= |s| && FirstMatch(m, s, k).Some?
    ensures var a := FirstMatch(m, s, k).value;
            && |a.family| <= |s| && a.family == s[..|a.family|] && IsFamily(a.family)
            && m(s[|a.family|..]) == Some((a.version, a.precision))
    decreases |s| - k
  {
    if !(IsFamily(s[..k]) && m(s[k..]).Some?) {
      FirstMatchIsSound(m, s, k + 1);
    }
  }

  lemma {:induction false} FirstMatchIsComplete(m: SuffixMatcher, s: string, k: nat, j: nat)
    requires k <= j <= |s| && IsFamily(s[..j]) && m(s[j..]).Some?
    ensures FirstMatch(m, s, k).Some?
    decreases j - k
  {
    if k < j {
      FirstMatchIsComplete(m, s, k + 1, j);
    }
  }

  lemma MatchIsSound(s: string)
    requires FirstMatch(MatchSuffix, s, 0).Some?
    ensures WellFormed(FirstMatch(MatchSuffix, s, 0).value) && Printed(FirstMatch(MatchSuffix, s, 0).value) == s
  {
    FirstMatchIsSound(MatchSuffix, s, 0);
    AcceptedIsPrinted(FirstMatch(MatchSuffix, s, 0).value, s);
  }

  lemma AcceptedIsPrinted(a: Artifact, s: string)
    requires |a.family| <= |s| && a.family == s[..|a.family|] && IsFamily(a.family)
    requires MatchSuffix(s[|a.family|..]) == Some((a.version, a.precision))
    ensures WellFormed(a) && Printed(a) == s
  {
    SuffixIsSound(s[|a.family|..]);
    VersionsAreTriples(a.version);
    PrintedFromCut(a, s);
  }

  lemma PrintedFromCut(a: Artifact, s: string)
    requires |a.family| <= |s| && a.family == s[..|a.family|]
    requires s[|a.family|..] == "_v" + a.version + "_" + a.precision + ".onnx"
    ensures Printed(a) == s
  {
    assert s == s[..|a.family|] + s[|a.family|..];
    Associate(a.family, a.version, a.precision);
  }

  lemma Associate(f: string, v: string, p: string)
    ensures f + "_v" + v + "_" + p + ".onnx" == f + ("_v" + v + "_" + p + ".onnx")
  {}

  lemma SuffixMatches(a: Artifact)
    requires WellFormed(a)
    ensures MatchSuffix("_v" + a.version + "_" + a.precision + ".onnx") == Some((a.version, a.precision))
  {
    VersionsAreTriples(a.version);
    SuffixPartsMatch(a.version, a.precision);
  }

  lemma SuffixPartsMatch(v: string, p: string)
    requires MatchesVersion(v) && IsPrecision(p)
    ensures MatchSuffix("_v" + v + "_" + p + ".onnx") == Some((v, p))
  {
    AssociateThree("_v", v, "_", p, ".onnx");
    RestMatches(v, p, v + ("_" + (p + ".onnx")));
  }

  lemma RestMatches(v: string, p: string, r: string)
    requires MatchesVersion(v) && IsPrecision(p) && r == v + ("_" + (p + ".onnx"))
    ensures MatchSuffix("_v" + r) == Some((v, p))
  {
    VersionChars(v);
    UnderscoreFirst(v, p + ".onnx");
    TailSlices(v, p);
    CutFamily("_v", r);
    MatchesWhenCut("_v" + r, r, |v|);
  }

  lemma UnderscoreFirst(v: string, rest: string)
    requires forall k :: 0 <= k < |v| ==> IsDigit(v[k]) || v[k] == '.'
    ensures IndexOf(v + ("_" + rest), '_') == |v|
  {
    assert v + ("_" + rest) == v + ['_'] + rest;
    IndexOfConcat(v, '_', rest);
  }

  lemma MatchesWhenCut(t: string, r: string, i: nat)
    requires |t| >= 2 && t[0] == '_' && t[1] == 'v' && t[2..] == r && IndexOf(r, '_') == i && |r| == i + 10
    requires MatchesVersion(r[..i]) && IsPrecision(r[i + 1..i + 5]) && r[i + 5..] == ".onnx"
    ensures MatchSuffix(t) == Some((r[..i], r[i + 1..i + 5]))
  {}

  lemma TailSlices(v: string, p: string)
    requires |p| == 4
    ensures var r := v + ("_" + (p + ".onnx"));
            |r| == |v| + 10 && r[..|v|] == v && r[|v| + 1..|v| + 5] == p && r[|v| + 5..] == ".onnx"
  {}

  lemma MatchIsComplete(a: Artifact)
    requires WellFormed(a)
    ensures FirstMatch(MatchSuffix, Printed(a), 0).Some?
  {
    SuffixMatches(a);
    Associate(a.family, a.version, a.precision);
    CutFamily(a.family, "_v" + a.version + "_" + a.precision + ".onnx");
    FirstMatchIsComplete(MatchSuffix, Printed(a), 0, |a.family|);
  }

  lemma CutFamily(f: string, t: string)
    ensures (f + t)[..|f|] == f && (f + t)[|f|..] == t
  {}

  predicate EndsInNewline(s: string) {
    s != "" && s[|s| - 1] == '\n'
  }

  /** Parsing inverts printing. */
  lemma ParseAfterPrint(a: Artifact)
    requires WellFormed(a)
    ensures ParseArtifactName(Printed(a)) == Some(a)
  {
    MatchIsComplete(a);
    MatchIsSound(Printed(a));
    NamesAreUnambiguous(a, FirstMatch(MatchSuffix, Printed(a), 0).value);
    var s := Printed(a);
    assert s[|s| - 1] == ".onnx"[4];
  }

  /** Printing inverts parsing, and parsing succeeds exactly on printed names, unless a newline trails. */
  lemma ParseExact(s: string)
    ensures (exists a :: WellFormed(a) && s == Printed(a)) <==> ParseArtifactName(s).Some? && !EndsInNewline(s)
    ensures ParseArtifactName(s).Some? ==>
              WellFormed(ParseArtifactName(s).value) && BeforeFinalNewline(s) == Printed(ParseArtifactName(s).value)
  {
    if ParseArtifactName(s).Some? {
      MatchIsSound(BeforeFinalNewline(s));
    }
    if a :| WellFormed(a) && s == Printed(a) {
      ParseAfterPrint(a);
      assert s[|s| - 1] == ".onnx"[4];
    }
  }

  lemma StripsBoth(a: Artifact)
    requires IsPrecision(a.precision)
    ensures ModelName(Printed(a), a) == a.family
  {
    var suffix := "_v" + a.version + "_" + a.precision;
    var stem := a.family + suffix;
    assert Printed(a) == stem + ".onnx";
    assert Stem(Printed(a)) == stem;
    assert stem[|stem| - |suffix|..] == suffix;
  }

  lemma StripsNothing(s: string, a: Artifact)
    requires EndsInNewline(s) && IsPrecision(a.precision)
    ensures ModelName(s, a) == s
  {
    if |s| >= 5 {
      assert s[|s| - 5..][4] == '\n' && ".onnx"[4] == 'x';
    }
    assert Stem(s) == s;
    var suffix := "_v" + a.version + "_" + a.precision;
    assert suffix[|suffix| - 1] == a.precision[3];
    if |suffix| <= |s| {
      assert s[|s| - |suffix|..][|suffix| - 1] == '\n';
    }
  }

  /** Stripping the suffixes from the file name gives back the family, unless a newline trails. */
  lemma ModelNameIsFamily(s: string)
    requires ParseArtifactName(s).Some?
    ensures ModelName(s, ParseArtifactName(s).value) == ParseArtifactName(s).value.family <==> !EndsInNewline(s)
  {
    ParseExact(s);
    var a := ParseArtifactName(s).value;
    PrintedParts(a);
    if EndsInNewline(s) {
      StripsNothing(s, a);
      assert |s| > |a.family|;
    } else {
      StripsBoth(a);
    }
  }

  /** The card's version check accepts every parsed version. */
  lemma ParsedVersionIsSemver(s: string)
    requires ParseArtifactName(s).Some?
    ensures IsSemver(ParseArtifactName(s).value.version)
  {
    ParseExact(s);
    var v := ParseArtifactName(s).value.version;
    VersionsAreTriples(v);
    VersionChars(v);
  }
}
