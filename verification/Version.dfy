/** Parsing and printing of `MAJOR.MINOR.PATCH[-pre][+build]`. */
module Version {
  import opened Basics
  import opened Text

  datatype Version = Version(major: nat, minor: nat, patch: nat, pre: Option<string>, build: Option<string>)

  // ----- numerals -----

  /** The code points at which a block of ten decimal digits other than ASCII begins. */
  const DIGIT_ZEROS: seq<nat> := [0x660, 0x6F0] + OTHER_ZEROS
  const OTHER_ZEROS: seq<nat> := [
    0x7C0, 0x966, 0x9E6, 0xA66, 0xAE6, 0xB66, 0xBE6, 0xC66, 0xCE6, 0xD66, 0xDE6, 0xE50, 0xED0, 0xF20,
    0x1040, 0x1090, 0x17E0, 0x1810, 0x1946, 0x19D0, 0x1A80, 0x1A90, 0x1B50, 0x1BB0, 0x1C40, 0x1C50, 0xA620, 0xA8D0,
    0xA900, 0xA9D0, 0xA9F0, 0xAA50, 0xABF0, 0xFF10, 0x104A0, 0x10D30, 0x11066, 0x110F0, 0x11136, 0x111D0, 0x112F0,
    0x11450, 0x114D0, 0x11650, 0x116C0, 0x11730, 0x118E0, 0x11950, 0x11C50, 0x11D50, 0x11DA0, 0x16A60, 0x16AC0,
    0x16B50, 0x1D7CE, 0x1D7D8, 0x1D7E2, 0x1D7EC, 0x1D7F6, 0x1E140, 0x1E2F0, 0x1E950, 0x1FBF0]

  function BlockDigit(n: nat, zeros: seq<nat>): (d: Option<nat>)
    ensures d.Some? ==> d.value < 10
  {
    if zeros == [] then None
    else if zeros[0] <= n < zeros[0] + 10 then Some(n - zeros[0])
    else BlockDigit(n, zeros[1..])
  }

  /** The value of a character matched by `\d`; the pattern is not restricted to ASCII. */
  function DigitValue(c: char): (d: Option<nat>)
    ensures d.Some? ==> d.value < 10
  {
    if IsDigit(c) then Some(c as int - '0' as int)
    else if c < 128 as char then None
    else BlockDigit(c as int, DIGIT_ZEROS)
  }

  function DigitRun(s: string): (k: nat)
    ensures k <= |s| && forall i :: 0 <= i < k ==> DigitValue(s[i]).Some?
    ensures k < |s| ==> DigitValue(s[k]).None?
  {
    if s == "" || DigitValue(s[0]).None? then 0 else 1 + DigitRun(s[1..])
  }

  predicate Digits(s: string) { forall i :: 0 <= i < |s| ==> DigitValue(s[i]).Some? }

  function NumValue(s: string): nat
    requires Digits(s)
  {
    if s == "" then 0 else 10 * NumValue(s[..|s| - 1]) + DigitValue(s[|s| - 1]).value
  }

  /** `0|[1-9]\d*` at the front of `s`. */
  function ParseNum(s: string): (r: Option<(nat, string)>)
    ensures r.Some? ==> |r.value.1| < |s| && s[|s| - |r.value.1|..] == r.value.1
  {
    if s == "" then None
    else if s[0] == '0' then Some((0, s[1..]))
    else if '1' <= s[0] <= '9' then Some((NumValue(s[..DigitRun(s)]), s[DigitRun(s)..]))
    else None
  }

  /** A character of `[0-9A-Za-z.-]`. */
  predicate IdentChar(c: char) { IsDigit(c) || 'A' <= c <= 'Z' || 'a' <= c <= 'z' || c == '.' || c == '-' }

  predicate Ident(s: string) { s != "" && forall i :: 0 <= i < |s| ==> IdentChar(s[i]) }

  function IdentRun(s: string): (k: nat)
    ensures k <= |s| && forall i :: 0 <= i < k ==> IdentChar(s[i])
    ensures k < |s| ==> !IdentChar(s[k])
  {
    if s == "" || !IdentChar(s[0]) then 0 else 1 + IdentRun(s[1..])
  }

  // ----- the grammar -----

  function ParseBuild(s: string): Option<Option<string>> {
    if s == "" then Some(None)
    else if s[0] == '+' && Ident(s[1..]) then Some(Some(s[1..]))
    else None
  }

  function ParseTail(s: string): Option<(Option<string>, Option<string>)> {
    if s != "" && s[0] == '-' then
      var k := IdentRun(s[1..]);
      if k == 0 then None
      else match ParseBuild(s[1 + k..])
        case None => None
        case Some(build) => Some((Some(s[1..1 + k]), build))
    else match ParseBuild(s)
      case None => None
      case Some(build) => Some((None, build))
  }

  /** One numeral followed by a dot. */
  function ParseDotted(s: string): Option<(nat, string)> {
    match ParseNum(s)
    case None => None
    case Some((n, rest)) => if rest != "" && rest[0] == '.' then Some((n, rest[1..])) else None
  }

  function ParseTrimmed(s: string): Option<Version> {
    match ParseDotted(s)
    case None => None
    case Some((major, s1)) =>
      match ParseDotted(s1)
      case None => None
      case Some((minor, s2)) =>
        match ParseNum(s2)
        case None => None
        case Some((patch, s3)) =>
          match ParseTail(s3)
          case None => None
          case Some((pre, build)) => Some(Version(major, minor, patch, pre, build))
  }

  function Parse(text: string): Option<Version> { ParseTrimmed(Strip(text)) }

  function PrintBuild(build: Option<string>): string { if build.Some? then "+" + build.value else "" }

  function PrintTail(pre: Option<string>, build: Option<string>): string {
    (if pre.Some? then "-" + pre.value else "") + PrintBuild(build)
  }

  function Print(v: Version): string {
    Decimal(v.major) + "." + Decimal(v.minor) + "." + Decimal(v.patch) + PrintTail(v.pre, v.build)
  }

  /** What the grammar lets through for the two optional parts. */
  predicate WellFormed(v: Version) {
    (v.pre.Some? ==> Ident(v.pre.value)) && (v.build.Some? ==> Ident(v.build.value))
  }

  predicate Ascii(s: string) { forall i :: 0 <= i < |s| ==> s[i] < 128 as char }

  // ----- numerals round-trip -----

  lemma {:induction false} DecimalValue(n: nat)
    ensures Digits(Decimal(n)) && NumValue(Decimal(n)) == n
  {
    var s := Decimal(n);
    assert forall i :: 0 <= i < |s| ==> DigitValue(s[i]).Some?;
    if n < 10 {
      assert s[..0] == "";
    } else {
      DecimalValue(n / 10);
      assert s[..|s| - 1] == Decimal(n / 10);
    }
  }

  /** An ASCII numeral without a leading zero is the decimal of its value. */
  lemma {:induction false} ValueDecimal(s: string)
    requires s != "" && (forall i :: 0 <= i < |s| ==> IsDigit(s[i])) && s[0] != '0'
    ensures Digits(s) && NumValue(s) > 0 && Decimal(NumValue(s)) == s
    decreases |s|
  {
    assert forall i :: 0 <= i < |s| ==> DigitValue(s[i]).Some?;
    var d := DigitValue(s[|s| - 1]).value;
    if |s| == 1 {
      assert s[..0] == "";
      assert s == [s[0]];
    } else {
      var t := s[..|s| - 1];
      ValueDecimal(t);
      assert NumValue(s) / 10 == NumValue(t) && NumValue(s) % 10 == d;
      assert s == t + [s[|s| - 1]];
    }
  }

  lemma {:induction false} DigitRunOf(s: string, rest: string)
    requires Digits(s) && (rest == "" || DigitValue(rest[0]).None?)
    ensures DigitRun(s + rest) == |s|
  {
    if s == "" {
      assert s + rest == rest;
    } else {
      assert (s + rest)[1..] == s[1..] + rest;
      DigitRunOf(s[1..], rest);
    }
  }

  lemma NumPrintParse(n: nat, rest: string)
    requires rest == "" || DigitValue(rest[0]).None?
    ensures ParseNum(Decimal(n) + rest) == Some((n, rest))
  {
    var s := Decimal(n) + rest;
    DecimalValue(n);
    DigitRunOf(Decimal(n), rest);
    assert s[..|Decimal(n)|] == Decimal(n) && s[|Decimal(n)|..] == rest;
    if n > 0 {
      assert s[0] == Decimal(n)[0];
      assert IsDigit(Decimal(n)[0]);
    } else {
      assert s[1..] == rest;
    }
  }

  /** What `ParseNum` consumed, and when that is how the number prints. */
  lemma NumParsePrint(s: string)
    requires ParseNum(s).Some?
    ensures var (n, rest) := ParseNum(s).value; var num := s[..|s| - |rest|];
            && num + rest == s && num != "" && (Ascii(num) <==> num == Decimal(n))
  {
    var (n, rest) := ParseNum(s).value;
    var num := s[..|s| - |rest|];
    if s[0] == '0' {
      assert num == "0";
    } else if Ascii(num) {
      assert forall i :: 0 <= i < |num| ==> DigitValue(num[i]).Some?;
      ValueDecimal(num);
    }
  }

  lemma {:induction false} IdentRunOf(s: string, rest: string)
    requires (forall i :: 0 <= i < |s| ==> IdentChar(s[i])) && (rest == "" || !IdentChar(rest[0]))
    ensures IdentRun(s + rest) == |s|
  {
    if s == "" {
      assert s + rest == rest;
    } else {
      assert (s + rest)[1..] == s[1..] + rest;
      IdentRunOf(s[1..], rest);
    }
  }

  lemma BuildPrintParse(build: Option<string>)
    requires build.Some? ==> Ident(build.value)
    ensures ParseBuild(PrintBuild(build)) == Some(build)
    ensures PrintBuild(build) == "" || PrintBuild(build)[0] == '+'
  {
    if build.Some? { assert ("+" + build.value)[1..] == build.value; }
  }

  lemma PrePrintParse(pre: string, b: string)
    requires Ident(pre) && (b == "" || b[0] == '+') && ParseBuild(b).Some?
    ensures ParseTail("-" + (pre + b)) == Some((Some(pre), ParseBuild(b).value))
  {
    var s := "-" + (pre + b);
    assert s[1..] == pre + b;
    IdentRunOf(pre, b);
    assert s[1..1 + |pre|] == pre && s[1 + |pre|..] == b;
  }

  lemma TailPrintParse(pre: Option<string>, build: Option<string>)
    requires (pre.Some? ==> Ident(pre.value)) && (build.Some? ==> Ident(build.value))
    ensures ParseTail(PrintTail(pre, build)) == Some((pre, build))
  {
    hide Ident, ParseTail, ParseBuild, PrintBuild;
    var b := PrintBuild(build);
    BuildPrintParse(build);
    if pre.Some? {
      PrePrintParse(pre.value, b);
      assert PrintTail(pre, build) == "-" + (pre.value + b);
    } else {
      NoPreParse(b);
      assert PrintTail(pre, build) == "" + b == b;
    }
  }

  lemma NoPreParse(b: string)
    requires (b == "" || b[0] == '+') && ParseBuild(b).Some?
    ensures ParseTail(b) == Some((None, ParseBuild(b).value))
  {
    hide ParseBuild;
  }

  lemma BuildParsePrint(s: string)
    requires ParseBuild(s).Some?
    ensures var build := ParseBuild(s).value;
      PrintBuild(build) == s && Ascii(s) && (build.Some? ==> Ident(build.value))
  {
    if s != "" { assert s == "+" + s[1..]; }
  }

  lemma AsciiJoin(a: string, b: string)
    requires Ascii(a) && Ascii(b)
    ensures Ascii(a + b)
  {
  }

  lemma TailParsePrint(s: string)
    requires ParseTail(s).Some?
    ensures var (pre, build) := ParseTail(s).value;
            && PrintTail(pre, build) == s && Ascii(s)
            && (pre.Some? ==> Ident(pre.value)) && (build.Some? ==> Ident(build.value))
  {
    if s != "" && s[0] == '-' {
      var k := IdentRun(s[1..]);
      var head, t := s[..1 + k], s[1 + k..];
      BuildParsePrint(t);
      assert s == head + t && head == "-" + s[1..1 + k];
      assert Ident(s[1..1 + k]);
      AsciiJoin(head, t);
    } else {
      BuildParsePrint(s);
    }
  }

  // ----- the promises -----

  lemma DottedPrintParse(n: nat, rest: string)
    ensures ParseDotted(Decimal(n) + "." + rest) == Some((n, rest))
  {
    NumPrintParse(n, "." + rest);
    assert Decimal(n) + "." + rest == Decimal(n) + ("." + rest);
    assert ("." + rest)[1..] == rest;
  }

  /** Printing then parsing gives the version back, for every version a parse can produce. */
  lemma PrintThenParse(v: Version)
    requires WellFormed(v)
    ensures Parse(Print(v)) == Some(v)
  {
    var tail := PrintTail(v.pre, v.build);
    var s3 := Decimal(v.patch) + tail;
    var s2 := Decimal(v.minor) + "." + s3;
    assert Print(v) == Decimal(v.major) + "." + s2;
    TailPrintParse(v.pre, v.build);
    assert tail == "" || tail[0] == '-' || tail[0] == '+';
    NumPrintParse(v.patch, tail);
    DottedPrintParse(v.minor, s3);
    DottedPrintParse(v.major, s2);
    PrintIsTrimmed(v);
    StripFixes(Print(v));
  }

  /** Only characters that neither need stripping nor leave ASCII. */
  predicate Solid(s: string) { forall i :: 0 <= i < |s| ==> !IsSpace(s[i]) && s[i] < 128 as char }

  lemma SolidJoin(a: string, b: string)
    requires Solid(a) && Solid(b)
    ensures Solid(a + b)
  {
  }

  lemma TailIsSolid(pre: Option<string>, build: Option<string>)
    requires (pre.Some? ==> Ident(pre.value)) && (build.Some? ==> Ident(build.value))
    ensures Solid(PrintTail(pre, build))
  {
    if build.Some? { SolidJoin("+", build.value); }
    if pre.Some? { SolidJoin("-", pre.value); }
    SolidJoin(if pre.Some? then "-" + pre.value else "", PrintBuild(build));
  }

  lemma PrintIsTrimmed(v: Version)
    requires WellFormed(v)
    ensures Trimmed(Print(v)) && Ascii(Print(v))
  {
    TailIsSolid(v.pre, v.build);
    SolidJoin(Decimal(v.major), ".");
    SolidJoin(Decimal(v.major) + ".", Decimal(v.minor));
    SolidJoin(Decimal(v.major) + "." + Decimal(v.minor), ".");
    SolidJoin(Decimal(v.major) + "." + Decimal(v.minor) + ".", Decimal(v.patch));
    SolidJoin(Decimal(v.major) + "." + Decimal(v.minor) + "." + Decimal(v.patch), PrintTail(v.pre, v.build));
  }

  lemma ParsedIsWellFormed(text: string)
    requires Parse(text).Some?
    ensures WellFormed(Parse(text).value)
  {
    var (_, s1) := ParseDotted(Strip(text)).value;
    var (_, s2) := ParseDotted(s1).value;
    TailParsePrint(ParseNum(s2).value.1);
  }

  lemma DottedParsePrint(s: string) returns (num: string)
    requires ParseDotted(s).Some?
    ensures var (n, rest) := ParseDotted(s).value; num + "." + rest == s && (Ascii(num) <==> num == Decimal(n))
  {
    var rest := ParseNum(s).value.1;
    num := s[..|s| - |rest|];
    assert num + rest == s && (Ascii(num) <==> num == Decimal(ParseNum(s).value.0)) by { NumParsePrint(s); }
    assert rest == "." + rest[1..];
    assert num + "." + rest[1..] == num + ("." + rest[1..]);
  }

  /**
    Parsing then printing gives the stripped text back exactly when that text is ASCII: digits of
    other scripts are accepted and come back as ASCII digits.
  */
  lemma ParseThenPrint(text: string)
    requires Parse(text).Some?
    ensures Print(Parse(text).value) == Strip(text) <==> Ascii(Strip(text))
  {
    ParsedIsWellFormed(text);
    PrintIsTrimmed(Parse(text).value);
    if Ascii(Strip(text)) { AsciiParsePrint(Strip(text)); }
  }

  lemma AsciiDotted(s: string)
    requires ParseDotted(s).Some? && Ascii(s)
    ensures var (n, rest) := ParseDotted(s).value; s == Decimal(n) + "." + rest && Ascii(rest)
  {
    var num := DottedParsePrint(s);
    AsciiParts(num, ".", ParseDotted(s).value.1);
  }

  lemma AsciiNum(s: string)
    requires ParseNum(s).Some? && Ascii(s)
    ensures s == Decimal(ParseNum(s).value.0) + ParseNum(s).value.1
  {
    NumParsePrint(s);
    AsciiParts(s[..|s| - |ParseNum(s).value.1|], "", ParseNum(s).value.1);
  }

  lemma AsciiParsePrint(s: string)
    requires ParseTrimmed(s).Some? && Ascii(s)
    ensures Print(ParseTrimmed(s).value) == s
  {
    AsciiDotted(s);
    var (n1, s1) := ParseDotted(s).value;
    AsciiDotted(s1);
    var (n2, s2) := ParseDotted(s1).value;
    AsciiNum(s2);
    var (n3, s3) := ParseNum(s2).value;
    assert PrintTail(ParseTail(s3).value.0, ParseTail(s3).value.1) == s3 by { TailParsePrint(s3); }
    Regroup(Decimal(n1), Decimal(n2), Decimal(n3), s3);
  }

  lemma Regroup(a: string, b: string, c: string, t: string)
    ensures a + "." + (b + "." + (c + t)) == a + "." + b + "." + c + t
  {
  }

  lemma AsciiParts(a: string, b: string, c: string)
    requires Ascii(a + b + c)
    ensures Ascii(a) && Ascii(c)
  {
    var s := a + b + c;
    forall i | 0 <= i < |a| ensures a[i] < 128 as char { assert s[i] == a[i]; }
    forall i | 0 <= i < |c| ensures c[i] < 128 as char { assert s[|a| + |b| + i] == c[i]; }
  }

  lemma ArabicThree()
    ensures DigitValue('\U{0663}') == Some(3)
  {
  }

  lemma ThirteenValue()
    ensures Digits("1\U{0663}") && NumValue("1\U{0663}") == 13
  {
    ArabicThree();
    var num := "1\U{0663}";
    assert num[..1] == "1" && "1"[..0] == "";
    assert NumValue("1") == 1;
  }

  lemma ThirteenParses(rest: string)
    ensures ParseDotted("1\U{0663}" + ("." + rest)) == Some((13, rest))
  {
    ThirteenValue();
    var num, s := "1\U{0663}", "1\U{0663}" + ("." + rest);
    DigitRunOf(num, "." + rest);
    assert s[..2] == num && s[2..] == "." + rest && ("." + rest)[1..] == rest;
    assert s[0] == '1';
  }

  lemma SmallDecimals()
    ensures Decimal(0) == "0" && Decimal(13) == "13"
  {
    assert Decimal(1) == "1";
  }

  lemma ZerosParse()
    ensures ParseDotted("0.0") == Some((0, "0")) && ParseNum("0") == Some((0, ""))
  {
    SmallDecimals();
    DottedPrintParse(0, "0");
    assert "0.0" == "0" + "." + "0";
    NumPrintParse(0, "");
    assert "0" + "" == "0";
  }

  /** The accepted text that does not print back: an Arabic-Indic three after a one. */
  lemma OtherScriptsAccepted()
    ensures Parse("1\U{0663}.0.0") == Some(Version(13, 0, 0, None, None))
    ensures Print(Version(13, 0, 0, None, None)) == "13.0.0"
  {
    var s := "1\U{0663}" + ("." + "0.0");
    assert s == "1\U{0663}.0.0";
    assert Strip(s) == s by { StripFixes(s); }
    ThirteenParses("0.0");
    ZerosParse();
    assert ParseTail("") == Some((None, None));
    assert ParseTrimmed(s) == Some(Version(13, 0, 0, None, None));
    PrintsThirteen();
  }

  lemma PrintsThirteen()
    ensures Print(Version(13, 0, 0, None, None)) == "13.0.0"
  {
    SmallDecimals();
    assert Print(Version(13, 0, 0, None, None)) == "13" + "." + "0" + "." + "0" + ("" + "");
  }

  // ----- the grammar as the pattern words it -----

  /** `0`, or a digit from 1 to 9 and then digits of any script. */
  predicate Numeral(s: string) { s == "0" || (s != "" && '1' <= s[0] <= '9' && Digits(s)) }

  /** `text` is three numerals of `v`'s values with dots between, and the two optional parts of `v`. */
  ghost predicate Spells(text: string, v: Version, a: string, b: string, c: string) {
    && Numeral(a) && Numeral(b) && Numeral(c) && Digits(a) && Digits(b) && Digits(c)
    && NumValue(a) == v.major && NumValue(b) == v.minor && NumValue(c) == v.patch
    && WellFormed(v) && text == a + "." + (b + "." + (c + PrintTail(v.pre, v.build)))
  }

  lemma NumeralParses(num: string, rest: string)
    requires Numeral(num) && (rest == "" || DigitValue(rest[0]).None?)
    ensures Digits(num) && ParseNum(num + rest) == Some((NumValue(num), rest))
  {
    var s := num + rest;
    if num == "0" {
      assert s[1..] == rest && "0"[..0] == "" && NumValue("") == 0;
      assert DigitValue('0') == Some(0);
    } else {
      DigitRunOf(num, rest);
      assert s[..|num|] == num && s[|num|..] == rest && s[0] == num[0];
    }
  }

  lemma NumParses(s: string) returns (num: string)
    requires ParseNum(s).Some?
    ensures Numeral(num) && Digits(num) && s == num + ParseNum(s).value.1 && NumValue(num) == ParseNum(s).value.0
  {
    var rest := ParseNum(s).value.1;
    num := s[..|s| - |rest|];
    if s[0] == '0' {
      assert num == "0" && num[..0] == "" && NumValue("") == 0;
      assert DigitValue('0') == Some(0);
    } else {
      assert num == s[..DigitRun(s)] && num[0] == s[0];
    }
  }

  lemma DottedParses(s: string) returns (num: string)
    requires ParseDotted(s).Some?
    ensures Numeral(num) && Digits(num) && s == num + "." + ParseDotted(s).value.1 && NumValue(num) == ParseDotted(s).value.0
  {
    num := NumParses(s);
    var rest := ParseNum(s).value.1;
    assert rest == "." + rest[1..];
    assert num + "." + rest[1..] == num + ("." + rest[1..]);
  }

  lemma NumeralDotted(num: string, rest: string)
    requires Numeral(num)
    ensures Digits(num) && ParseDotted(num + "." + rest) == Some((NumValue(num), rest))
  {
    assert num + "." + rest == num + ("." + rest) && ("." + rest)[1..] == rest;
    NumeralParses(num, "." + rest);
  }

  /** A text is accepted as a version exactly if, stripped, it spells it. */
  lemma AcceptedExactly(text: string, v: Version)
    ensures Parse(text) == Some(v) <==> exists a, b, c :: Spells(Strip(text), v, a, b, c)
  {
    var s := Strip(text);
    if Parse(text) == Some(v) {
      var a := DottedParses(s);
      var s1 := ParseDotted(s).value.1;
      var b := DottedParses(s1);
      var s2 := ParseDotted(s1).value.1;
      var c := NumParses(s2);
      TailParsePrint(ParseNum(s2).value.1);
      Joined(a, b, c, PrintTail(v.pre, v.build));
      assert Spells(s, v, a, b, c);
    }
    if exists a, b, c :: Spells(s, v, a, b, c) {
      var a, b, c :| Spells(s, v, a, b, c);
      var tail := PrintTail(v.pre, v.build);
      TailPrintParse(v.pre, v.build);
      assert tail == "" || tail[0] == '-' || tail[0] == '+';
      NumeralParses(c, tail);
      NumeralDotted(b, c + tail);
      NumeralDotted(a, b + "." + (c + tail));
      Joined(a, b, c, tail);
    }
  }

  lemma Joined(a: string, b: string, c: string, tail: string)
    ensures a + "." + (b + "." + (c + tail)) == a + ("." + (b + ("." + (c + tail))))
  {
  }
}
