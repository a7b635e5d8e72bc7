/**
 * Text handling used by the PLY reader: QString::trimmed, the two ways the
 * reader splits a line (on runs of whitespace for data lines, on a single
 * space for header lines), and the numeric conversions with their zero
 * fallback.
 */
module PlyText {
  import opened Wrappers

  /**
   * The characters `\s` matches in a regular expression without Unicode
   * properties: space, tab, line feed, carriage return, vertical tab, form feed.
   */
  predicate IsSpace(c: char) {
    c == ' ' || c == '\t' || c == '\n' || c == '\r' || c == '\U{000B}' || c == '\U{000C}'
  }

  /**
   * QChar::isSpace, used by QString::trimmed and QString::toInt: the ASCII
   * whitespace above, U+0085, and the Unicode separators (categories Zs, Zl
   * and Zp).
   */
  predicate IsQtSpace(c: char) {
    || IsSpace(c)
    || c == '\U{0085}' || c == '\U{00A0}' || c == '\U{1680}'
    || ('\U{2000}' <= c <= '\U{200A}')
    || c == '\U{2028}' || c == '\U{2029}' || c == '\U{202F}' || c == '\U{205F}' || c == '\U{3000}'
  }

  /** No character of `s` is whitespace in either sense. */
  predicate NoSpace(s: string) {
    forall i :: 0 <= i < |s| ==> !IsQtSpace(s[i])
  }

  /** Drops the leading run of whitespace. */
  function TrimLeft(s: string): (r: string)
    ensures |r| <= |s|
    ensures r == [] || !IsQtSpace(r[0])
  {
    if s != [] && IsQtSpace(s[0]) then TrimLeft(s[1..]) else s
  }

  /** Drops the trailing run of whitespace. */
  function TrimRight(s: string): (r: string)
    ensures |r| <= |s|
    ensures r == [] || !IsQtSpace(r[|r| - 1])
  {
    if s != [] && IsQtSpace(s[|s| - 1]) then TrimRight(s[..|s| - 1]) else s
  }

  /** QString::trimmed: what is left neither starts nor ends with whitespace. */
  function Trim(s: string): (r: string)
    ensures |r| <= |s|
  {
    TrimRight(TrimLeft(s))
  }

  /** What TrimLeft drops is whitespace, and it keeps the rest. */
  lemma {:induction false} TrimLeftDropsSpace(s: string)
    ensures TrimLeft(s) == s[|s| - |TrimLeft(s)|..]
    ensures forall i :: 0 <= i < |s| - |TrimLeft(s)| ==> IsQtSpace(s[i])
  {
    if s != [] && IsQtSpace(s[0]) {
      TrimLeftDropsSpace(s[1..]);
      forall i | 1 <= i < |s| - |TrimLeft(s)| ensures IsQtSpace(s[i]) {
        assert s[i] == s[1..][i - 1];
      }
    }
  }

  /** TrimRight keeps a prefix. */
  lemma {:induction false} TrimRightKeepsPrefix(s: string)
    ensures TrimRight(s) == s[..|TrimRight(s)|]
  {
    if s != [] && IsQtSpace(s[|s| - 1]) {
      TrimRightKeepsPrefix(s[..|s| - 1]);
    }
  }

  /** What TrimRight drops is whitespace. */
  lemma {:induction false} TrimRightDropsSpace(s: string)
    ensures forall i :: |TrimRight(s)| <= i < |s| ==> IsQtSpace(s[i])
  {
    if s != [] && IsQtSpace(s[|s| - 1]) {
      TrimRightDropsSpace(s[..|s| - 1]);
      forall i | |TrimRight(s)| <= i < |s| - 1 ensures IsQtSpace(s[i]) {
        assert s[i] == s[..|s| - 1][i];
      }
    }
  }

  /** QString::trimmed is `s` with its leading and its trailing run of whitespace removed. */
  lemma TrimSpec(s: string)
    ensures Trim(s) == [] || (!IsQtSpace(Trim(s)[0]) && !IsQtSpace(Trim(s)[|Trim(s)| - 1]))
    ensures exists a, b :: 0 <= a <= b <= |s| && Trim(s) == s[a..b]
              && (forall i :: 0 <= i < a ==> IsQtSpace(s[i]))
              && (forall i :: b <= i < |s| ==> IsQtSpace(s[i]))
  {
    var l := TrimLeft(s);
    var r := TrimRight(l);
    var a := |s| - |l|;
    TrimLeftDropsSpace(s);
    TrimRightKeepsPrefix(l);
    TrimRightDropsSpace(l);
    assert r == s[a..a + |r|];
    assert forall i :: a + |r| <= i < |s| ==> s[i] == l[i - a];
  }

  /** Drops a leading run of the characters `\s` matches. */
  function DropSpaces(s: string): (r: string)
    ensures |r| <= |s|
    ensures |s| > 0 && IsSpace(s[0]) ==> |r| < |s|
  {
    if s != [] && IsSpace(s[0]) then DropSpaces(s[1..]) else s
  }

  /**
   * Splitting on the regular expression `\s+`, keeping empty parts: `cur` is
   * the part being collected.
   */
  function SplitWsFrom(s: string, cur: string): (parts: seq<string>)
    ensures |parts| >= 1
    decreases |s|
  {
    if s == [] then [cur]
    else if IsSpace(s[0]) then [cur] + SplitWsFrom(DropSpaces(s), "")
    else SplitWsFrom(s[1..], cur + [s[0]])
  }

  /** `line.split(QRegularExpression("\\s+"))`. */
  function SplitWs(s: string): (parts: seq<string>)
    ensures |parts| >= 1
  {
    SplitWsFrom(s, "")
  }

  /** The tokens of a data line: the trimmed line split on whitespace runs. */
  function Tokens(line: string): (parts: seq<string>)
    ensures |parts| >= 1
  {
    SplitWs(Trim(line))
  }

  /** Splitting on one separator character, keeping empty parts. */
  function SplitAtFrom(s: string, sep: char, cur: string): (parts: seq<string>)
    ensures |parts| >= 1
    decreases |s|
  {
    if s == [] then [cur]
    else if s[0] == sep then [cur] + SplitAtFrom(s[1..], sep, "")
    else SplitAtFrom(s[1..], sep, cur + [s[0]])
  }

  /** `line.split(" ")`. */
  function SplitSpace(s: string): (parts: seq<string>)
    ensures |parts| >= 1
  {
    SplitAtFrom(s, ' ', "")
  }

  /** Characters other than the separator are collected into the current part. */
  lemma {:induction false} SplitAtWord(t: string, s: string, sep: char, cur: string)
    requires forall i :: 0 <= i < |t| ==> t[i] != sep
    ensures SplitAtFrom(t + s, sep, cur) == SplitAtFrom(s, sep, cur + t)
    decreases |t|
  {
    if t == [] {
      assert t + s == s && cur + t == cur;
    } else {
      var ts := t + s;
      assert ts[0] == t[0] && ts[1..] == t[1..] + s;
      SplitAtWord(t[1..], s, sep, cur + [t[0]]);
      assert cur + [t[0]] + t[1..] == cur + t;
    }
  }

  /** Splitting a space-joined line on single spaces gives back its parts, empty ones included. */
  lemma {:induction false} SplitSpaceJoin(ts: seq<string>)
    requires |ts| >= 1
    requires forall i, j :: 0 <= i < |ts| && 0 <= j < |ts[i]| ==> ts[i][j] != ' '
    ensures SplitSpace(Join(ts)) == ts
  {
    if |ts| == 1 {
      SplitAtWord(ts[0], "", ' ', "");
      assert ts[0] + "" == ts[0] && "" + ts[0] == ts[0];
    } else {
      var rest := Join(ts[1..]);
      assert Join(ts) == ts[0] + (" " + rest);
      SplitAtWord(ts[0], " " + rest, ' ', "");
      assert "" + ts[0] == ts[0];
      assert (" " + rest)[1..] == rest;
      assert SplitAtFrom(" " + rest, ' ', ts[0]) == [ts[0]] + SplitAtFrom(rest, ' ', "");
      SplitSpaceJoin(ts[1..]);
      assert ts == [ts[0]] + ts[1..];
    }
  }

  /** QString::startsWith. */
  predicate StartsWith(s: string, prefix: string) {
    prefix <= s
  }

  /** Two prefixes that differ at the same position cannot both start one text. */
  lemma StartsWithExclusive(s: string, a: string, b: string, i: nat)
    requires i < |a| && i < |b| && a[i] != b[i]
    ensures !(StartsWith(s, a) && StartsWith(s, b))
  {
  }

  predicate IsDigit(c: char) { '0' <= c <= '9' }

  predicate AllDigits(s: string) {
    forall i :: 0 <= i < |s| ==> IsDigit(s[i])
  }

  /** The value of a string of decimal digits. */
  function DigitsValue(s: string): (n: nat)
    requires AllDigits(s)
  {
    if s == [] then 0 else 10 * DigitsValue(s[..|s| - 1]) + (s[|s| - 1] - '0') as nat
  }

  const IntMin: int := -0x8000_0000
  const IntMax: int := 0x7FFF_FFFF

  predicate InIntRange(n: int) { IntMin <= n <= IntMax }

  /** The text after an optional leading sign. */
  function Magnitude(t: string): string {
    if |t| > 0 && (t[0] == '-' || t[0] == '+') then t[1..] else t
  }

  /** An optional sign followed by at least one decimal digit. */
  predicate IsIntText(t: string) {
    Magnitude(t) != [] && AllDigits(Magnitude(t))
  }

  /** The value such a text denotes. */
  function IntTextValue(t: string): int
    requires IsIntText(t)
  {
    if t[0] == '-' then -(DigitsValue(Magnitude(t)) as int) else DigitsValue(Magnitude(t)) as int
  }

  /** The 32-bit int a trimmed text denotes, if it is sign and digits and the value fits. */
  function IntOfText(t: string): Option<int> {
    if IsIntText(t) && InIntRange(IntTextValue(t)) then Some(IntTextValue(t)) else None
  }

  /**
   * QString::toInt in base 10: after trimming, an optional sign and at least
   * one digit, with a value that fits a 32-bit int; every other text fails.
   */
  function ToInt(s: string): (r: Option<int>)
    ensures r.Some? ==> InIntRange(r.value)
  {
    var t := Trim(s);
    if |t| > 0 && t[0] == '-' then SignedValue(t[1..], true)
    else if |t| > 0 && t[0] == '+' then SignedValue(t[1..], false)
    else SignedValue(t, false)
  }

  /** QString::toInt succeeds exactly on trimmed sign-and-digits texts whose value fits, with that value. */
  lemma ToIntSpec(s: string)
    ensures ToInt(s) == IntOfText(Trim(s))
  {
  }

  /** The value of a non-empty digit string with the given sign, if it fits. */
  function SignedValue(digits: string, negative: bool): (r: Option<int>)
    ensures r.Some? ==> InIntRange(r.value)
  {
    if digits == [] || !AllDigits(digits) then None
    else
      var v := if negative then -(DigitsValue(digits) as int) else DigitsValue(digits) as int;
      if InIntRange(v) then Some(v) else None
  }

  /** QString::toFloat: which strings convert and to what value is not modelled. */
  const ToFloat: string -> Option<real>

  /** PLYLoader::parseInt: the conversion, or 0 when it fails. */
  function ParseInt(s: string): (n: int)
    ensures InIntRange(n)
    ensures ToInt(s).None? ==> n == 0
    ensures ToInt(s).Some? ==> n == ToInt(s).value
  {
    match ToInt(s)
    case Some(v) => v
    case None => 0
  }

  /** PLYLoader::parseFloat: the conversion, or 0 when it fails. */
  function ParseFloat(s: string): (x: real)
    ensures ToFloat(s).None? ==> x == 0.0
    ensures ToFloat(s).Some? ==> x == ToFloat(s).value
  {
    match ToFloat(s)
    case Some(v) => v
    case None => 0.0
  }

  // ---------------------------------------------------------------------------
  // Printing, the partner of the conversions and of the tokeniser.

  function NatToString(n: nat): (s: string)
    ensures |s| > 0 && AllDigits(s)
  {
    if n < 10 then ['0' + n as char] else NatToString(n / 10) + ['0' + (n % 10) as char]
  }

  /** Decimal text of an integer, with a leading '-' when negative. */
  function IntToString(n: int): (s: string)
    ensures |s| > 0 && NoSpace(s)
  {
    if n < 0 then "-" + NatToString(-n) else NatToString(n)
  }

  /** The tokens joined by single spaces. */
  function Join(ts: seq<string>): string {
    if ts == [] then "" else if |ts| == 1 then ts[0] else ts[0] + " " + Join(ts[1..])
  }

  lemma {:induction false} DigitsRoundTrip(n: nat)
    ensures DigitsValue(NatToString(n)) == n
  {
    if n >= 10 {
      var s := NatToString(n);
      assert s[..|s| - 1] == NatToString(n / 10);
      DigitsRoundTrip(n / 10);
    }
  }

  /** A string with no whitespace at either end is its own trimmed form. */
  lemma TrimNoSpace(s: string)
    requires |s| > 0 && !IsQtSpace(s[0]) && !IsQtSpace(s[|s| - 1])
    ensures Trim(s) == s
  {
    assert TrimLeft(s) == s;
  }

  lemma DigitsNoSpace(d: string)
    requires AllDigits(d)
    ensures NoSpace(d)
  {
    forall i | 0 <= i < |d| ensures !IsQtSpace(d[i]) {
      assert IsDigit(d[i]);
    }
  }

  lemma ToIntOfDigits(d: string)
    requires |d| > 0 && AllDigits(d)
    ensures ToInt(d) == SignedValue(d, false)
  {
    DigitsNoSpace(d);
    TrimNoSpace(d);
    assert IsDigit(d[0]);
  }

  lemma ToIntOfNegative(d: string)
    requires |d| > 0 && AllDigits(d)
    ensures ToInt("-" + d) == SignedValue(d, true)
  {
    var s := "-" + d;
    DigitsNoSpace(d);
    assert NoSpace(s) by {
      forall i | 0 <= i < |s| ensures !IsQtSpace(s[i]) {
        if i > 0 { assert s[i] == d[i - 1]; }
      }
    }
    TrimNoSpace(s);
    assert s[0] == '-' && s[1..] == d;
  }

  lemma ToIntOfPlus(d: string)
    requires |d| > 0 && AllDigits(d)
    ensures ToInt("+" + d) == SignedValue(d, false)
  {
    var s := "+" + d;
    DigitsNoSpace(d);
    assert NoSpace(s) by {
      forall i | 0 <= i < |s| ensures !IsQtSpace(s[i]) {
        if i > 0 { assert s[i] == d[i - 1]; }
      }
    }
    TrimNoSpace(s);
    assert s[0] == '+' && s[1..] == d;
  }

  /** QString::toInt trims in the sense of QChar::isSpace: a trailing no-break space is dropped. */
  lemma ToIntTrimsUnicodeSpace()
    ensures ToInt("3\U{00A0}") == Some(3)
  {
    var s := "3\U{00A0}";
    assert TrimLeft(s) == s;
    assert TrimRight(s) == TrimRight(s[..1]) == "3";
    assert Trim(s) == "3";
    assert DigitsValue("3") == 3;
  }

  /** A '+' sign is accepted. */
  lemma ToIntAcceptsPlus()
    ensures ToInt("+7") == Some(7)
  {
    TrimNoSpace("+7");
    assert "+7"[1..] == "7" && IsDigit('7');
    assert DigitsValue("7") == 7;
  }

  /** A text that is not sign and digits fails, and parseInt gives 0. */
  lemma ToIntRejectsExponent()
    ensures ToInt("1e3") == None && ParseInt("1e3") == 0
  {
    TrimNoSpace("1e3");
    assert !IsDigit("1e3"[1]);
  }

  /** Every 32-bit integer survives printing and QString::toInt. */
  lemma IntRoundTrip(n: int)
    requires InIntRange(n)
    ensures ToInt(IntToString(n)) == Some(n)
    ensures ParseInt(IntToString(n)) == n
  {
    if n < 0 {
      var d := NatToString(-n);
      DigitsRoundTrip(-n);
      assert SignedValue(d, true) == Some(n);
      ToIntOfNegative(d);
    } else {
      var d := NatToString(n);
      DigitsRoundTrip(n);
      assert SignedValue(d, false) == Some(n);
      ToIntOfDigits(d);
    }
  }

  /** Characters free of whitespace are collected into the current part. */
  lemma {:induction false} SplitWsWord(t: string, s: string, cur: string)
    requires NoSpace(t)
    ensures SplitWsFrom(t + s, cur) == SplitWsFrom(s, cur + t)
    decreases |t|
  {
    if t != [] {
      var ts := t + s;
      assert ts[0] == t[0] && !IsSpace(ts[0]);
      assert ts[1..] == t[1..] + s;
      assert SplitWsFrom(ts, cur) == SplitWsFrom(ts[1..], cur + [t[0]]);
      assert NoSpace(t[1..]) by {
        forall i | 0 <= i < |t[1..]| ensures !IsQtSpace(t[1..][i]) {
          assert t[1..][i] == t[i + 1];
        }
      }
      SplitWsWord(t[1..], s, cur + [t[0]]);
      assert cur + [t[0]] + t[1..] == cur + t;
    } else {
      assert t + s == s && cur + t == cur;
    }
  }

  /** Splitting a space-joined line on whitespace gives back its tokens. */
  lemma {:induction false} SplitJoin(ts: seq<string>)
    requires |ts| >= 1
    requires forall i :: 0 <= i < |ts| ==> |ts[i]| > 0 && NoSpace(ts[i])
    ensures SplitWs(Join(ts)) == ts
  {
    if |ts| == 1 {
      SplitWsWord(ts[0], "", "");
      assert ts[0] + "" == ts[0] && "" + ts[0] == ts[0];
    } else {
      var rest := Join(ts[1..]);
      JoinStartsWith(ts[1..]);
      assert Join(ts) == ts[0] + (" " + rest);
      SplitWsWord(ts[0], " " + rest, "");
      assert "" + ts[0] == ts[0];
      assert DropSpaces(" " + rest) == rest by {
        assert (" " + rest)[1..] == rest;
      }
      assert SplitWsFrom(" " + rest, ts[0]) == [ts[0]] + SplitWsFrom(rest, "");
      SplitJoin(ts[1..]);
      assert ts == [ts[0]] + ts[1..];
    }
  }

  /** A space-joined line of non-empty tokens starts and ends with no space. */
  lemma {:induction false} JoinStartsWith(ts: seq<string>)
    requires |ts| >= 1
    requires forall i :: 0 <= i < |ts| ==> |ts[i]| > 0 && NoSpace(ts[i])
    ensures |Join(ts)| > 0 && !IsQtSpace(Join(ts)[0]) && !IsQtSpace(Join(ts)[|Join(ts)| - 1])
  {
    if |ts| > 1 {
      JoinStartsWith(ts[1..]);
      var j := ts[0] + " " + Join(ts[1..]);
      assert j[|j| - 1] == Join(ts[1..])[|Join(ts[1..])| - 1];
    }
  }

  /** Tokenising a space-joined line gives back its tokens. */
  lemma TokensOfJoin(ts: seq<string>)
    requires |ts| >= 1
    requires forall i :: 0 <= i < |ts| ==> |ts[i]| > 0 && NoSpace(ts[i])
    ensures Tokens(Join(ts)) == ts
  {
    JoinStartsWith(ts);
    TrimNoSpace(Join(ts));
    SplitJoin(ts);
  }
}
