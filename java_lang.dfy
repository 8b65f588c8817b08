/**
 * The few pieces of the Java platform the backend's logic leans on, with Java's semantics written out:
 * 32- and 64-bit integer ranges, the narrowing (int) cast, truncating division and remainder,
 * Integer.toString and Integer.parseInt, String.split with a one-character pattern,
 * String.lastIndexOf, and BufferedReader.readLine.
 */
module JavaLang {
  import opened Wrappers
  import opened Text

  const IntMin: int := -0x8000_0000
  const IntMax: int := 0x7fff_ffff

  /** n fits a Java int. */
  predicate IsInt(n: int) {
    IntMin <= n <= IntMax
  }

  /** n fits a Java long. */
  predicate IsLong(n: int) {
    -0x8000_0000_0000_0000 <= n < 0x8000_0000_0000_0000
  }

  /** Java's narrowing cast (int) of a long: the low 32 bits, read as two's complement. */
  function ToInt(n: int): (r: int)
    ensures IsInt(r)
    ensures (n - r) % 0x1_0000_0000 == 0
    ensures IsInt(n) ==> r == n
  {
    var m := n % 0x1_0000_0000;
    if m <= IntMax then m else m - 0x1_0000_0000
  }

  /** Java's integer division, which truncates toward zero. */
  function Div(a: int, b: int): (q: int)
    requires b > 0
    ensures a >= 0 ==> q == a / b
    ensures a < 0 ==> q == -((-a) / b)
  {
    if a >= 0 then a / b else -((-a) / b)
  }

  /** Java's remainder operator %, whose result takes the sign of the dividend. */
  function Rem(a: int, b: int): (r: int)
    requires b > 0
    ensures a >= 0 ==> 0 <= r < b
    ensures a < 0 ==> -b < r <= 0
    ensures a == b * Div(a, b) + r
  {
    a - b * Div(a, b)
  }

  predicate IsDigit(c: char) {
    '0' <= c <= '9'
  }

  predicate AllDigits(s: string) {
    forall i :: 0 <= i < |s| ==> IsDigit(s[i])
  }

  function DigitChar(d: nat): (c: char)
    requires d < 10
    ensures IsDigit(c)
  {
    (('0' as int) + d) as char
  }

  /** The decimal digits of n, most significant first, with no leading zero. */
  function Digits(n: nat): (s: string)
    ensures |s| >= 1 && AllDigits(s)
    ensures |s| > 1 ==> s[0] != '0'
    decreases n
  {
    if n < 10 then [DigitChar(n)] else Digits(n / 10) + [DigitChar(n % 10)]
  }

  /** Integer.toString: the decimal text of n, with a leading '-' when n is negative. */
  function ToString(n: int): string {
    if n < 0 then "-" + Digits(-n) else Digits(n)
  }

  /**
   * The message of the ArrayIndexOutOfBoundsException an array, or a list backed by one, throws for
   * index (JDK 11 and later).
   */
  function IndexOutOfBoundsMessage(index: int, length: int): string {
    "Index " + ToString(index) + " out of bounds for length " + ToString(length)
  }

  /** The number a string of decimal digits denotes. */
  function DigitsValue(ds: string): nat
    requires AllDigits(ds)
  {
    if ds == [] then 0
    else DigitsValue(ds[..|ds| - 1]) * 10 + ((ds[|ds| - 1] as int) - ('0' as int))
  }

  lemma {:induction false} DigitsValueOfDigits(n: nat)
    ensures DigitsValue(Digits(n)) == n
    decreases n
  {
    if n >= 10 {
      var ds := Digits(n);
      assert ds[..|ds| - 1] == Digits(n / 10);
      DigitsValueOfDigits(n / 10);
    }
  }

  /** The NumberFormatException message Integer.parseInt(s) throws with. */
  function NumberFormatMessage(s: string): string {
    "For input string: \"" + s + "\""
  }

  /**
   * Integer.parseInt(s): an optional '+' or '-', then one or more decimal digits, denoting a value
   * in the int range; anything else throws NumberFormatException.
   */
  function ParseInt(s: string): (r: Result<int, string>)
    ensures r.Success? ==> IsInt(r.value)
    ensures r.Failure? ==> r.error == NumberFormatMessage(s)
    ensures s == [] ==> r.Failure?
  {
    if s == [] then Failure(NumberFormatMessage(s))
    else
      var signed := s[0] == '-' || s[0] == '+';
      var ds := if signed then s[1..] else s;
      if ds == [] || !AllDigits(ds) then Failure(NumberFormatMessage(s))
      else
        var v: int := if s[0] == '-' then -(DigitsValue(ds) as int) else DigitsValue(ds);
        if IsInt(v) then Success(v) else Failure(NumberFormatMessage(s))
  }

  /** Integer.parseInt reads back what Integer.toString writes, for every int. */
  lemma ParseIntOfToString(n: int)
    requires IsInt(n)
    ensures ParseInt(ToString(n)) == Success(n)
  {
    var s := ToString(n);
    if n < 0 {
      var ds := Digits(-n);
      assert s == "-" + ds;
      assert s[0] == '-' && s[1..] == ds;
      DigitsValueOfDigits(-n);
      assert ParseInt(s) == Success(-(DigitsValue(ds) as int));
    } else {
      var ds := Digits(n);
      assert s == ds && IsDigit(s[0]);
      DigitsValueOfDigits(n);
      assert ParseInt(s) == Success(DigitsValue(ds));
    }
  }

  /** The text of an int never contains a colon and is never empty. */
  lemma ToStringShape(n: int)
    ensures ToString(n) != [] && ':' !in ToString(n)
  {
    var ds := if n < 0 then Digits(-n) else Digits(n);
    assert forall i :: 0 <= i < |ds| ==> ds[i] != ':';
    if n < 0 {
      assert ToString(n) == "-" + ds;
      assert forall i :: 0 <= i < |ToString(n)| ==> ToString(n)[i] != ':';
    }
  }

  /** parts without its trailing empty strings (what String.split does with a zero limit). */
  function DropTrailingEmpty(parts: seq<string>): (r: seq<string>)
    ensures |r| <= |parts| && r == parts[..|r|]
    ensures r == [] || r[|r| - 1] != ""
    ensures forall i :: |r| <= i < |parts| ==> parts[i] == ""
  {
    if parts != [] && parts[|parts| - 1] == "" then DropTrailingEmpty(parts[..|parts| - 1]) else parts
  }

  /**
   * String.split(regex) for a one-character regex that is not a metacharacter (such as ":"):
   * the string itself when c does not occur, otherwise its pieces without trailing empty ones.
   */
  function Split(s: string, c: char): (parts: seq<string>)
    ensures c !in s ==> parts == [s]
    ensures c in s ==> |parts| <= |SplitOn(s, c)| && parts == SplitOn(s, c)[..|parts|]
    ensures c in s ==> (parts == [] || parts[|parts| - 1] != "")
    ensures c in s ==> forall i :: |parts| <= i < |SplitOn(s, c)| ==> SplitOn(s, c)[i] == ""
    ensures forall i :: 0 <= i < |parts| ==> c !in parts[i]
  {
    if c !in s then [s]
    else
      var pieces := SplitOn(s, c);
      assert forall i :: 0 <= i < |pieces| ==> c !in pieces[i] by {
        forall i | 0 <= i < |pieces| {
          SplitPiecesLackSep(s, c, i);
        }
      }
      DropTrailingEmpty(pieces)
  }

  /** Splitting a + c + b, where neither a nor b contains c and b is not empty, gives [a, b]. */
  lemma SplitTwo(a: string, c: char, b: string)
    requires c !in a && c !in b && b != ""
    ensures Split(a + [c] + b, c) == [a, b]
  {
    var s := a + [c] + b;
    assert s[|a|] == c;
    SplitJoin([a, b], c);
    assert JoinWith([a, b], c) == s;
  }

  /** String.lastIndexOf(c): the last index holding c, or -1. */
  function LastIndexOf(s: string, c: char): (k: int)
    ensures -1 <= k < |s|
    ensures k >= 0 ==> s[k] == c
    ensures forall j :: k < j < |s| ==> s[j] != c
  {
    if s == [] then -1
    else if s[|s| - 1] == c then |s| - 1
    else LastIndexOf(s[..|s| - 1], c)
  }

  /** Index of the first '\n' or '\r' in s, or |s|. */
  function LineEnd(s: string): (k: nat)
    ensures k <= |s|
    ensures k < |s| ==> s[k] == '\n' || s[k] == '\r'
    ensures NoLineBreak(s[..k])
  {
    if s == [] then 0
    else if s[0] == '\n' || s[0] == '\r' then 0
    else
      var k := 1 + LineEnd(s[1..]);
      assert s[..k] == [s[0]] + s[1..][..k - 1];
      k
  }

  /**
   * The lines BufferedReader.readLine returns, one after another, until it returns null:
   * a line ends at "\n", "\r" or "\r\n"; a last line without terminator is still returned.
   */
  function ReadLines(s: string): (lines: seq<string>)
    ensures lines == [] <==> s == []
    ensures forall i :: 0 <= i < |lines| ==> NoLineBreak(lines[i])
    decreases |s|
  {
    if s == [] then []
    else
      var k := LineEnd(s);
      if k == |s| then assert s[..k] == s; [s]
      else if s[k] == '\r' && k + 1 < |s| && s[k + 1] == '\n' then [s[..k]] + ReadLines(s[k + 2..])
      else [s[..k]] + ReadLines(s[k + 1..])
  }

  /** Reading back, line by line, what print wrote gives the printed lines, when none contains a line break. */
  lemma {:induction false} ReadLinesOfPrinted(lines: seq<string>)
    requires forall i :: 0 <= i < |lines| ==> NoLineBreak(lines[i])
    ensures ReadLines(Printed(lines)) == lines
  {
    if lines != [] {
      var l := lines[0];
      var s := Printed(lines);
      assert s == l + "\n" + Printed(lines[1..]);
      assert NoLineBreak(l);
      assert LineEnd(s) == |l| by {
        assert s[|l|] == '\n';
        assert forall j :: 0 <= j < |l| ==> s[j] == l[j];
      }
      assert s[..|l|] == l;
      assert s[|l| + 1..] == Printed(lines[1..]);
      ReadLinesOfPrinted(lines[1..]);
    }
  }
}
