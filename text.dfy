/**
 * String operations the worker script relies on (Python's str.split, str.strip, `in`, print),
 * written over `string` = `seq<char>`, one Unicode scalar value per element.
 */
module Text {
  import opened Wrappers

  /** s begins with prefix (Java String.startsWith and Python str.startswith agree). */
  predicate StartsWith(s: string, prefix: string) {
    |prefix| <= |s| && s[..|prefix|] == prefix
  }

  /** Index of the first occurrence of c in s, or |s| when c does not occur. */
  function IndexOfChar(s: string, c: char): (k: nat)
    ensures k <= |s|
    ensures k < |s| ==> s[k] == c
    ensures forall j :: 0 <= j < k ==> s[j] != c
    decreases |s|
  {
    if s == [] then 0
    else if s[0] == c then 0
    else 1 + IndexOfChar(s[1..], c)
  }

  /** The first occurrence of c in a + [c] + b is the one after a, when a does not contain c. */
  lemma IndexOfCharAfter(a: string, c: char, b: string)
    requires c !in a
    ensures IndexOfChar(a + [c] + b, c) == |a|
  {
    var s := a + [c] + b;
    assert s[|a|] == c;
    assert forall j :: 0 <= j < |a| ==> s[j] == a[j];
  }

  /**
   * Splits s at every occurrence of sep: Python's str.split(sep) for a one-character separator.
   * Empty pieces are kept, so there is always at least one piece.
   */
  function SplitOn(s: string, sep: char): (parts: seq<string>)
    ensures |parts| >= 1
    decreases |s|
  {
    var k := IndexOfChar(s, sep);
    if k == |s| then [s] else [s[..k]] + SplitOn(s[k + 1..], sep)
  }

  /** No piece of a split contains the separator. */
  lemma {:induction false} SplitPiecesLackSep(s: string, sep: char, i: nat)
    requires i < |SplitOn(s, sep)|
    ensures sep !in SplitOn(s, sep)[i]
    decreases |s|
  {
    var k := IndexOfChar(s, sep);
    if k < |s| && i > 0 {
      SplitPiecesLackSep(s[k + 1..], sep, i - 1);
    } else {
      assert SplitOn(s, sep)[i] == s[..k];
    }
  }

  /** The pieces glued back together with sep between them: Python's sep.join(parts). */
  function JoinWith(parts: seq<string>, sep: char): string
  {
    if parts == [] then ""
    else if |parts| == 1 then parts[0]
    else parts[0] + [sep] + JoinWith(parts[1..], sep)
  }

  /** Joining the pieces of a split gives back the original text. */
  lemma {:induction false} JoinSplit(s: string, sep: char)
    ensures JoinWith(SplitOn(s, sep), sep) == s
    decreases |s|
  {
    var k := IndexOfChar(s, sep);
    if k < |s| {
      var rest := s[k + 1..];
      var parts := SplitOn(s, sep);
      assert parts == [s[..k]] + SplitOn(rest, sep);
      assert parts[0] == s[..k] && parts[1..] == SplitOn(rest, sep);
      assert JoinWith(parts, sep) == s[..k] + [sep] + JoinWith(SplitOn(rest, sep), sep);
      JoinSplit(rest, sep);
      assert s == s[..k] + [sep] + rest;
    }
  }

  /** Splitting a join of separator-free pieces gives back the pieces. */
  lemma {:induction false} SplitJoin(parts: seq<string>, sep: char)
    requires |parts| >= 1
    requires forall i :: 0 <= i < |parts| ==> sep !in parts[i]
    ensures SplitOn(JoinWith(parts, sep), sep) == parts
  {
    assert sep !in parts[0];
    if |parts| == 1 {
      assert JoinWith(parts, sep) == parts[0];
      assert IndexOfChar(parts[0], sep) == |parts[0]|;
    } else {
      var tail := parts[1..];
      var rest := JoinWith(tail, sep);
      var s := parts[0] + [sep] + rest;
      assert JoinWith(parts, sep) == s;
      IndexOfCharAfter(parts[0], sep, rest);
      assert s[..|parts[0]|] == parts[0];
      assert s[|parts[0]| + 1..] == rest;
      assert forall i :: 0 <= i < |tail| ==> tail[i] == parts[i + 1];
      SplitJoin(tail, sep);
      assert SplitOn(s, sep) == [parts[0]] + tail;
      assert parts == [parts[0]] + tail;
    }
  }

  /** The characters Python's str.strip() removes: exactly those for which str.isspace() holds. */
  predicate IsPySpace(c: char) {
    || c == ' '
    || ('\t' <= c <= '\r')
    || ('\U{1c}' <= c <= '\U{1f}')
    || c == '\U{85}' || c == '\U{a0}' || c == '\U{1680}'
    || ('\U{2000}' <= c <= '\U{200a}')
    || c == '\U{2028}' || c == '\U{2029}' || c == '\U{202f}' || c == '\U{205f}' || c == '\U{3000}'
  }

  /** s with its leading whitespace removed. */
  function TrimStart(s: string): (r: string)
    ensures |r| <= |s|
    decreases |s|
  {
    if s != [] && IsPySpace(s[0]) then TrimStart(s[1..]) else s
  }

  /** TrimStart removes a prefix made of whitespace only, and what is left does not start with whitespace. */
  lemma {:induction false} TrimStartShape(s: string)
    ensures TrimStart(s) == s[|s| - |TrimStart(s)|..]
    ensures TrimStart(s) == [] || !IsPySpace(TrimStart(s)[0])
    ensures forall i :: 0 <= i < |s| - |TrimStart(s)| ==> IsPySpace(s[i])
    decreases |s|
  {
    if s != [] && IsPySpace(s[0]) {
      TrimStartShape(s[1..]);
      assert forall i :: 1 <= i < |s| - |TrimStart(s)| ==> s[i] == s[1..][i - 1];
    }
  }

  /** s with its trailing whitespace removed. */
  function TrimEnd(s: string): (r: string)
    ensures |r| <= |s|
    decreases |s|
  {
    if s != [] && IsPySpace(s[|s| - 1]) then TrimEnd(s[..|s| - 1]) else s
  }

  /** TrimEnd removes a suffix made of whitespace only, and what is left does not end in whitespace. */
  lemma {:induction false} TrimEndShape(s: string)
    ensures TrimEnd(s) == s[..|TrimEnd(s)|]
    ensures TrimEnd(s) == [] || !IsPySpace(TrimEnd(s)[|TrimEnd(s)| - 1])
    ensures forall i :: |TrimEnd(s)| <= i < |s| ==> IsPySpace(s[i])
    decreases |s|
  {
    if s != [] && IsPySpace(s[|s| - 1]) {
      TrimEndShape(s[..|s| - 1]);
      assert forall i :: |TrimEnd(s)| <= i < |s| - 1 ==> s[i] == s[..|s| - 1][i];
    }
  }

  /** Python's str.strip() with no argument. */
  function Strip(s: string): string {
    TrimEnd(TrimStart(s))
  }

  /** A line strips to nothing exactly when every character of it is whitespace. */
  lemma StripIsEmptyIff(s: string)
    ensures Strip(s) == [] <==> forall i :: 0 <= i < |s| ==> IsPySpace(s[i])
  {
    var t := TrimStart(s);
    TrimStartShape(s);
    TrimEndShape(t);
    if Strip(s) != [] {
      var r := Strip(s);
      assert !IsPySpace(r[0]) by {
        if t != [] { assert r[0] == t[0]; }
      }
      assert r[0] == s[|s| - |t|];
    }
  }

  /** pat occurs in s starting at index j. */
  predicate OccursAt(s: string, pat: string, j: nat) {
    j + |pat| <= |s| && s[j..j + |pat|] == pat
  }

  /** The first index at or after from where pat occurs in s, if any. */
  function FindFrom(s: string, pat: string, from: nat): (r: Option<nat>)
    requires from <= |s|
    ensures r.Some? ==> from <= r.value && OccursAt(s, pat, r.value)
    ensures r.Some? ==> forall j :: from <= j < r.value ==> !OccursAt(s, pat, j)
    ensures r.None? ==> forall j :: from <= j <= |s| ==> !OccursAt(s, pat, j)
    decreases |s| - from
  {
    if OccursAt(s, pat, from) then Some(from)
    else if from == |s| then None
    else FindFrom(s, pat, from + 1)
  }

  /** Python's `pat in s`. */
  predicate Contains(s: string, pat: string) {
    FindFrom(s, pat, 0).Some?
  }

  /** A pattern found in a slice of s is found in s. */
  lemma ContainsSlice(s: string, a: nat, b: nat, pat: string)
    requires a <= b <= |s|
    requires Contains(s[a..b], pat)
    ensures Contains(s, pat)
  {
    var j := FindFrom(s[a..b], pat, 0).value;
    assert OccursAt(s[a..b], pat, j);
    SliceOfSlice(s, a, b, j, j + |pat|);
    assert OccursAt(s, pat, a + j);
  }

  /** A slice of a slice is a slice of the whole. */
  lemma SliceOfSlice(s: string, a: nat, b: nat, i: nat, j: nat)
    requires a <= b <= |s| && i <= j <= b - a
    ensures s[a..b][i..j] == s[a + i..a + j]
  {
    assert forall k :: 0 <= k < j - i ==> s[a..b][i..j][k] == s[a + i + k];
  }

  /** TrimStart(s) is the suffix of s of its own length. */
  lemma {:induction false} TrimStartIsSuffix(s: string)
    ensures TrimStart(s) == s[|s| - |TrimStart(s)|..]
    decreases |s|
  {
    if s != [] && IsPySpace(s[0]) {
      TrimStartIsSuffix(s[1..]);
      assert s[1..][|s| - 1 - |TrimStart(s)|..] == s[|s| - |TrimStart(s)|..];
    }
  }

  /** TrimEnd(s) is the prefix of s of its own length. */
  lemma {:induction false} TrimEndIsPrefix(s: string)
    ensures TrimEnd(s) == s[..|TrimEnd(s)|]
    decreases |s|
  {
    if s != [] && IsPySpace(s[|s| - 1]) {
      TrimEndIsPrefix(s[..|s| - 1]);
      assert s[..|s| - 1][..|TrimEnd(s)|] == s[..|TrimEnd(s)|];
    }
  }

  /** Stripping takes a slice: Strip(s) is s[a..a + |Strip(s)|] for some a. */
  lemma StripIsSlice(s: string) returns (a: nat)
    ensures a + |Strip(s)| <= |s| && Strip(s) == s[a..a + |Strip(s)|]
  {
    var t := TrimStart(s);
    var u := TrimEnd(t);
    TrimStartIsSuffix(s);
    TrimEndIsPrefix(t);
    a := |s| - |t|;
    assert Strip(s) == u && u == t[..|u|];
    SliceOfSlice(s, a, |s|, 0, |u|);
    assert s[a..|s|] == t;
  }

  /** Stripping a string that does not contain pat gives a string that does not contain it. */
  lemma StripKeepsAbsence(s: string, pat: string)
    requires !Contains(s, pat)
    ensures !Contains(Strip(s), pat)
  {
    var a := StripIsSlice(s);
    if Contains(Strip(s), pat) {
      ContainsSlice(s, a, a + |Strip(s)|, pat);
    }
  }

  /**
   * Python's s.split(pat)[0]: the text before the first occurrence of pat, or all of s.
   * Python refuses an empty separator, hence the precondition.
   */
  function BeforeFirst(s: string, pat: string): (r: string)
    requires pat != ""
    ensures |r| <= |s| && r == s[..|r|]
    ensures Contains(s, pat) ==> OccursAt(s, pat, |r|) && !Contains(r, pat)
    ensures !Contains(s, pat) ==> r == s
  {
    match FindFrom(s, pat, 0)
    case None => s
    case Some(k) =>
      assert forall j :: 0 <= j <= k ==> !OccursAt(s[..k], pat, j) by {
        forall j | 0 <= j <= k
          ensures !OccursAt(s[..k], pat, j)
        {
          if j + |pat| <= k {
            assert j < k && !OccursAt(s, pat, j);
            SliceOfSlice(s, 0, k, j, j + |pat|);
            assert s[0..k] == s[..k];
          }
        }
      }
      s[..k]
  }

  /** Every character of s is other than '\n' and '\r'. */
  predicate NoLineBreak(s: string) {
    forall i :: 0 <= i < |s| ==> s[i] != '\n' && s[i] != '\r'
  }

  /** What a sequence of Python print(line) calls writes to standard output. */
  function Printed(lines: seq<string>): string {
    if lines == [] then "" else lines[0] + "\n" + Printed(lines[1..])
  }

  /** A printed line holding a line break writes the same text as its two halves printed one after the other. */
  lemma {:induction false} PrintedSplitLine(a: seq<string>, x: string, y: string, b: seq<string>)
    ensures Printed(a + [x + "\n" + y] + b) == Printed(a + [x, y] + b)
    decreases |a|
  {
    if a == [] {
      assert ([x, y] + b)[1..] == [y] + b;
      assert ([x + "\n" + y] + b)[1..] == b && ([y] + b)[1..] == b;
    } else {
      assert (a + [x + "\n" + y] + b)[1..] == a[1..] + [x + "\n" + y] + b;
      assert (a + [x, y] + b)[1..] == a[1..] + [x, y] + b;
      PrintedSplitLine(a[1..], x, y, b);
    }
  }
}
