/**
 * The Python string primitives the scanners and analyzers rely on:
 * `str.isspace`, `strip`, `split()`, `split(sep)`, `splitlines`, `find`,
 * `startswith`/`endswith`, `in`, ASCII `lower`, `int()` of a token and
 * `os.path.basename`.  Each is a total function with a contract that says
 * what it means, so the parsers built on them can be reasoned about.
 */
module Text {

  datatype Option<T> = None | Some(value: T)

  /** Python's `str.isspace()` for one character (the full Unicode set it accepts). */
  predicate IsSpace(c: char) {
    var n := c as int;
    n == 0x20 || 0x09 <= n <= 0x0D || 0x1C <= n <= 0x1F || n == 0x85 || n == 0xA0 ||
    n == 0x1680 || 0x2000 <= n <= 0x200A || n == 0x2028 || n == 0x2029 ||
    n == 0x202F || n == 0x205F || n == 0x3000
  }

  /** The characters at which Python's `str.splitlines()` ends a line. */
  predicate IsLineBreak(c: char) {
    var n := c as int;
    n == 0x0A || n == 0x0B || n == 0x0C || n == 0x0D || n == 0x1C || n == 0x1D || n == 0x1E ||
    n == 0x85 || n == 0x2028 || n == 0x2029
  }

  predicate IsDigit(c: char) { '0' <= c <= '9' }

  predicate IsLowerHex(c: char) { '0' <= c <= '9' || 'a' <= c <= 'f' }

  /** Every character is whitespace (so `s.strip()` is empty and falsy). */
  predicate IsBlank(s: string) {
    forall i :: 0 <= i < |s| ==> IsSpace(s[i])
  }

  predicate NoSpace(s: string) {
    forall i :: 0 <= i < |s| ==> !IsSpace(s[i])
  }

  predicate StartsWith(s: string, prefix: string) {
    |prefix| <= |s| && s[..|prefix|] == prefix
  }

  predicate EndsWith(s: string, suffix: string) {
    |suffix| <= |s| && s[|s| - |suffix|..] == suffix
  }

  /** `sub in s` */
  predicate Contains(s: string, sub: string)
    decreases |s|
  {
    StartsWith(s, sub) || (s != [] && Contains(s[1..], sub))
  }

  /** An occurrence of `sub` at index `i` makes `sub in s` hold. */
  lemma {:induction false} ContainsAt(s: string, sub: string, i: nat)
    requires i + |sub| <= |s| && s[i..i + |sub|] == sub
    ensures Contains(s, sub)
    decreases i
  {
    if i > 0 {
      assert s[1..][i - 1..i - 1 + |sub|] == s[i..i + |sub|];
      ContainsAt(s[1..], sub, i - 1);
    }
  }

  /** A string shorter than `sub` does not contain it. */
  lemma {:induction false} ShortNotContains(s: string, sub: string)
    requires |s| < |sub|
    ensures !Contains(s, sub)
    decreases |s|
  {
    if s != [] {
      ShortNotContains(s[1..], sub);
    }
  }

  /** A string lacking one of the characters of `sub` does not contain it. */
  lemma {:induction false} MissingCharNotContains(s: string, sub: string, c: char)
    requires c in sub && c !in s
    ensures !Contains(s, sub)
    decreases |s|
  {
    assert !StartsWith(s, sub) by {
      if |sub| <= |s| {
        var k :| 0 <= k < |sub| && sub[k] == c;
        assert s[..|sub|][k] == s[k];
      }
    }
    if s != [] {
      assert forall x :: x in s[1..] ==> x in s;
      MissingCharNotContains(s[1..], sub, c);
    }
  }

  /** A mismatch at index `k` rules out a prefix. */
  lemma NotStartsWithAt(s: string, prefix: string, k: nat)
    requires k < |prefix| && k < |s| && s[k] != prefix[k]
    ensures !StartsWith(s, prefix)
  {
    if |prefix| <= |s| {
      assert s[..|prefix|][k] == s[k];
    }
  }

  /** A suffix of a suffix is a suffix. */
  lemma EndsWithTrans(a: string, b: string, c: string)
    requires EndsWith(a, b) && EndsWith(b, c)
    ensures EndsWith(a, c)
  {
    assert a[|a| - |c|..] == b[|b| - |c|..];
  }

  /** `s.find(c)`: the first index of `c`, or -1. */
  function Find(s: string, c: char): (i: int)
    ensures -1 <= i < |s|
    ensures 0 <= i ==> s[i] == c
  {
    if s == [] then -1
    else if s[0] == c then 0
    else
      var k := Find(s[1..], c);
      if k == -1 then -1 else k + 1
  }

  /** `find` returns the first occurrence, and -1 only when there is none. */
  lemma {:induction false} FindIsFirst(s: string, c: char)
    ensures forall j :: 0 <= j < |s| && (Find(s, c) == -1 || j < Find(s, c)) ==> s[j] != c
  {
    if s != [] && s[0] != c {
      FindIsFirst(s[1..], c);
      assert forall j :: 1 <= j < |s| ==> s[j] == s[1..][j - 1];
    }
  }

  /** `s.rfind(c)`: the last index of `c`, or -1. */
  function RFind(s: string, c: char): (i: int)
    ensures -1 <= i < |s|
    ensures 0 <= i ==> s[i] == c
  {
    if s == [] then -1
    else if s[|s| - 1] == c then |s| - 1
    else RFind(s[..|s| - 1], c)
  }

  /** `rfind` returns the last occurrence, and -1 only when there is none. */
  lemma {:induction false} RFindIsLast(s: string, c: char)
    ensures forall j :: RFind(s, c) < j < |s| ==> s[j] != c
  {
    if s != [] && s[|s| - 1] != c {
      RFindIsLast(s[..|s| - 1], c);
    }
  }

  /** `s.lstrip()` */
  function LStrip(s: string): (r: string)
    ensures |r| <= |s| && r == s[|s| - |r|..]
    ensures r == [] || !IsSpace(r[0])
    ensures forall i :: 0 <= i < |s| - |r| ==> IsSpace(s[i])
  {
    if s != [] && IsSpace(s[0]) then LStrip(s[1..]) else s
  }

  /** `s.rstrip()` */
  function RStrip(s: string): (r: string)
    ensures |r| <= |s| && r == s[..|r|]
    ensures r == [] || !IsSpace(r[|r| - 1])
    ensures forall i :: |r| <= i < |s| ==> IsSpace(s[i])
  {
    if s != [] && IsSpace(s[|s| - 1]) then RStrip(s[..|s| - 1]) else s
  }

  /** `s.strip()`: the text between the leading and the trailing whitespace. */
  function Strip(s: string): (r: string)
    ensures r == [] <==> IsBlank(s)
    ensures r == [] || (!IsSpace(r[0]) && !IsSpace(r[|r| - 1]))
    ensures |r| <= |s|
  {
    var l := LStrip(s);
    var r := RStrip(l);
    assert r == [] ==> IsBlank(s) by {
      if r == [] {
        forall i | 0 <= i < |s| ensures IsSpace(s[i]) {
          if i >= |s| - |l| { assert s[i] == l[i - (|s| - |l|)]; }
        }
      }
    }
    assert r != [] ==> s[|s| - |l|] == r[0];
    r
  }

  /** Length of the maximal run of non-whitespace characters at the start of `s`. */
  function WordLength(s: string): (n: nat)
    ensures n <= |s| && NoSpace(s[..n])
    ensures n < |s| ==> IsSpace(s[n])
  {
    if s == [] || IsSpace(s[0]) then 0
    else
      var k := WordLength(s[1..]);
      assert s[..k + 1] == [s[0]] + s[1..][..k];
      k + 1
  }

  /** `s.split()`: the maximal runs of non-whitespace characters, in order. */
  function Words(s: string): (ws: seq<string>)
    decreases |s|
  {
    var t := LStrip(s);
    if t == [] then []
    else
      var n := WordLength(t);
      [t[..n]] + Words(t[n..])
  }

  /** Every word of `s.split()` is non-empty and free of whitespace. */
  lemma {:induction false} WordsAreWords(s: string)
    ensures forall i :: 0 <= i < |Words(s)| ==> Words(s)[i] != [] && NoSpace(Words(s)[i])
    decreases |s|
  {
    var t := LStrip(s);
    if t != [] {
      WordsAreWords(t[WordLength(t)..]);
    }
  }

  /** `s.split()` is empty exactly when `s` is blank. */
  lemma {:induction false} WordsEmptyIffBlank(s: string)
    ensures Words(s) == [] <==> IsBlank(s)
  {
    var t := LStrip(s);
    if t != [] {
      assert !IsSpace(s[|s| - |t|]);
    }
  }

  /** `' '.join(ws)` */
  function JoinSpaces(ws: seq<string>): string {
    if ws == [] then ""
    else if |ws| == 1 then ws[0]
    else ws[0] + " " + JoinSpaces(ws[1..])
  }

  lemma WordLengthOfJoin(w: string, rest: string)
    requires w != [] && NoSpace(w)
    requires rest == [] || IsSpace(rest[0])
    ensures WordLength(w + rest) == |w|
    decreases |w|
  {
    if |w| > 1 {
      assert (w + rest)[1..] == w[1..] + rest;
      WordLengthOfJoin(w[1..], rest);
    } else {
      assert (w + rest)[1..] == rest;
    }
  }

  lemma WordsOfWordThenRest(w: string, rest: string)
    requires w != [] && NoSpace(w)
    requires rest == [] || IsSpace(rest[0])
    ensures Words(w + rest) == [w] + Words(rest)
  {
    var s := w + rest;
    assert LStrip(s) == s;
    WordLengthOfJoin(w, rest);
    assert s[..|w|] == w;
    assert s[|w|..] == rest;
  }

  lemma WordsOfLeadingSpace(tail: string)
    ensures Words(" " + tail) == Words(tail)
  {
    assert (" " + tail)[1..] == tail;
    assert LStrip(" " + tail) == LStrip(tail);
  }

  lemma WordsOfOneWord(w: string)
    requires w != [] && NoSpace(w)
    ensures Words(w) == [w]
  {
    WordsOfWordThenRest(w, "");
    assert w + "" == w;
  }

  lemma WordsOfJoinSpacesStep(w: string, more: seq<string>)
    requires more != []
    requires w != [] && NoSpace(w)
    requires Words(JoinSpaces(more)) == more
    ensures Words(JoinSpaces([w] + more)) == [w] + more
  {
    var tail := JoinSpaces(more);
    assert ([w] + more)[1..] == more;
    assert JoinSpaces([w] + more) == w + (" " + tail);
    WordsOfWordThenRest(w, " " + tail);
    WordsOfLeadingSpace(tail);
  }

  /** `' '.join` followed by `split()` gives back the words. */
  lemma {:induction false} WordsOfJoinSpaces(ws: seq<string>)
    requires forall i :: 0 <= i < |ws| ==> ws[i] != [] && NoSpace(ws[i])
    ensures Words(JoinSpaces(ws)) == ws
    decreases |ws|
  {
    if |ws| == 1 {
      WordsOfOneWord(ws[0]);
    } else if |ws| >= 2 {
      var more := ws[1..];
      assert forall i :: 0 <= i < |more| ==> more[i] == ws[i + 1];
      WordsOfJoinSpaces(more);
      WordsOfJoinSpacesStep(ws[0], more);
      HeadAndTail(ws);
    }
  }

  /** A non-empty sequence is its first element followed by the rest. */
  lemma HeadAndTail<T>(xs: seq<T>)
    requires xs != []
    ensures xs == [xs[0]] + xs[1..]
  {
  }

  /** `s.split(sep)`: the pieces between occurrences of `sep`. */
  function SplitOn(s: string, sep: char): (parts: seq<string>)
    ensures |parts| >= 1
    decreases |s|
  {
    var k := Find(s, sep);
    if k < 0 then [s] else [s[..k]] + SplitOn(s[k + 1..], sep)
  }

  /** `sep.join(parts)` */
  function JoinOn(parts: seq<string>, sep: char): string
    requires |parts| >= 1
  {
    if |parts| == 1 then parts[0] else parts[0] + [sep] + JoinOn(parts[1..], sep)
  }

  /** Splitting on a separator and joining with it again gives back the text. */
  lemma {:induction false} JoinOnSplitOn(s: string, sep: char)
    ensures JoinOn(SplitOn(s, sep), sep) == s
    decreases |s|
  {
    var k := Find(s, sep);
    if k >= 0 {
      var rest := s[k + 1..];
      JoinOnSplitOn(rest, sep);
      assert SplitOn(s, sep) == [s[..k]] + SplitOn(rest, sep);
      JoinOnCons(s[..k], SplitOn(rest, sep), sep);
      SplitAround(s, k);
    } else {
      assert SplitOn(s, sep) == [s];
    }
  }

  lemma JoinOnCons(head: string, tail: seq<string>, sep: char)
    requires |tail| >= 1
    ensures JoinOn([head] + tail, sep) == head + [sep] + JoinOn(tail, sep)
  {
    assert ([head] + tail)[1..] == tail;
  }

  /** A sequence is what lies before index `k`, the element there, and what follows. */
  lemma SplitAround<T>(s: seq<T>, k: int)
    requires 0 <= k < |s|
    ensures s == s[..k] + [s[k]] + s[k + 1..]
  {
  }

  /** The length of a line break starting at `s[i]` (2 for "\r\n"), given one starts there. */
  function BreakLength(s: string, i: nat): (n: nat)
    requires i < |s| && IsLineBreak(s[i])
    ensures 1 <= n <= 2 && i + n <= |s|
  {
    if s[i] == '\r' && i + 1 < |s| && s[i + 1] == '\n' then 2 else 1
  }

  /** Index of the first line-break character, or |s|. */
  function LineEnd(s: string): (n: nat)
    ensures n <= |s|
    ensures forall i :: 0 <= i < n ==> !IsLineBreak(s[i])
    ensures n < |s| ==> IsLineBreak(s[n])
  {
    if s == [] || IsLineBreak(s[0]) then 0 else LineEnd(s[1..]) + 1
  }

  /** `s.splitlines()`: the lines of `s` without their terminators; no trailing empty line. */
  function SplitLines(s: string): (lines: seq<string>)
    ensures forall j, k :: 0 <= j < |lines| && 0 <= k < |lines[j]| ==> !IsLineBreak(lines[j][k])
    ensures |lines| <= |s|
    ensures lines == [] <==> s == []
    decreases |s|
  {
    if s == [] then []
    else
      var n := LineEnd(s);
      if n == |s| then [s]
      else [s[..n]] + SplitLines(s[n + BreakLength(s, n)..])
  }

  /** Text without a line break is a single line (or none, when empty). */
  lemma SplitLinesOfOneLine(s: string)
    requires s != []
    requires forall i :: 0 <= i < |s| ==> !IsLineBreak(s[i])
    ensures SplitLines(s) == [s]
  {
    assert LineEnd(s) == |s|;
  }

  /** ASCII `c.lower()` */
  function LowerChar(c: char): (d: char)
    ensures 'A' <= c <= 'Z' ==> 'a' <= d <= 'z'
    ensures !('A' <= c <= 'Z') ==> d == c
  {
    if 'A' <= c <= 'Z' then (c as int + 32) as char else c
  }

  /** `s.lower()` over ASCII letters. */
  function Lower(s: string): (r: string)
    ensures |r| == |s|
    ensures forall i :: 0 <= i < |s| ==> r[i] == LowerChar(s[i])
  {
    if s == [] then [] else [LowerChar(s[0])] + Lower(s[1..])
  }

  predicate IsDigits(s: string) {
    s != [] && forall i :: 0 <= i < |s| ==> IsDigit(s[i])
  }

  /** The value of a string of decimal digits. */
  function DigitsValue(s: string): (n: nat)
    requires forall i :: 0 <= i < |s| ==> IsDigit(s[i])
  {
    if s == [] then 0
    else
      assert IsDigit(s[|s| - 1]);
      DigitsValue(s[..|s| - 1]) * 10 + (s[|s| - 1] as int - '0' as int)
  }

  /** `int(t)` for a token without whitespace: an optional sign and at least one digit. */
  function ParseInt(t: string): (r: Option<int>)
    ensures r.Some? <==> IsDigits(t) || (|t| >= 2 && (t[0] == '+' || t[0] == '-') && IsDigits(t[1..]))
    ensures r.Some? && IsDigits(t) ==> r.value == DigitsValue(t) >= 0
    ensures r.Some? && t[0] == '-' ==> r.value == -(DigitsValue(t[1..]) as int) <= 0
  {
    if IsDigits(t) then Some(DigitsValue(t))
    else if |t| >= 2 && t[0] == '+' && IsDigits(t[1..]) then Some(DigitsValue(t[1..]))
    else if |t| >= 2 && t[0] == '-' && IsDigits(t[1..]) then Some(-(DigitsValue(t[1..]) as int))
    else None
  }

  /** `os.path.basename(p)`: the text after the last '/'. */
  function Basename(p: string): (b: string)
    ensures EndsWith(p, b)
    ensures |b| < |p| ==> p[|p| - |b| - 1] == '/'
  {
    p[RFind(p, '/') + 1..]
  }

  /** A suffix free of '/' is a suffix of the base name exactly when it is a suffix of the path. */
  lemma BasenameEndsWith(p: string, suffix: string)
    requires '/' !in suffix
    ensures EndsWith(Basename(p), suffix) <==> EndsWith(p, suffix)
  {
    var b := Basename(p);
    RFindIsLast(p, '/');
    assert '/' !in b by {
      forall j | 0 <= j < |b| ensures b[j] != '/' { assert b[j] == p[|p| - |b| + j]; }
    }
    if EndsWith(b, suffix) {
      assert p[|p| - |suffix|..] == b[|b| - |suffix|..];
    }
  }
}
