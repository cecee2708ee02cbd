/**
 * The few JavaScript built-ins the screens rely on, given a meaning in Dafny:
 * optional values, the number-or-string cells of a stored scores object,
 * String.prototype.startsWith / replace / split / trim, Array.prototype.join
 * and filter, parseInt and Number on decimal integer strings, and the
 * integer-to-decimal conversion of template literals.
 */
module Js {

  datatype Option<T> = None | Some(value: T) {
    /** `x ?? d` / `x || d` for a value that is either present or absent. */
    function GetOr(default: T): T {
      if Some? then value else default
    }
  }

  /** A value found in a stored scores object: a JavaScript number or string. */
  datatype Cell = Num(n: int) | Text(t: string)

  // ---------------------------------------------------------------------------
  // Characters

  /** The characters String.prototype.trim removes and the regex class \s matches. */
  predicate IsWhitespace(c: char) {
    c == ' ' || c == '\t' || c == '\n' || c == '\U{000B}' || c == '\U{000C}' || c == '\r'
    || c == '\U{00A0}' || c == '\U{1680}' || ('\U{2000}' <= c <= '\U{200A}')
    || c == '\U{2028}' || c == '\U{2029}' || c == '\U{202F}' || c == '\U{205F}'
    || c == '\U{3000}' || c == '\U{FEFF}'
  }

  /** The characters the regex wildcard `.` does not match. */
  predicate IsLineTerminator(c: char) {
    c == '\n' || c == '\r' || c == '\U{2028}' || c == '\U{2029}'
  }

  predicate IsDigit(c: char) {
    '0' <= c <= '9'
  }

  function DigitValue(c: char): nat
    requires IsDigit(c)
  {
    (c as int) - ('0' as int)
  }

  function Digit(d: nat): char
    requires d < 10
  {
    (('0' as int) + d) as char
  }

  // ---------------------------------------------------------------------------
  // Strings

  predicate StartsWith(s: string, p: string) {
    |p| <= |s| && s[..|p|] == p
  }

  /** A string that differs from `p` at some position within both does not start with `p`. */
  lemma DiffersAt(s: string, p: string, k: nat)
    requires k < |p| && k < |s| && s[k] != p[k]
    ensures !StartsWith(s, p)
  {
    if |p| <= |s| {
      assert s[..|p|][k] == s[k];
    }
  }

  /** The first index at or after `i` where `p` occurs in `s`. */
  function FindFrom(s: string, p: string, i: nat): (r: Option<nat>)
    ensures r.Some? ==> i <= r.value && r.value + |p| <= |s| && s[r.value..r.value + |p|] == p
    decreases |s| - i
  {
    if i + |p| > |s| then None
    else if s[i..i + |p|] == p then Some(i)
    else FindFrom(s, p, i + 1)
  }

  /** `s.replace(p, r)` with a string pattern: only the first occurrence is replaced. */
  function ReplaceFirst(s: string, p: string, r: string): string {
    match FindFrom(s, p, 0)
    case None => s
    case Some(i) => s[..i] + r + s[i + |p|..]
  }

  /** On a string that starts with the pattern, replacing its first occurrence strips the prefix. */
  lemma ReplaceFirstOfPrefix(s: string, p: string, r: string)
    requires StartsWith(s, p)
    ensures ReplaceFirst(s, p, r) == r + s[|p|..]
  {
    assert s[0..|p|] == p;
  }

  /**
   * The first index at or after `j` holding ')', provided no line terminator
   * comes before it (the lazy `.*?` cannot cross one).
   */
  function CloseParenFrom(s: string, j: nat): (r: Option<nat>)
    ensures r.Some? ==> j <= r.value < |s| && s[r.value] == ')'
    ensures r.Some? ==> forall k :: j <= k < r.value ==> s[k] != ')' && !IsLineTerminator(s[k])
    decreases |s| - j
  {
    if j >= |s| then None
    else if s[j] == ')' then Some(j)
    else if IsLineTerminator(s[j]) then None
    else CloseParenFrom(s, j + 1)
  }

  /** The group captured by the first match of /\((.*?)\)/ in `s` at or after `i`. */
  function ParenGroupFrom(s: string, i: nat): Option<string>
    decreases |s| - i
  {
    if i >= |s| then None
    else if s[i] == '(' then
      match CloseParenFrom(s, i + 1)
      case Some(j) => Some(s[i + 1..j])
      case None => ParenGroupFrom(s, i + 1)
    else ParenGroupFrom(s, i + 1)
  }

  /** `s.match(/\((.*?)\)/)?.[1]`. */
  function ParenGroup(s: string): Option<string> {
    ParenGroupFrom(s, 0)
  }

  /** A text with no ')' and no line terminator is scanned to the ')' that follows it. */
  lemma {:induction false} CloseParenAfter(s: string, j: nat, x: string)
    requires j + |x| < |s| && s[j..j + |x|] == x && s[j + |x|] == ')'
    requires forall k :: 0 <= k < |x| ==> x[k] != ')' && !IsLineTerminator(x[k])
    ensures CloseParenFrom(s, j) == Some(j + |x|)
    decreases |x|
  {
    if |x| > 0 {
      assert s[j] == x[0];
      assert s[j + 1..j + 1 + |x[1..]|] == x[1..];
      CloseParenAfter(s, j + 1, x[1..]);
    }
  }

  /** Positions before the first '(' are skipped by the regex search. */
  lemma {:induction false} ParenGroupSkips(s: string, i: nat, k: nat)
    requires i <= k <= |s|
    requires forall m :: i <= m < k ==> s[m] != '('
    ensures ParenGroupFrom(s, i) == ParenGroupFrom(s, k)
    decreases k - i
  {
    if i < k {
      ParenGroupSkips(s, i + 1, k);
    }
  }

  /** Removes leading whitespace. */
  function TrimStart(s: string): (r: string)
    ensures |r| <= |s| && r == s[|s| - |r|..]
    ensures |r| > 0 ==> !IsWhitespace(r[0])
    ensures |s| > 0 && !IsWhitespace(s[0]) ==> r == s
    ensures forall k :: 0 <= k < |s| - |r| ==> IsWhitespace(s[k])
    decreases |s|
  {
    if |s| > 0 && IsWhitespace(s[0]) then
      var r := TrimStart(s[1..]);
      assert forall k :: 1 <= k < |s| ==> s[k] == s[1..][k - 1];
      r
    else s
  }

  /** Removes trailing whitespace. */
  function TrimEnd(s: string): (r: string)
    ensures |r| <= |s| && r == s[..|r|]
    ensures |r| > 0 ==> !IsWhitespace(r[|r| - 1])
    ensures |s| > 0 && !IsWhitespace(s[|s| - 1]) ==> r == s
    ensures forall k :: |r| <= k < |s| ==> IsWhitespace(s[k])
    decreases |s|
  {
    if |s| > 0 && IsWhitespace(s[|s| - 1]) then
      var r := TrimEnd(s[..|s| - 1]);
      assert forall k :: 0 <= k < |s| - 1 ==> s[k] == s[..|s| - 1][k];
      r
    else s
  }

  /** `s.trim()`. */
  function Trim(s: string): string {
    TrimEnd(TrimStart(s))
  }

  predicate NotWhitespace(c: char) {
    !IsWhitespace(c)
  }

  /** `s.replace(/\s/g, '')`. */
  function RemoveWhitespace(s: string): (r: string)
    ensures forall k :: 0 <= k < |r| ==> !IsWhitespace(r[k])
    ensures forall k :: 0 <= k < |s| && !IsWhitespace(s[k]) ==> s[k] in r
    decreases |s|
  {
    if |s| == 0 then ""
    else
      var rest := RemoveWhitespace(s[1..]);
      if IsWhitespace(s[0]) then rest else [s[0]] + rest
  }

  /** Removing whitespace keeps exactly the other characters, in order, each as often as in `s`. */
  lemma {:induction false} RemoveWhitespaceIsFilter(s: string)
    ensures RemoveWhitespace(s) == Filter(s, NotWhitespace)
    decreases |s|
  {
    if |s| > 0 {
      RemoveWhitespaceIsFilter(s[1..]);
    }
  }

  /** `s.split(sep)` for a one-character separator. */
  function Split(s: string, sep: char): (parts: seq<string>)
    ensures |parts| >= 1
    ensures Join(parts, sep) == s
    ensures forall i :: 0 <= i < |parts| ==> sep !in parts[i]
    decreases |s|
  {
    if |s| == 0 then [""]
    else
      var rest := Split(s[1..], sep);
      if s[0] == sep then
        JoinCons("", rest, sep);
        [""] + rest
      else
        var parts := [[s[0]] + rest[0]] + rest[1..];
        JoinCons(rest[0], rest[1..], sep);
        JoinCons([s[0]] + rest[0], rest[1..], sep);
        assert rest == [rest[0]] + rest[1..];
        assert parts[1..] == rest[1..];
        parts
  }

  /** Joining a first part onto the rest puts the separator between them when there is a rest. */
  lemma JoinCons(p: string, rest: seq<string>, sep: char)
    ensures Join([p] + rest, sep) == if |rest| == 0 then p else p + [sep] + Join(rest, sep)
  {
    assert ([p] + rest)[1..] == rest;
  }

  /** `parts.join(sep)` for a one-character separator. */
  function Join(parts: seq<string>, sep: char): string
    decreases |parts|
  {
    if |parts| == 0 then ""
    else if |parts| == 1 then parts[0]
    else parts[0] + [sep] + Join(parts[1..], sep)
  }

  lemma {:induction false} SplitWithoutSeparator(p: string, sep: char)
    requires sep !in p
    ensures Split(p, sep) == [p]
    decreases |p|
  {
    if |p| > 0 {
      SplitWithoutSeparator(p[1..], sep);
      assert [p[0]] + p[1..] == p;
    }
  }

  lemma {:induction false} SplitAtSeparator(p: string, rest: string, sep: char)
    requires sep !in p
    ensures Split(p + [sep] + rest, sep) == [p] + Split(rest, sep)
    decreases |p|
  {
    var s := p + [sep] + rest;
    if |p| == 0 {
      assert s[1..] == rest;
    } else {
      assert s[1..] == p[1..] + [sep] + rest;
      SplitAtSeparator(p[1..], rest, sep);
      assert [p[0]] + p[1..] == p;
    }
  }

  /** Splitting a join recovers the parts, provided no part contains the separator. */
  lemma {:induction false} SplitJoin(parts: seq<string>, sep: char)
    requires |parts| >= 1
    requires forall i :: 0 <= i < |parts| ==> sep !in parts[i]
    ensures Split(Join(parts, sep), sep) == parts
    decreases |parts|
  {
    if |parts| == 1 {
      SplitWithoutSeparator(parts[0], sep);
    } else {
      SplitJoin(parts[1..], sep);
      SplitAtSeparator(parts[0], Join(parts[1..], sep), sep);
      assert [parts[0]] + parts[1..] == parts;
    }
  }

  /** A character that is not the separator occurs in a join only if it occurs in a part. */
  lemma {:induction false} JoinAvoids(parts: seq<string>, sep: char, c: char)
    requires c != sep
    requires forall i :: 0 <= i < |parts| ==> c !in parts[i]
    ensures c !in Join(parts, sep)
    decreases |parts|
  {
    if |parts| > 1 {
      JoinAvoids(parts[1..], sep, c);
      assert c !in parts[0] + [sep];
    }
  }

  // ---------------------------------------------------------------------------
  // Integers and their decimal text

  /** The decimal digits of `n`, most significant first, as `String(n)` writes them. */
  function NatToString(n: nat): (s: string)
    ensures |s| > 0
    ensures forall k :: 0 <= k < |s| ==> IsDigit(s[k])
    decreases n
  {
    if n < 10 then [Digit(n)] else NatToString(n / 10) + [Digit(n % 10)]
  }

  /** `String(n)` / `${n}` for an integer. */
  function IntToString(n: int): string {
    if n < 0 then "-" + NatToString(-n) else NatToString(n)
  }

  /** The value of a string of decimal digits. */
  function DigitsValue(d: string): nat
    requires forall k :: 0 <= k < |d| ==> IsDigit(d[k])
    decreases |d|
  {
    if |d| == 0 then 0 else DigitsValue(d[..|d| - 1]) * 10 + DigitValue(d[|d| - 1])
  }

  /** The length of the run of decimal digits at the start of `s`. */
  function DigitRun(s: string): (k: nat)
    ensures k <= |s|
    ensures forall j :: 0 <= j < k ==> IsDigit(s[j])
    ensures k < |s| ==> !IsDigit(s[k])
    decreases |s|
  {
    if |s| == 0 || !IsDigit(s[0]) then 0 else 1 + DigitRun(s[1..])
  }

  /**
   * `parseInt(s)` on decimal text: leading whitespace is skipped, an optional
   * sign is read, then the longest run of digits; anything after it is ignored.
   * No digits at all gives NaN, here None.
   */
  function ParseInt(s: string): Option<int> {
    ParseSigned(TrimStart(s))
  }

  function ParseSigned(t: string): Option<int> {
    if |t| > 0 && t[0] == '-' then
      match ParseDigits(t[1..])
      case Some(v) => Some(-v)
      case None => None
    else if |t| > 0 && t[0] == '+' then ParseDigits(t[1..])
    else ParseDigits(t)
  }

  /** The value of the leading run of digits, if there is one. */
  function ParseDigits(b: string): Option<int> {
    var k := DigitRun(b);
    if k == 0 then None else Some(DigitsValue(b[..k]))
  }

  /**
   * `Number(s)` on decimal text: surrounding whitespace is ignored, an empty or
   * blank string is 0, and the rest must be an optional sign and digits only.
   */
  function NumberOf(s: string): Option<int> {
    var t := Trim(s);
    if t == "" then Some(0)
    else
      var signed := t[0] == '-' || t[0] == '+';
      var body := if signed then t[1..] else t;
      if |body| > 0 && DigitRun(body) == |body| then
        var v: int := DigitsValue(body);
        Some(if t[0] == '-' then -v else v)
      else None
  }

  lemma {:induction false} NatToStringValue(n: nat)
    ensures DigitsValue(NatToString(n)) == n
    decreases n
  {
    var s := NatToString(n);
    if n >= 10 {
      assert s[..|s| - 1] == NatToString(n / 10);
      NatToStringValue(n / 10);
    }
  }

  /** parseInt reads a whole string of digits, with or without a minus sign. */
  lemma ParseIntOfDigits(d: string)
    requires |d| > 0 && forall k :: 0 <= k < |d| ==> IsDigit(d[k])
    ensures ParseInt(d) == Some(DigitsValue(d) as int)
    ensures ParseInt("-" + d) == Some(-(DigitsValue(d) as int))
  {
    assert d[..|d|] == d;
    assert ParseDigits(d) == Some(DigitsValue(d) as int);
    assert !IsWhitespace(d[0]);
    assert TrimStart(d) == d;
    var m := "-" + d;
    assert m[0] == '-' && !IsWhitespace(m[0]);
    assert TrimStart(m) == m;
    assert m[1..] == d;
  }

  /** Writing an integer in decimal and reading it back with parseInt gives the integer. */
  lemma ParseIntOfIntToString(n: int)
    ensures ParseInt(IntToString(n)) == Some(n)
  {
    var m: nat := if n < 0 then -n else n;
    var d := NatToString(m);
    assert IntToString(n) == if n < 0 then "-" + d else d;
    NatToStringValue(m);
    ParseIntOfDigits(d);
  }

  /** The decimal text of an integer holds only digits and '-'. */
  lemma IntToStringChars(n: int, c: char)
    requires c != '-' && !IsDigit(c)
    ensures c !in IntToString(n)
  {
    var d := if n < 0 then NatToString(-n) else NatToString(n);
    assert c !in d;
  }

  // ---------------------------------------------------------------------------
  // Sequences

  /** `a` is `b` with some elements left out, order kept. */
  predicate Subsequence<T(==)>(a: seq<T>, b: seq<T>)
    decreases |b|
  {
    |a| == 0 || (|b| > 0 && (if a[0] == b[0] then Subsequence(a[1..], b[1..]) else Subsequence(a, b[1..])))
  }

  lemma {:induction false} SubsequenceRefl<T>(s: seq<T>)
    ensures Subsequence(s, s)
    decreases |s|
  {
    if |s| > 0 {
      SubsequenceRefl(s[1..]);
    }
  }

  /** `s.filter(p)`. */
  function Filter<T(==)>(s: seq<T>, p: T -> bool): (r: seq<T>)
    ensures forall i :: 0 <= i < |r| ==> r[i] in s && p(r[i])
    ensures forall i :: 0 <= i < |s| && p(s[i]) ==> s[i] in r
    ensures forall x :: x in s ==> multiset(r)[x] == if p(x) then multiset(s)[x] else 0
    ensures |r| <= |s|
    ensures Subsequence(r, s)
    decreases |s|
  {
    if |s| == 0 then []
    else
      var rest := Filter(s[1..], p);
      FilterCountsStep(s, rest, p);
      FilterStep(s, rest, p);
      if p(s[0]) then [s[0]] + rest else rest
  }

  /** One step of `Filter`: keeping or dropping the head keeps membership and order. */
  lemma FilterStep<T>(s: seq<T>, rest: seq<T>, p: T -> bool)
    requires |s| > 0
    requires forall i :: 0 <= i < |rest| ==> rest[i] in s[1..] && p(rest[i])
    requires forall i :: 0 <= i < |s[1..]| && p(s[1..][i]) ==> s[1..][i] in rest
    requires |rest| <= |s[1..]| && Subsequence(rest, s[1..])
    ensures var r := if p(s[0]) then [s[0]] + rest else rest;
            (forall i :: 0 <= i < |r| ==> r[i] in s && p(r[i]))
            && (forall i :: 0 <= i < |s| && p(s[i]) ==> s[i] in r)
            && |r| <= |s| && Subsequence(r, s)
  {
    var r := if p(s[0]) then [s[0]] + rest else rest;
    forall i | 0 < i < |s|
      ensures s[i] == s[1..][i - 1]
    {
    }
    if p(s[0]) {
      assert r[1..] == rest;
      forall i | 0 < i < |r|
        ensures r[i] == rest[i - 1]
      {
      }
    } else {
      assert |rest| == 0 || rest[0] != s[0];
    }
  }

  /** One step of `Filter`'s count: the head is kept once more exactly when it passes. */
  lemma FilterCountsStep<T>(s: seq<T>, rest: seq<T>, p: T -> bool)
    requires |s| > 0
    requires forall i :: 0 <= i < |rest| ==> rest[i] in s[1..]
    requires forall x :: x in s[1..] ==> multiset(rest)[x] == if p(x) then multiset(s[1..])[x] else 0
    ensures var r := if p(s[0]) then [s[0]] + rest else rest;
            forall x :: x in s ==> multiset(r)[x] == if p(x) then multiset(s)[x] else 0
  {
    assert s == [s[0]] + s[1..];
    var r := if p(s[0]) then [s[0]] + rest else rest;
    forall x | x in s
      ensures multiset(r)[x] == if p(x) then multiset(s)[x] else 0
    {
      if x !in s[1..] {
        assert x !in rest;
      }
    }
  }
}
