/** The JavaScript string built-ins the conversion core uses
    (`trim`, `startsWith`, `endsWith`, `includes`, `split`, `join`,
    number-to-string), stated over Dafny strings. */
module JsString {

  /** The code points ECMAScript classes as WhiteSpace or LineTerminator:
      exactly the characters `String.prototype.trim` removes. */
  predicate IsWhitespace(c: char) {
    || c == '\t' || c == '\n' || c == '\U{B}' || c == '\U{C}' || c == '\r' || c == ' '
    || c == '\U{A0}' || c == '\U{1680}' || ('\U{2000}' <= c <= '\U{200A}')
    || c == '\U{2028}' || c == '\U{2029}' || c == '\U{202F}' || c == '\U{205F}'
    || c == '\U{3000}' || c == '\U{FEFF}'
  }

  /** `!s.trim()`: the string is empty or whitespace only. */
  predicate IsBlank(s: string) {
    forall i :: 0 <= i < |s| ==> IsWhitespace(s[i])
  }

  /** Drops the leading whitespace: the longest whitespace prefix goes. */
  function TrimStart(s: string): (r: string)
    ensures |r| <= |s| && r == s[|s| - |r|..]
    ensures forall i :: 0 <= i < |s| - |r| ==> IsWhitespace(s[i])
    ensures r == [] || !IsWhitespace(r[0])
    decreases |s|
  {
    if |s| > 0 && IsWhitespace(s[0]) then TrimStart(s[1..]) else s
  }

  /** Drops the trailing whitespace: the longest whitespace suffix goes. */
  function TrimEnd(s: string): (r: string)
    ensures |r| <= |s| && r == s[..|r|]
    ensures forall i :: |r| <= i < |s| ==> IsWhitespace(s[i])
    ensures r == [] || !IsWhitespace(r[|r| - 1])
    decreases |s|
  {
    if |s| > 0 && IsWhitespace(s[|s| - 1]) then TrimEnd(s[..|s| - 1]) else s
  }

  /** The string neither starts nor ends with whitespace. */
  predicate IsTrimmed(s: string) {
    s == [] || (!IsWhitespace(s[0]) && !IsWhitespace(s[|s| - 1]))
  }

  /** `s.trim()`: the result neither starts nor ends with whitespace, and it
      is empty exactly when `s` is blank. */
  function Trim(s: string): (r: string)
    ensures IsTrimmed(r)
    ensures r == [] <==> IsBlank(s)
  {
    var t := TrimStart(s);
    assert t == [] ==> IsBlank(s);
    assert t != [] ==> !IsWhitespace(t[0]) && !IsWhitespace(s[|s| - |t|]);
    TrimEnd(t)
  }

  /** A string that neither starts nor ends with whitespace is its own trim. */
  lemma {:induction false} TrimOfTrimmed(s: string)
    requires IsTrimmed(s)
    ensures Trim(s) == s
  {
  }

  /** Leading whitespace in front of a non-whitespace character is exactly
      what `trimStart` drops. */
  lemma {:induction false} TrimStartBlankPrefix(w: string, t: string)
    requires IsBlank(w)
    requires t != [] && !IsWhitespace(t[0])
    ensures TrimStart(w + t) == t
    decreases |w|
  {
    if |w| > 0 {
      assert (w + t)[1..] == w[1..] + t;
      TrimStartBlankPrefix(w[1..], t);
    } else {
      assert w + t == t;
    }
  }

  /** `s.startsWith(p)` */
  predicate StartsWith(s: string, p: string) {
    |p| <= |s| && s[..|p|] == p
  }

  /** `s.endsWith(p)` */
  predicate EndsWith(s: string, p: string) {
    |p| <= |s| && s[|s| - |p|..] == p
  }

  /** Ending with a one-character string is a test of the last character. */
  lemma {:induction false} EndsWithChar(s: string, c: char)
    ensures EndsWith(s, [c]) <==> |s| > 0 && s[|s| - 1] == c
  {
    if |s| > 0 {
      assert s[|s| - 1..] == [s[|s| - 1]];
    }
  }

  /** `s.includes(p)`: `p` occurs in `s` at some position. */
  predicate Includes(s: string, p: string)
    ensures Includes(s, p) ==> |p| <= |s|
    decreases |s|
  {
    StartsWith(s, p) || (|s| > 0 && Includes(s[1..], p))
  }

  /** Appending to a string keeps every occurrence in it. */
  lemma {:induction false} IncludesAppend(s: string, t: string, p: string)
    requires Includes(s, p)
    ensures Includes(s + t, p)
    decreases |s|
  {
    if StartsWith(s, p) {
      assert (s + t)[..|p|] == s[..|p|];
    } else {
      assert (s + t)[1..] == s[1..] + t;
      IncludesAppend(s[1..], t, p);
    }
  }

  /** `s.indexOf(c)`: the first position of `c`, or -1 when it does not occur. */
  function IndexOf(s: string, c: char): (i: int)
    ensures -1 <= i < |s|
    ensures i >= 0 ==> s[i] == c
  {
    if |s| == 0 then -1
    else if s[0] == c then 0
    else
      var j := IndexOf(s[1..], c);
      if j < 0 then -1 else 1 + j
  }

  /** `indexOf` finds a position exactly when the character occurs. */
  lemma {:induction false} IndexOfFound(s: string, c: char)
    ensures IndexOf(s, c) >= 0 <==> c in s
    decreases |s|
  {
    if |s| > 0 && s[0] != c {
      IndexOfFound(s[1..], c);
      assert c in s <==> c in s[1..] by {
        assert s == [s[0]] + s[1..];
      }
    }
  }

  /** In `x`, then `c`, then `y`, the first `c` is the first one of `x`,
      or else the one placed after `x`. */
  lemma {:induction false} IndexOfBefore(x: string, c: char, y: string)
    ensures IndexOf(x + [c] + y, c) == if IndexOf(x, c) >= 0 then IndexOf(x, c) else |x|
    decreases |x|
  {
    if |x| > 0 && x[0] != c {
      assert (x + [c] + y)[1..] == x[1..] + [c] + y;
      IndexOfBefore(x[1..], c, y);
    }
  }

  /** `s.split(sep)` for a one-character separator: the pieces between
      separators, always at least one. */
  function Split(s: string, sep: char): (parts: seq<string>)
    ensures |parts| >= 1
    decreases |s|
  {
    var i := IndexOf(s, sep);
    if i < 0 then [s] else [s[..i]] + Split(s[i + 1..], sep)
  }

  /** `parts.join(sep)` */
  function Join(parts: seq<string>, sep: char): string
  {
    if |parts| == 0 then ""
    else if |parts| == 1 then parts[0]
    else parts[0] + [sep] + Join(parts[1..], sep)
  }

  /** One step of `split`: the first line, then the split of the rest. */
  lemma {:induction false} SplitUnfold(s: string, sep: char)
    requires IndexOf(s, sep) >= 0
    ensures Split(s, sep) == [s[..IndexOf(s, sep)]] + Split(s[IndexOf(s, sep) + 1..], sep)
  {
  }

  /** One step of `join` over at least two parts. */
  lemma {:induction false} JoinCons(a: string, rest: seq<string>, sep: char)
    requires |rest| >= 1
    ensures Join([a] + rest, sep) == a + [sep] + Join(rest, sep)
  {
    assert ([a] + rest)[1..] == rest;
  }

  /** Splitting and joining back with the same separator gives the input. */
  lemma {:induction false} JoinSplit(s: string, sep: char)
    ensures Join(Split(s, sep), sep) == s
    decreases |s|
  {
    var i := IndexOf(s, sep);
    if i >= 0 {
      var head := s[..i];
      var t := s[i + 1..];
      var rest := Split(t, sep);
      SplitUnfold(s, sep);
      JoinCons(head, rest, sep);
      JoinSplit(t, sep);
      assert s == head + [sep] + t;
    }
  }

  /** Splitting at a separator placed between two texts gives the pieces of
      the first followed by the pieces of the second. */
  lemma {:induction false} SplitConcat(x: string, y: string, sep: char)
    ensures Split(x + [sep] + y, sep) == Split(x, sep) + Split(y, sep)
    decreases |x|
  {
    var i := IndexOf(x, sep);
    if i < 0 {
      SplitAtEnd(x, y, sep);
    } else {
      var s := x + [sep] + y;
      var head := x[..i];
      var rest := x[i + 1..];
      var right := Split(y, sep);
      calc {
        Split(s, sep);
        == { IndexOfBefore(x, sep, y); SplitUnfold(s, sep); }
        [s[..i]] + Split(s[i + 1..], sep);
        == { CutAround(x, sep, y, i); }
        [head] + Split(rest + [sep] + y, sep);
        == { SplitConcat(rest, y, sep); }
        [head] + (Split(rest, sep) + right);
        ==
        ([head] + Split(rest, sep)) + right;
        == { SplitUnfold(x, sep); }
        Split(x, sep) + right;
      }
    }
  }

  /** When `x` has no separator, the one placed after it ends the first
      piece. */
  lemma {:induction false} SplitAtEnd(x: string, y: string, sep: char)
    requires IndexOf(x, sep) < 0
    ensures Split(x + [sep] + y, sep) == Split(x, sep) + Split(y, sep)
  {
    var s := x + [sep] + y;
    calc {
      Split(s, sep);
      == { IndexOfBefore(x, sep, y); SplitUnfold(s, sep); }
      [s[..|x|]] + Split(s[|x| + 1..], sep);
      == { CutAround(x, sep, y, |x|); }
      [x] + Split(y, sep);
      == { assert Split(x, sep) == [x]; }
      Split(x, sep) + Split(y, sep);
    }
  }

  /** Cutting `x`, then `c`, then `y` at a position inside `x`, or right
      after it. */
  lemma {:induction false} CutAround(x: string, c: char, y: string, i: nat)
    requires i <= |x|
    ensures (x + [c] + y)[..i] == x[..i]
    ensures i < |x| ==> (x + [c] + y)[i + 1..] == x[i + 1..] + [c] + y
    ensures i == |x| ==> (x + [c] + y)[..i] == x && (x + [c] + y)[i + 1..] == y
  {
  }

  /** A text without the separator is one piece. */
  lemma {:induction false} SplitWithout(s: string, sep: char)
    requires sep !in s
    ensures Split(s, sep) == [s]
  {
    IndexOfFound(s, sep);
  }

  /** The decimal digit for `d`. */
  function DigitChar(d: nat): (c: char)
    requires d < 10
    ensures '0' <= c <= '9'
    ensures DigitValue(c) == d
  {
    ('0' as int + d) as char
  }

  /** The value of a decimal digit character. */
  function DigitValue(c: char): nat
    requires '0' <= c <= '9'
  {
    c as int - '0' as int
  }

  /** The number a string of decimal digits denotes. */
  function DigitsValue(s: string): nat
    requires forall i :: 0 <= i < |s| ==> '0' <= s[i] <= '9'
  {
    if |s| == 0 then 0 else 10 * DigitsValue(s[..|s| - 1]) + DigitValue(s[|s| - 1])
  }

  /** `String(n)` for a non-negative integer: its decimal digits, without
      leading zeros. */
  function NatToString(n: nat): (s: string)
    ensures |s| >= 1
    ensures forall i :: 0 <= i < |s| ==> '0' <= s[i] <= '9'
    ensures |s| > 1 ==> s[0] != '0'
  {
    if n < 10 then [DigitChar(n)] else NatToString(n / 10) + [DigitChar(n % 10)]
  }

  /** The digits `String(n)` prints denote `n`, so different numbers print
      differently. */
  lemma {:induction false} NatToStringValue(n: nat)
    ensures DigitsValue(NatToString(n)) == n
  {
    var s := NatToString(n);
    if n < 10 {
      assert s[..0] == [];
    } else {
      var init := NatToString(n / 10);
      assert s[..|s| - 1] == init;
      NatToStringValue(n / 10);
    }
  }
}
