/** The JavaScript string operations the application relies on:
    whitespace (as `\s` in a regular expression and as `String.prototype.trim`
    see it), trimming, splitting on a separator, upper-casing, and the decimal
    text of an integer (`Number.prototype.toString`). */
module Text {

  /** ECMAScript's WhiteSpace and LineTerminator code points. The regular
      expression class `\s` and `trim` both use exactly this set. */
  predicate IsWhitespace(c: char) {
    || c == '\U{0009}' || c == '\U{000A}' || c == '\U{000B}' || c == '\U{000C}'
    || c == '\U{000D}' || c == '\U{0020}' || c == '\U{00A0}' || c == '\U{1680}'
    || ('\U{2000}' <= c <= '\U{200A}')
    || c == '\U{2028}' || c == '\U{2029}' || c == '\U{202F}' || c == '\U{205F}'
    || c == '\U{3000}' || c == '\U{FEFF}'
  }

  ghost predicate AllWhitespace(s: string) {
    forall i :: 0 <= i < |s| ==> IsWhitespace(s[i])
  }

  /** `trimStart`: drops the leading whitespace. */
  function TrimStart(s: string): (r: string)
    ensures |r| <= |s| && r == s[|s| - |r|..]
    ensures AllWhitespace(s[..|s| - |r|])
    ensures r == [] || !IsWhitespace(r[0])
  {
    if |s| > 0 && IsWhitespace(s[0]) then
      var r := TrimStart(s[1..]);
      assert s[..|s| - |r|] == [s[0]] + s[1..][..|s| - 1 - |r|];
      r
    else s
  }

  /** `trimEnd`: drops the trailing whitespace. */
  function TrimEnd(s: string): (r: string)
    ensures |r| <= |s| && r == s[..|r|]
    ensures AllWhitespace(s[|r|..])
    ensures r == [] || !IsWhitespace(r[|r| - 1])
  {
    if |s| > 0 && IsWhitespace(s[|s| - 1]) then
      var r := TrimEnd(s[..|s| - 1]);
      assert s[|r|..] == s[..|s| - 1][|r|..] + [s[|s| - 1]];
      r
    else s
  }

  /** `trim`: drops whitespace at both ends. */
  function Trim(s: string): (r: string)
    ensures |r| <= |s|
    ensures r == [] <==> AllWhitespace(s)
    ensures r != [] ==> !IsWhitespace(r[0]) && !IsWhitespace(r[|r| - 1])
  {
    var t := TrimStart(s);
    var r := TrimEnd(t);
    assert r == [] ==> AllWhitespace(s) by {
      if r == [] {
        assert s == s[..|s| - |t|] + t;
      }
    }
    r
  }

  /** `r` is what is left of `s` once whitespace runs at both ends are cut:
      a contiguous piece of `s` with only whitespace around it and no
      whitespace at its own ends. */
  ghost predicate IsTrimOf(r: string, s: string) {
    exists a, b :: 0 <= a <= b <= |s| && r == s[a..b]
      && AllWhitespace(s[..a]) && AllWhitespace(s[b..])
      && (r == [] || (!IsWhitespace(r[0]) && !IsWhitespace(r[|r| - 1])))
  }

  /** `Trim` cuts exactly the surrounding whitespace: what remains is the
      infix of the input between two whitespace-only runs. */
  lemma TrimIsInfix(s: string)
    ensures IsTrimOf(Trim(s), s)
  {
    var t := TrimStart(s);
    var r := TrimEnd(t);
    var a := |s| - |t|;
    var b := a + |r|;
    assert r == s[a..b];
    assert s[b..] == t[|r|..];
    assert AllWhitespace(s[b..]);
  }

  /** Trimming twice is trimming once. */
  lemma TrimIdempotent(s: string)
    ensures Trim(Trim(s)) == Trim(s)
  {
    var r := Trim(s);
    if r != [] {
      assert !IsWhitespace(r[0]) && !IsWhitespace(r[|r| - 1]);
      assert TrimStart(r) == r;
      assert TrimEnd(r) == r;
      assert Trim(r) == TrimEnd(TrimStart(r));
    } else {
      assert Trim(r) == TrimEnd(TrimStart([]));
    }
  }

  /** The lower-case letters whose capital sits 32 code points below them:
      the ASCII letters and the accented Latin-1 letters `à`..`þ` except the
      division sign `÷`. */
  predicate IsShiftedLower(c: char) {
    ('a' <= c <= 'z') || ('\U{E0}' <= c <= '\U{FE}' && c != '\U{F7}')
  }

  /** The ASCII and Latin-1 part of `toUpperCase`: each such lower-case
      letter becomes its capital, which is not itself lower-case; every other
      character is kept. */
  function UpperChar(c: char): (u: char)
    ensures IsShiftedLower(c) ==> u as int == c as int - 32 && !IsShiftedLower(u)
    ensures 'a' <= c <= 'z' ==> 'A' <= u <= 'Z'
    ensures !IsShiftedLower(c) ==> u == c
  {
    if IsShiftedLower(c) then (c as int - 32) as char else c
  }

  /** Upper-casing a character twice is upper-casing it once, and the
      accented initials of Spanish names get their capitals. */
  lemma UpperCharExamples(c: char)
    ensures UpperChar(UpperChar(c)) == UpperChar(c)
    ensures UpperChar('\U{F3}') == '\U{D3}' && UpperChar('\U{E1}') == '\U{C1}'
    ensures UpperChar('\U{F1}') == '\U{D1}' && UpperChar('\U{F7}') == '\U{F7}'
  {
  }

  function ToUpper(s: string): (r: string)
    ensures |r| == |s|
    ensures forall i :: 0 <= i < |s| ==> r[i] == UpperChar(s[i])
  {
    seq(|s|, i requires 0 <= i < |s| => UpperChar(s[i]))
  }

  /** `slice(0, n)`: the first `n` characters, or all of them if fewer. */
  function Take(s: string, n: nat): (r: string)
    ensures |r| <= n && |r| <= |s|
    ensures |s| <= n ==> r == s
    ensures |s| > n ==> |r| == n
    ensures r == s[..|r|]
  {
    if |s| <= n then s else s[..n]
  }

  /** `s.split(sep)` for a one-character separator: never empty; a piece for
      every run between separators, including the empty runs around
      consecutive, leading or trailing separators. */
  function Split(s: string, sep: char): (parts: seq<string>)
    ensures |parts| > 0
    decreases |s|
  {
    if |s| == 0 then [""]
    else if s[0] == sep then [""] + Split(s[1..], sep)
    else
      var rest := Split(s[1..], sep);
      [[s[0]] + rest[0]] + rest[1..]
  }

  /** `parts.join(sep)`. */
  function Join(parts: seq<string>, sep: char): string
  {
    if |parts| == 0 then ""
    else if |parts| == 1 then parts[0]
    else parts[0] + [sep] + Join(parts[1..], sep)
  }

  lemma JoinCons(p: string, ps: seq<string>, sep: char)
    requires |ps| > 0
    ensures Join([p] + ps, sep) == p + [sep] + Join(ps, sep)
  {
    assert ([p] + ps)[1..] == ps;
  }

  /** Splitting and joining back on the same separator restores the text. */
  lemma {:induction false} JoinSplit(s: string, sep: char)
    ensures Join(Split(s, sep), sep) == s
    decreases |s|
  {
    if |s| == 0 {
    } else if s[0] == sep {
      JoinSplit(s[1..], sep);
      JoinCons("", Split(s[1..], sep), sep);
      assert s == [sep] + s[1..];
    } else {
      JoinSplit(s[1..], sep);
      JoinPrepend(s[0], Split(s[1..], sep), sep);
      assert s == [s[0]] + s[1..];
    }
  }

  /** Prepending a character to the first piece prepends it to the join. */
  lemma JoinPrepend(c: char, parts: seq<string>, sep: char)
    requires |parts| > 0
    ensures Join([[c] + parts[0]] + parts[1..], sep) == [c] + Join(parts, sep)
  {
    if |parts| > 1 {
      JoinCons([c] + parts[0], parts[1..], sep);
      assert parts == [parts[0]] + parts[1..];
      JoinCons(parts[0], parts[1..], sep);
    }
  }

  /** No piece of a split contains the separator. */
  lemma {:induction false} SplitAvoidsSeparator(s: string, sep: char)
    ensures forall i :: 0 <= i < |Split(s, sep)| ==> sep !in Split(s, sep)[i]
    decreases |s|
  {
    if |s| > 0 {
      SplitAvoidsSeparator(s[1..], sep);
      if s[0] != sep {
        var rest := Split(s[1..], sep);
        assert sep !in rest[0];
        assert sep !in [s[0]] + rest[0];
      }
    }
  }

  function DigitChar(d: nat): (c: char)
    requires d < 10
    ensures '0' <= c <= '9'
  {
    (48 + d) as char
  }

  /** The decimal digits of a natural number, without leading zeros. */
  function NatToString(n: nat): (r: string)
    ensures |r| > 0 && '0' <= r[0] <= '9'
    ensures forall i :: 0 <= i < |r| ==> '0' <= r[i] <= '9'
    decreases n
  {
    if n < 10 then [DigitChar(n)] else NatToString(n / 10) + [DigitChar(n % 10)]
  }

  /** `String(n)` for an integer: a minus sign before negative numbers. */
  function IntToString(n: int): (r: string)
    ensures |r| > 0
    ensures n < 0 <==> r[0] == '-'
  {
    if n < 0 then "-" + NatToString(-n) else NatToString(n)
  }

  lemma {:induction false} NatToStringInjective(a: nat, b: nat)
    ensures NatToString(a) == NatToString(b) ==> a == b
    decreases a
  {
    var sa, sb := NatToString(a), NatToString(b);
    if sa == sb && a >= 10 && b >= 10 {
      assert sa[|sa| - 1] == sb[|sb| - 1];
      assert a % 10 == b % 10;
      assert NatToString(a / 10) == sa[..|sa| - 1] == sb[..|sb| - 1] == NatToString(b / 10);
      NatToStringInjective(a / 10, b / 10);
    }
  }

  /** Distinct integers print differently. */
  lemma IntToStringInjective(a: int, b: int)
    ensures IntToString(a) == IntToString(b) <==> a == b
  {
    if IntToString(a) == IntToString(b) {
      if a < 0 {
        assert IntToString(a)[1..] == NatToString(-a);
        assert IntToString(b)[1..] == NatToString(-b);
        NatToStringInjective(-a, -b);
      } else {
        NatToStringInjective(a, b);
      }
    }
  }
}
