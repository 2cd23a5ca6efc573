/** The JavaScript string operations the dashboard's own code relies on:
    `includes`, `startsWith`, `split` on one character, `trim`, `toLowerCase`
    (as far as the lookup tables can observe it), `length` in UTF-16 code
    units, and the decimal rendering of a non-negative integer inside a
    template literal. Strings are sequences of Unicode scalar values. */
module Strings {

  // ---------------------------------------------------------------- length

  /** `s.length`: JavaScript counts UTF-16 code units, so a character outside
      the Basic Multilingual Plane counts twice. */
  function Utf16Length(s: string): (n: nat)
    ensures n >= |s|
    ensures n <= 2 * |s|
    decreases |s|
  {
    if |s| == 0 then 0
    else Utf16Length(s[..|s| - 1]) + (if s[|s| - 1] as int > 0xFFFF then 2 else 1)
  }

  // ------------------------------------------------------- prefix, includes

  predicate IsPrefix(p: string, s: string) {
    |p| <= |s| && s[..|p|] == p
  }

  /** `s.startsWith(p)` */
  predicate StartsWith(s: string, p: string) {
    IsPrefix(p, s)
  }

  /** `s.includes(sub)`: some position of `s` starts a copy of `sub`. */
  predicate Includes(s: string, sub: string)
    decreases |s|
  {
    IsPrefix(sub, s) || (|s| > 0 && Includes(s[1..], sub))
  }

  /** Whatever surrounds it, a string includes itself. */
  lemma {:induction false} IncludesMiddle(a: string, sub: string, b: string)
    ensures Includes(a + sub + b, sub)
    decreases |a|
  {
    if |a| == 0 {
      assert (a + sub + b)[..|sub|] == sub;
    } else {
      IncludesMiddle(a[1..], sub, b);
      assert (a + sub + b)[1..] == a[1..] + sub + b;
    }
  }

  /** A string that splits around `sub` includes it. */
  lemma IncludesAround(s: string, a: string, sub: string, b: string)
    requires s == a + sub + b
    ensures Includes(s, sub)
  {
    IncludesMiddle(a, sub, b);
  }

  /** A string that includes `left_right` includes `left` and `right`. */
  lemma IncludesPieces(c: string, whole: string, left: string, right: string)
    requires whole == left + "_" + right
    ensures Includes(c, whole) ==> Includes(c, left) && Includes(c, right)
  {
    if Includes(c, whole) {
      IncludesAround(whole, left + "_", right, "");
      IncludesAround(whole, "", left, "_" + right);
      IncludesTransitive(c, whole, right);
      IncludesTransitive(c, whole, left);
    }
  }

  /** The middle of a three-part string is the slice between the other
      two. */
  lemma SliceAround(s: string, a: string, mid: string, b: string)
    requires s == a + mid + b
    ensures s[|a|..|a| + |mid|] == mid
  {
  }

  /** Inclusion is transitive. */
  lemma {:induction false} IncludesTransitive(s: string, t: string, u: string)
    requires Includes(s, t) && Includes(t, u)
    ensures Includes(s, u)
    decreases |s|
  {
    if IsPrefix(t, s) {
      IncludesPrefix(s, t, u);
    } else {
      IncludesTransitive(s[1..], t, u);
    }
  }

  /** What a prefix includes, the whole includes. */
  lemma {:induction false} IncludesPrefix(s: string, t: string, u: string)
    requires IsPrefix(t, s) && Includes(t, u)
    ensures Includes(s, u)
    decreases |t|
  {
    if IsPrefix(u, t) {
      assert s[..|u|] == t[..|u|];
    } else {
      assert s[1..][..|t| - 1] == t[1..];
      IncludesPrefix(s[1..], t[1..], u);
    }
  }

  /** Every character of an included string occurs in the including one. */
  lemma {:induction false} IncludesChar(s: string, sub: string, k: nat)
    requires Includes(s, sub) && k < |sub|
    ensures sub[k] in s
    decreases |s|
  {
    if IsPrefix(sub, s) {
      assert s[k] == sub[k];
    } else {
      IncludesChar(s[1..], sub, k);
      assert s[1..][IndexOf(s[1..], sub[k])] == s[1 + IndexOf(s[1..], sub[k])];
    }
  }

  /** Every two adjacent characters of an included string occur adjacently
      in the including one. */
  lemma {:induction false} IncludesPair(s: string, sub: string, k: nat)
    requires Includes(s, sub) && k + 1 < |sub|
    ensures exists i :: 0 <= i < |s| - 1 && s[i] == sub[k] && s[i + 1] == sub[k + 1]
    decreases |s|
  {
    if IsPrefix(sub, s) {
      assert s[k] == sub[k] && s[k + 1] == sub[k + 1];
    } else {
      IncludesPair(s[1..], sub, k);
      var i :| 0 <= i < |s[1..]| - 1 && s[1..][i] == sub[k] && s[1..][i + 1] == sub[k + 1];
      assert s[i + 1] == sub[k] && s[i + 2] == sub[k + 1];
    }
  }

  /** An included string is never longer than the including one. */
  lemma {:induction false} IncludesLength(s: string, sub: string)
    requires Includes(s, sub)
    ensures |sub| <= |s|
    decreases |s|
  {
    if !IsPrefix(sub, s) {
      IncludesLength(s[1..], sub);
    }
  }

  /** Position of the first occurrence of a character known to occur. */
  function IndexOf(s: string, c: char): (i: nat)
    requires c in s
    ensures i < |s| && s[i] == c && c !in s[..i]
    decreases |s|
  {
    if s[0] == c then 0 else 1 + IndexOf(s[1..], c)
  }

  // ------------------------------------------------------------- splitting

  /** `s.split(sep)` for a one-character separator: the pieces between
      separators, in order, including empty ones (`"".split(sep)` is `[""]`). */
  function Split(s: string, sep: char): (parts: seq<string>)
    ensures |parts| >= 1
    decreases |s|
  {
    if |s| == 0 then [""]
    else
      var rest := Split(s[1..], sep);
      if s[0] == sep then [""] + rest
      else [[s[0]] + rest[0]] + rest[1..]
  }

  /** `parts.join(sep)` of a non-empty list. */
  function Join(parts: seq<string>, sep: char): string
    requires |parts| >= 1
    decreases |parts|
  {
    if |parts| == 1 then parts[0] else parts[0] + [sep] + Join(parts[1..], sep)
  }

  /** Splitting loses nothing: joining the pieces gives the string back. */
  lemma {:induction false} SplitJoin(s: string, sep: char)
    ensures Join(Split(s, sep), sep) == s
    decreases |s|
  {
    if |s| > 0 {
      var rest := Split(s[1..], sep);
      SplitJoin(s[1..], sep);
      if s[0] == sep {
        assert Split(s, sep)[1..] == rest;
        assert s == [s[0]] + s[1..];
      } else {
        var parts := Split(s, sep);
        if |rest| == 1 {
          assert parts == [[s[0]] + rest[0]];
          assert s == [s[0]] + s[1..];
        } else {
          assert parts[1..] == rest[1..];
          assert Join(rest, sep) == rest[0] + [sep] + Join(rest[1..], sep);
          assert s == [s[0]] + s[1..];
        }
      }
    }
  }

  /** No piece contains the separator. */
  lemma {:induction false} SplitPiecesFree(s: string, sep: char, k: nat)
    requires k < |Split(s, sep)|
    ensures sep !in Split(s, sep)[k]
    decreases |s|
  {
    if |s| > 0 {
      var rest := Split(s[1..], sep);
      if s[0] == sep {
        if k > 0 { SplitPiecesFree(s[1..], sep, k - 1); }
      } else if k == 0 {
        SplitPiecesFree(s[1..], sep, 0);
      } else {
        SplitPiecesFree(s[1..], sep, k);
      }
    }
  }

  /** A string without the separator is one piece. */
  lemma {:induction false} SplitNoSeparator(s: string, sep: char)
    requires sep !in s
    ensures Split(s, sep) == [s]
    decreases |s|
  {
    if |s| > 0 {
      SplitNoSeparator(s[1..], sep);
      assert [s[0]] + s[1..] == s;
    }
  }

  /** Splitting at the first separator: the text before it is the first
      piece, the rest splits on its own. */
  lemma {:induction false} SplitAtFirst(x: string, sep: char, y: string)
    requires sep !in x
    ensures Split(x + [sep] + y, sep) == [x] + Split(y, sep)
    decreases |x|
  {
    if |x| == 0 {
      assert x + [sep] + y == [sep] + y;
      assert ([sep] + y)[1..] == y;
    } else {
      SplitAtFirst(x[1..], sep, y);
      assert (x + [sep] + y)[1..] == x[1..] + [sep] + y;
      assert [x[0]] + x[1..] == x;
    }
  }

  /** The text after the last separator (the whole string when there is
      none): `s.split(sep).pop()`. */
  function LastPiece(s: string, sep: char): string {
    var parts := Split(s, sep);
    parts[|parts| - 1]
  }

  /** What follows the last separator is the last piece. */
  lemma {:induction false} LastPieceAfterSeparator(stem: string, sep: char, tail: string)
    requires sep !in tail
    ensures LastPiece(stem + [sep] + tail, sep) == tail
    decreases |stem|
  {
    if sep !in stem {
      SplitAtFirst(stem, sep, tail);
      SplitNoSeparator(tail, sep);
    } else {
      var i := IndexOf(stem, sep);
      var before, after := stem[..i], stem[i + 1..];
      assert stem == before + [sep] + after;
      assert stem + [sep] + tail == before + [sep] + (after + [sep] + tail);
      SplitAtFirst(before, sep, after + [sep] + tail);
      LastPieceAfterSeparator(after, sep, tail);
    }
  }

  // --------------------------------------------------------------- trimming

  /** WhiteSpace and LineTerminator of ECMAScript, the characters `trim`
      removes. */
  predicate IsJsWhitespace(c: char) {
    c == '\t' || c == '\n' || c == '\U{000B}' || c == '\U{000C}' || c == '\r' ||
    c == ' ' || c == '\U{00A0}' || c == '\U{1680}' ||
    ('\U{2000}' <= c <= '\U{200A}') ||
    c == '\U{2028}' || c == '\U{2029}' || c == '\U{202F}' || c == '\U{205F}' ||
    c == '\U{3000}' || c == '\U{FEFF}'
  }

  /** Drops the leading whitespace. */
  function TrimStart(s: string): (r: string)
    ensures |r| <= |s|
    decreases |s|
  {
    if |s| > 0 && IsJsWhitespace(s[0]) then TrimStart(s[1..]) else s
  }

  /** Drops the trailing whitespace. */
  function TrimEnd(s: string): (r: string)
    ensures |r| <= |s|
    decreases |s|
  {
    if |s| > 0 && IsJsWhitespace(s[|s| - 1]) then TrimEnd(s[..|s| - 1]) else s
  }

  /** `TrimStart` keeps the suffix that starts at the first non-whitespace
      character. */
  lemma {:induction false} TrimStartSuffix(s: string)
    ensures var r := TrimStart(s);
      |r| <= |s| && r == s[|s| - |r|..] &&
      (forall i :: 0 <= i < |s| - |r| ==> IsJsWhitespace(s[i])) &&
      (|r| > 0 ==> !IsJsWhitespace(r[0]))
    decreases |s|
  {
    if |s| > 0 && IsJsWhitespace(s[0]) {
      TrimStartSuffix(s[1..]);
      var r := TrimStart(s);
      assert s[1..][|s| - 1 - |r|..] == s[|s| - |r|..];
      forall i | 0 <= i < |s| - |r| ensures IsJsWhitespace(s[i]) {
        if i > 0 {
          assert s[i] == s[1..][i - 1];
        }
      }
    }
  }

  /** `TrimEnd` keeps the prefix that ends at the last non-whitespace
      character. */
  lemma {:induction false} TrimEndPrefix(s: string)
    ensures var r := TrimEnd(s);
      |r| <= |s| && r == s[..|r|] &&
      (forall i :: |r| <= i < |s| ==> IsJsWhitespace(s[i])) &&
      (|r| > 0 ==> !IsJsWhitespace(r[|r| - 1]))
    decreases |s|
  {
    if |s| > 0 && IsJsWhitespace(s[|s| - 1]) {
      var init := s[..|s| - 1];
      TrimEndPrefix(init);
      var r := TrimEnd(s);
      assert init[..|r|] == s[..|r|];
      forall i | |r| <= i < |s| ensures IsJsWhitespace(s[i]) {
        if i < |s| - 1 {
          assert s[i] == init[i];
        }
      }
    }
  }

  /** `s.trim()` */
  function Trim(s: string): string {
    TrimEnd(TrimStart(s))
  }

  /** A trimmed string is the slice of the original that starts at the
      first and ends at the last non-whitespace character: only whitespace is
      cut away. */
  lemma TrimShape(s: string)
    ensures var i, t := |s| - |TrimStart(s)|, Trim(s);
      i + |t| <= |s| && t == s[i..i + |t|] &&
      (forall k :: 0 <= k < i ==> IsJsWhitespace(s[k])) &&
      (forall k :: i + |t| <= k < |s| ==> IsJsWhitespace(s[k]))
  {
    var u := TrimStart(s);
    var t := TrimEnd(u);
    var i := |s| - |u|;
    TrimStartSuffix(s);
    TrimEndPrefix(u);
    SliceOfSuffix(s, i, u, |t|);
    WhitespaceAfterSlice(s, i, u, |t|);
  }

  lemma SliceOfSuffix(s: string, i: nat, u: string, n: nat)
    requires i <= |s| && u == s[i..] && n <= |u|
    ensures i + n <= |s| && u[..n] == s[i..i + n]
  {
    forall k | 0 <= k < n ensures u[..n][k] == s[i..i + n][k] {
      assert u[k] == s[i + k];
    }
  }

  /** None is left at either end. */
  lemma TrimEnds(s: string)
    ensures var t := Trim(s); |t| > 0 ==> !IsJsWhitespace(t[0]) && !IsJsWhitespace(t[|t| - 1])
  {
    var u := TrimStart(s);
    var t := TrimEnd(u);
    TrimStartSuffix(s);
    TrimEndPrefix(u);
    if |t| > 0 {
      assert t == u[..|t|];
      assert t[0] == u[0];
    }
  }

  lemma WhitespaceAfterSlice(s: string, i: nat, u: string, n: nat)
    requires i <= |s| && u == s[i..] && n <= |u|
    requires forall k :: n <= k < |u| ==> IsJsWhitespace(u[k])
    ensures forall k :: i + n <= k < |s| ==> IsJsWhitespace(s[k])
  {
    forall k | i + n <= k < |s| ensures IsJsWhitespace(s[k]) {
      assert s[k] == u[k - i];
    }
  }

  // ------------------------------------------------------------ lower case

  /** What `toLowerCase` does to a character, as far as any ASCII lookup key
      can tell: ASCII capitals and the KELVIN SIGN (which lower-cases to an
      ASCII 'k') are mapped, every other character is kept. */
  function LowerChar(c: char): char {
    if 'A' <= c <= 'Z' then (c as int + 32) as char
    else if c == '\U{212A}' then 'k'
    else c
  }

  function LowerCase(s: string): (r: string)
    ensures |r| == |s|
    ensures forall i :: 0 <= i < |s| ==> r[i] == LowerChar(s[i])
  {
    seq(|s|, i requires 0 <= i < |s| => LowerChar(s[i]))
  }

  /** Lower-casing is idempotent. */
  lemma LowerCaseIdempotent(s: string)
    ensures LowerCase(LowerCase(s)) == LowerCase(s)
  {
  }

  // -------------------------------------------------------------- numerals

  function DigitChar(d: nat): (c: char)
    requires d < 10
    ensures '0' <= c <= '9'
  {
    (d + '0' as int) as char
  }

  predicate AllDigits(s: string) {
    forall i :: 0 <= i < |s| ==> '0' <= s[i] <= '9'
  }

  /** `${n}` for a non-negative integer: its decimal digits, no leading zero. */
  function NatToString(n: nat): (s: string)
    ensures |s| >= 1 && AllDigits(s)
    ensures |s| > 1 ==> s[0] != '0'
    decreases n
  {
    if n < 10 then [DigitChar(n)] else NatToString(n / 10) + [DigitChar(n % 10)]
  }

  /** The value a string of decimal digits denotes. */
  function DigitsValue(s: string): nat
    requires AllDigits(s)
    decreases |s|
  {
    if |s| == 0 then 0
    else 10 * DigitsValue(s[..|s| - 1]) + (s[|s| - 1] as int - '0' as int)
  }

  /** Reading the digits back gives the number: the rendering is
      injective, so `detection-${i}` / `manual-${k}` ids never collide. */
  lemma {:induction false} NatToStringRoundTrip(n: nat)
    ensures DigitsValue(NatToString(n)) == n
    decreases n
  {
    if n >= 10 {
      NatToStringRoundTrip(n / 10);
      var s := NatToString(n);
      assert s[..|s| - 1] == NatToString(n / 10);
    }
  }

  lemma NatToStringInjective(m: nat, n: nat)
    requires NatToString(m) == NatToString(n)
    ensures m == n
  {
    NatToStringRoundTrip(m);
    NatToStringRoundTrip(n);
  }

  /** `${n}` for any integer. */
  function IntToString(n: int): string {
    if n < 0 then "-" + NatToString(-n) else NatToString(n)
  }
}
