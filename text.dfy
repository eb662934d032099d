/**
 * Character and string helpers shared by the front-end and back-end models:
 * the character classes of JavaScript regular expressions (`\d`, `\w`), ASCII
 * case mapping, the whitespace set of `String.prototype.trim` and of PHP's
 * `trim`, `split`, `join`, `slice`, `padStart` and decimal rendering.
 */
module Text {

  /** `\d` in a JavaScript regular expression. */
  predicate IsDigit(c: char) { '0' <= c <= '9' }

  predicate IsAsciiUpper(c: char) { 'A' <= c <= 'Z' }

  predicate IsAsciiLower(c: char) { 'a' <= c <= 'z' }

  /** `\w` in a JavaScript regular expression without the `u` flag. */
  predicate IsWordChar(c: char) { IsDigit(c) || IsAsciiUpper(c) || IsAsciiLower(c) || c == '_' }

  function Upper(c: char): (u: char)
    ensures IsWordChar(u) <==> IsWordChar(c)
    ensures !IsAsciiLower(u)
    ensures IsAsciiLower(c) || u == c
  {
    if IsAsciiLower(c) then (c as int - 32) as char else c
  }

  function Lower(c: char): (l: char)
    ensures IsWordChar(l) <==> IsWordChar(c)
    ensures !IsAsciiUpper(l)
    ensures IsAsciiUpper(c) || l == c
  {
    if IsAsciiUpper(c) then (c as int + 32) as char else c
  }

  /** `s.toUpperCase()`, restricted to ASCII letters. */
  function UpperString(s: string): (r: string)
    ensures |r| == |s|
  {
    seq(|s|, i requires 0 <= i < |s| => Upper(s[i]))
  }

  /** `s.toLowerCase()`, restricted to ASCII letters. */
  function LowerString(s: string): (r: string)
    ensures |r| == |s|
  {
    seq(|s|, i requires 0 <= i < |s| => Lower(s[i]))
  }

  lemma LowerStringIdempotent(s: string)
    ensures LowerString(LowerString(s)) == LowerString(s)
  {
  }

  /** A string without ASCII capitals is its own lower case. */
  lemma LowerStringNoUpper(s: string)
    requires forall i :: 0 <= i < |s| ==> !IsAsciiUpper(s[i])
    ensures LowerString(s) == s
  {
  }

  /** Lower-casing forgets an earlier upper-casing. */
  lemma LowerAfterUpper(s: string)
    ensures LowerString(UpperString(s)) == LowerString(s)
  {
  }

  /** The WhiteSpace and LineTerminator code points that ECMAScript's `trim` removes. */
  predicate IsJsWhitespace(c: char)
  {
    c == '\t' || c == '\n' || c == '\U{000B}' || c == '\U{000C}' || c == '\r' || c == ' '
    || c == '\U{00A0}' || c == '\U{1680}' || ('\U{2000}' <= c <= '\U{200A}')
    || c == '\U{2028}' || c == '\U{2029}' || c == '\U{202F}' || c == '\U{205F}'
    || c == '\U{3000}' || c == '\U{FEFF}'
  }

  /** The characters PHP's `trim` removes by default. */
  predicate IsPhpWhitespace(c: char)
  {
    c == ' ' || c == '\t' || c == '\n' || c == '\r' || c == '\0' || c == '\U{000B}'
  }

  /** How many characters at the start of `s` satisfy `ws`. */
  function Leading(s: string, ws: char -> bool): (n: nat)
    ensures n <= |s|
    ensures forall k :: 0 <= k < n ==> ws(s[k])
    ensures n == |s| || !ws(s[n])
  {
    if |s| > 0 && ws(s[0]) then 1 + Leading(s[1..], ws) else 0
  }

  /** How many characters at the end of `s` satisfy `ws`. */
  function Trailing(s: string, ws: char -> bool): (n: nat)
    ensures n <= |s|
    ensures forall k :: |s| - n <= k < |s| ==> ws(s[k])
    ensures n == |s| || !ws(s[|s| - n - 1])
  {
    if |s| > 0 && ws(s[|s| - 1]) then 1 + Trailing(s[..|s| - 1], ws) else 0
  }

  function TrimStart(s: string, ws: char -> bool): (r: string)
    ensures r == [] || !ws(r[0])
  {
    s[Leading(s, ws)..]
  }

  function TrimEnd(s: string, ws: char -> bool): (r: string)
    ensures r == [] || !ws(r[|r| - 1])
  {
    s[..|s| - Trailing(s, ws)]
  }

  /** `s.trim()` in JavaScript. */
  function Trim(s: string): string
  {
    TrimEnd(TrimStart(s, IsJsWhitespace), IsJsWhitespace)
  }

  /** Trimming only removes characters, so every character left was in the input. */
  lemma TrimKeepsCharacters(s: string)
    ensures forall k :: 0 <= k < |Trim(s)| ==> Trim(s)[k] in s
  {
    var t := TrimStart(s, IsJsWhitespace);
    forall k | 0 <= k < |Trim(s)|
      ensures Trim(s)[k] in s
    {
      assert Trim(s)[k] == t[k] == s[|s| - |t| + k];
    }
  }

  /** `trim($s)` in PHP. */
  function PhpTrim(s: string): string
  {
    TrimEnd(TrimStart(s, IsPhpWhitespace), IsPhpWhitespace)
  }

  /** Trimming in PHP a second time removes nothing more. */
  lemma PhpTrimIdempotent(s: string)
    ensures PhpTrim(PhpTrim(s)) == PhpTrim(s)
  {
    var u := TrimStart(s, IsPhpWhitespace);
    var t := PhpTrim(s);
    if t != [] {
      assert t[0] == u[0];
      assert Leading(t, IsPhpWhitespace) == 0;
      assert TrimStart(t, IsPhpWhitespace) == t;
      assert Trailing(t, IsPhpWhitespace) == 0;
    }
  }

  /** A string with no PHP whitespace at either end is its own PHP trim. */
  lemma PhpTrimNoOp(s: string)
    requires s == [] || (!IsPhpWhitespace(s[0]) && !IsPhpWhitespace(s[|s| - 1]))
    ensures PhpTrim(s) == s
  {
  }

  /** A string with no JavaScript whitespace at either end is its own trim. */
  lemma TrimNoOp(s: string)
    requires s == [] || (!IsJsWhitespace(s[0]) && !IsJsWhitespace(s[|s| - 1]))
    ensures Trim(s) == s
  {
  }

  /** `s.split(sep)` for a one-character separator: never empty, empty pieces kept. */
  function Split(s: string, sep: char): (parts: seq<string>)
    ensures |parts| >= 1
    ensures forall k :: 0 <= k < |parts| ==> sep !in parts[k]
  {
    if s == [] then [""]
    else
      var rest := Split(s[1..], sep);
      if s[0] == sep then [""] + rest else [[s[0]] + rest[0]] + rest[1..]
  }

  /** `parts.join(sep)`. */
  function Join(parts: seq<string>, sep: string): string
  {
    if parts == [] then ""
    else if |parts| == 1 then parts[0]
    else parts[0] + sep + Join(parts[1..], sep)
  }

  /** Every character of `s` other than the separators survives the split, in order. */
  lemma {:induction false} JoinSplit(s: string, sep: char)
    ensures Join(Split(s, sep), [sep]) == s
  {
    if s != [] {
      JoinSplit(s[1..], sep);
      var rest := Split(s[1..], sep);
      if s[0] == sep {
        assert Split(s, sep) == [""] + rest;
        assert ([""] + rest)[1..] == rest;
      } else {
        var parts := [[s[0]] + rest[0]] + rest[1..];
        assert Split(s, sep) == parts;
        if |rest| == 1 {
          assert Join(rest, [sep]) == rest[0];
        } else {
          assert parts[1..] == rest[1..];
          assert Join(rest, [sep]) == rest[0] + [sep] + Join(rest[1..], [sep]);
        }
      }
    }
  }

  /** `s.filter(Boolean)` on strings: drops the empty ones. */
  function NonEmpty(parts: seq<string>): (r: seq<string>)
    ensures |r| <= |parts|
    ensures forall k :: 0 <= k < |r| ==> r[k] != ""
    ensures forall x :: x in r <==> x in parts && x != ""
  {
    if parts == [] then []
    else if parts[0] == "" then NonEmpty(parts[1..])
    else [parts[0]] + NonEmpty(parts[1..])
  }

  /** A string without the separator splits into itself. */
  lemma {:induction false} SplitNoSeparator(s: string, sep: char)
    requires sep !in s
    ensures Split(s, sep) == [s]
  {
    if s != [] {
      SplitNoSeparator(s[1..], sep);
      assert s == [s[0]] + s[1..];
    }
  }

  /** A separator between two strings splits them apart. */
  /** One character in front either starts a new piece or joins the first one. */
  lemma SplitCons(c: char, rest: string, sep: char)
    ensures var r := Split(rest, sep);
      Split([c] + rest, sep) == if c == sep then [""] + r else [[c] + r[0]] + r[1..]
  {
    assert ([c] + rest)[0] == c && ([c] + rest)[1..] == rest;
  }

  lemma {:induction false} SplitAround(a: string, b: string, sep: char)
    ensures Split(a + [sep] + b, sep) == Split(a, sep) + Split(b, sep)
    decreases |a|
  {
    if a == [] {
      assert a + [sep] + b == [sep] + b;
      SplitCons(sep, b, sep);
    } else {
      SplitAround(a[1..], b, sep);
      assert a == [a[0]] + a[1..];
      assert a + [sep] + b == [a[0]] + (a[1..] + [sep] + b);
      SplitConsAround(a[0], a[1..], b, sep);
    }
  }

  /** The inductive step of `SplitAround`: a character in front of both sides. */
  lemma SplitConsAround(c: char, rest: string, b: string, sep: char)
    requires Split(rest + [sep] + b, sep) == Split(rest, sep) + Split(b, sep)
    ensures Split([c] + (rest + [sep] + b), sep) == Split([c] + rest, sep) + Split(b, sep)
  {
    var left := Split(rest, sep);
    var right := Split(b, sep);
    SplitCons(c, rest + [sep] + b, sep);
    SplitCons(c, rest, sep);
    if c == sep {
      Regroup([""], left, right);
    } else {
      MergeHead([c] + left[0], left, right);
    }
  }

  lemma Regroup<T>(x: seq<T>, y: seq<T>, z: seq<T>)
    ensures x + (y + z) == (x + y) + z
  {
  }

  lemma MergeHead<T>(h: T, left: seq<T>, right: seq<T>)
    requires left != []
    ensures (left + right)[0] == left[0]
    ensures [h] + (left + right)[1..] == ([h] + left[1..]) + right
  {
    assert (left + right)[1..] == left[1..] + right;
  }

  lemma {:induction false} NonEmptyAppend(x: seq<string>, y: seq<string>)
    ensures NonEmpty(x + y) == NonEmpty(x) + NonEmpty(y)
  {
    if x != [] {
      assert (x + y)[0] == x[0] && (x + y)[1..] == x[1..] + y;
      NonEmptyAppend(x[1..], y);
    } else {
      assert x + y == y;
    }
  }

  /** `s.slice(0, n)` for n >= 0. */
  function Take(s: string, n: nat): (r: string)
    ensures |r| == if |s| <= n then |s| else n
    ensures r == s[..|r|]
  {
    if |s| <= n then s else s[..n]
  }

  /** `s.slice(-n)` for n > 0: the last n characters, or all of s. */
  function TakeLast(s: string, n: nat): (r: string)
    ensures |r| == if |s| <= n then |s| else n
    ensures r == s[|s| - |r|..]
  {
    if |s| <= n then s else s[|s| - n..]
  }

  /** `s.padStart(n, "0")`. */
  function PadStartZeros(s: string, n: nat): (r: string)
    ensures |r| == if |s| >= n then |s| else n
    ensures r[|r| - |s|..] == s
    ensures forall i :: 0 <= i < |r| - |s| ==> r[i] == '0'
  {
    if |s| >= n then s else seq(n - |s|, _ => '0') + s
  }

  /** JavaScript's `text.slice(0, end)` for any integer `end`. */
  function SliceTo(s: string, end: int): (r: string)
    ensures |r| <= |s| && r == s[..|r|]
    ensures 0 <= end <= |s| ==> |r| == end
    ensures end < 0 ==> |r| == if |s| + end < 0 then 0 else |s| + end
    ensures end > |s| ==> r == s
  {
    if end < 0 then (if |s| + end < 0 then "" else s[..|s| + end])
    else if end <= |s| then s[..end]
    else s
  }

  function DigitChar(d: nat): (c: char)
    requires d < 10
    ensures IsDigit(c)
  {
    ('0' as int + d) as char
  }

  /** `String(n)` for a non-negative integer: decimal digits, no leading zero. */
  function NatToString(n: nat): (r: string)
    ensures |r| >= 1
    ensures forall i :: 0 <= i < |r| ==> IsDigit(r[i])
    ensures |r| > 1 ==> r[0] != '0'
  {
    if n < 10 then [DigitChar(n)] else NatToString(n / 10) + [DigitChar(n % 10)]
  }

  /** `String(i)` for an integer. */
  function IntToString(i: int): string
  {
    if i < 0 then "-" + NatToString(-i) else NatToString(i)
  }

  /** Deletes every occurrence of a character. */
  function Remove(s: string, c: char): (r: string)
    ensures c !in r
    ensures |r| <= |s|
  {
    if s == [] then [] else (if s[0] == c then [] else [s[0]]) + Remove(s[1..], c)
  }

  lemma {:induction false} RemoveAbsent(s: string, c: char)
    requires c !in s
    ensures Remove(s, c) == s
  {
    if s != [] {
      RemoveAbsent(s[1..], c);
    }
  }

  lemma {:induction false} RemoveAppend(a: string, b: string, c: char)
    ensures Remove(a + b, c) == Remove(a, c) + Remove(b, c)
  {
    if a != [] {
      assert (a + b)[1..] == a[1..] + b;
      RemoveAppend(a[1..], b, c);
    } else {
      assert a + b == b;
    }
  }

  /** `s.startsWith(p)`. */
  predicate StartsWith(s: string, p: string)
  {
    |p| <= |s| && s[..|p|] == p
  }
}
