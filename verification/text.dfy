/** Failure-carrying results shared by the whole model. */
module Outcomes {

  datatype Option<+T> = None | Some(value: T)

  /** The outcome of an operation that either yields a value or fails with a
      user-visible message. */
  datatype Result<+T> = Ok(value: T) | Err(message: string)
}

/** String helpers the pages rely on: JavaScript's notion of blank text
    (`!s.trim()`), substring search (`includes`), lower-casing, `Array.join`,
    `slice` on strings and arrays, and the decimal rendering of counts. */
module Text {

  /** The characters `String.prototype.trim` removes: the ECMAScript
      WhiteSpace and LineTerminator code points. */
  predicate IsSpace(c: char) {
    || c == ' ' || c == '\t' || c == '\n' || c == '\r'
    || c == '\U{000B}' || c == '\U{000C}' || c == '\U{00A0}' || c == '\U{1680}'
    || ('\U{2000}' <= c <= '\U{200A}')
    || c == '\U{2028}' || c == '\U{2029}' || c == '\U{202F}' || c == '\U{205F}'
    || c == '\U{3000}' || c == '\U{FEFF}'
  }

  /** True when `s.trim()` is the empty (falsy) string. */
  predicate Blank(s: string) {
    forall i :: 0 <= i < |s| ==> IsSpace(s[i])
  }

  function TrimStart(s: string): (r: string)
    ensures |r| <= |s| && r == s[|s| - |r|..]
    ensures forall i :: 0 <= i < |s| - |r| ==> IsSpace(s[i])
    ensures |r| > 0 ==> !IsSpace(r[0])
  {
    if |s| > 0 && IsSpace(s[0]) then TrimStart(s[1..]) else s
  }

  function TrimEnd(s: string): (r: string)
    ensures |r| <= |s| && r == s[..|r|]
    ensures forall i :: |r| <= i < |s| ==> IsSpace(s[i])
    ensures |r| > 0 ==> !IsSpace(r[|r| - 1])
  {
    if |s| > 0 && IsSpace(s[|s| - 1]) then TrimEnd(s[..|s| - 1]) else s
  }

  /** `s.trim()`. */
  function Trim(s: string): string {
    TrimEnd(TrimStart(s))
  }

  /** The pages test `!s.trim()`; this is exactly `Blank(s)`. */
  lemma TrimEmptyIffBlank(s: string)
    ensures Trim(s) == "" <==> Blank(s)
  {
    var t := TrimStart(s);
    if Trim(s) == "" {
      // a non-empty `t` starts with a non-space, which TrimEnd would keep
      assert |t| == 0;
    } else {
      var r := Trim(s);
      assert !IsSpace(r[0]);
      assert r[0] == t[0] == s[|s| - |t|];
    }
  }

  /** `needle` occurs in `haystack` starting at index `i`. */
  predicate OccursAt(haystack: string, needle: string, i: int) {
    0 <= i <= |haystack| - |needle| && haystack[i..i + |needle|] == needle
  }

  /** `haystack.includes(needle)`. */
  predicate Contains(haystack: string, needle: string)
    decreases |haystack|
  {
    needle <= haystack || (|haystack| > 0 && Contains(haystack[1..], needle))
  }

  /** `Contains` agrees with the positional definition of a substring. */
  lemma {:induction false} ContainsIffOccurs(haystack: string, needle: string)
    ensures Contains(haystack, needle) <==> exists i :: OccursAt(haystack, needle, i)
    decreases |haystack|
  {
    if needle <= haystack {
      assert OccursAt(haystack, needle, 0);
    } else if |haystack| == 0 {
      assert forall i :: !OccursAt(haystack, needle, i);
    } else {
      ContainsIffOccurs(haystack[1..], needle);
      if exists i :: OccursAt(haystack, needle, i) {
        var i :| OccursAt(haystack, needle, i);
        assert i != 0;
        assert haystack[1..][i - 1..i - 1 + |needle|] == haystack[i..i + |needle|];
        assert OccursAt(haystack[1..], needle, i - 1);
      }
      if Contains(haystack[1..], needle) {
        var i :| OccursAt(haystack[1..], needle, i);
        assert haystack[1..][i..i + |needle|] == haystack[i + 1..i + 1 + |needle|];
        assert OccursAt(haystack, needle, i + 1);
      }
    }
  }

  function LowerChar(c: char): char {
    if 'A' <= c <= 'Z' then (c as int + 32) as char else c
  }

  /** `s.toLowerCase()`, restricted to the ASCII letters. */
  function Lower(s: string): (r: string)
    ensures |r| == |s|
    ensures forall i :: 0 <= i < |s| ==> r[i] == LowerChar(s[i])
  {
    seq(|s|, i requires 0 <= i < |s| => LowerChar(s[i]))
  }

  /** `xs.join(sep)`. */
  function Join(xs: seq<string>, sep: string): string {
    if |xs| == 0 then ""
    else if |xs| == 1 then xs[0]
    else xs[0] + sep + Join(xs[1..], sep)
  }

  /** `xs.slice(0, n)` on an array or a string. */
  function Take<T>(xs: seq<T>, n: nat): (r: seq<T>)
    ensures |r| == if |xs| <= n then |xs| else n
    ensures r == xs[..|r|]
  {
    if |xs| <= n then xs else xs[..n]
  }

  /** The UTF-16 code units of a character: a code point above U+FFFF is
      stored as a surrogate pair. */
  function Units(c: char): nat {
    if c as int > 0xFFFF then 2 else 1
  }

  /** `s.length`, which counts UTF-16 code units rather than characters. */
  function Utf16Length(s: string): (n: nat)
    ensures |s| <= n <= 2 * |s|
    ensures n == |s| <==> forall i :: 0 <= i < |s| ==> Units(s[i]) == 1
  {
    if |s| == 0 then 0
    else
      assert forall i :: 1 <= i < |s| ==> s[1..][i - 1] == s[i];
      Units(s[0]) + Utf16Length(s[1..])
  }

  /** Code units add up over a concatenation. */
  lemma {:induction false} Utf16Append(a: string, b: string)
    ensures Utf16Length(a + b) == Utf16Length(a) + Utf16Length(b)
  {
    if |a| == 0 {
      assert a + b == b;
    } else {
      Utf16Append(a[1..], b);
      assert (a + b)[1..] == a[1..] + b;
    }
  }

  /** `s.slice(0, n)` on a string: the longest prefix of whole characters
      within `n` code units. It is exact, or it stops one unit short when
      unit `n` would fall in the middle of a surrogate pair. */
  function CutUnits(s: string, n: nat): (r: string)
    ensures r <= s
    ensures Utf16Length(r) <= n
    ensures Utf16Length(s) <= n ==> r == s
    ensures Utf16Length(s) > n ==>
              |r| < |s| && (Utf16Length(r) == n || (Utf16Length(r) == n - 1 && Units(s[|r|]) == 2))
  {
    if |s| == 0 || Units(s[0]) > n then []
    else
      var rest := CutUnits(s[1..], n - Units(s[0]));
      assert ([s[0]] + rest)[1..] == rest;
      assert s == [s[0]] + s[1..];
      [s[0]] + rest
  }

  /** On text without characters above U+FFFF, code units are characters
      and the cut is the plain prefix. */
  lemma {:induction false} CutUnitsOfBmp(s: string, n: nat)
    requires Utf16Length(s) == |s|
    ensures CutUnits(s, n) == Take(s, n)
    decreases |s|
  {
    if |s| > 0 {
      var tail := s[1..];
      assert Utf16Length(s) == Units(s[0]) + Utf16Length(tail);
      assert Utf16Length(tail) >= |tail|;
      assert Units(s[0]) == 1 && Utf16Length(tail) == |tail|;
      if n > 0 {
        CutUnitsOfBmp(tail, n - 1);
        assert CutUnits(s, n) == [s[0]] + CutUnits(tail, n - 1);
        assert Take(s, n) == [s[0]] + Take(tail, n - 1);
      }
    }
  }

  function Digit(d: nat): char
    requires d < 10
  {
    "0123456789"[d]
  }

  /** The decimal text of a count, as `${n}` prints it. */
  function NatText(n: nat): (r: string)
    ensures |r| > 0
    ensures forall i :: 0 <= i < |r| ==> '0' <= r[i] <= '9'
    ensures |r| > 1 ==> r[0] != '0'
  {
    if n < 10 then [Digit(n)] else NatText(n / 10) + [Digit(n % 10)]
  }

  /** The value of a string of decimal digits. */
  function DigitsValue(s: string): nat
    requires forall i :: 0 <= i < |s| ==> '0' <= s[i] <= '9'
  {
    if |s| == 0 then 0 else 10 * DigitsValue(s[..|s| - 1]) + (s[|s| - 1] as int - '0' as int)
  }

  /** Reading the printed count back gives the count: distinct counts print
      differently. */
  lemma {:induction false} NatTextRoundTrip(n: nat)
    ensures DigitsValue(NatText(n)) == n
  {
    if n >= 10 {
      NatTextRoundTrip(n / 10);
      var r := NatText(n);
      assert r[..|r| - 1] == NatText(n / 10);
    }
  }

  /** The concatenation of `f(x)` over the elements of `xs`, in order. */
  function Flatten<T>(xs: seq<T>, f: T -> string): string {
    if |xs| == 0 then "" else f(xs[0]) + Flatten(xs[1..], f)
  }

  lemma {:induction false} FlattenAppend<T>(a: seq<T>, b: seq<T>, f: T -> string)
    ensures Flatten(a + b, f) == Flatten(a, f) + Flatten(b, f)
  {
    if |a| == 0 {
      assert a + b == b;
    } else {
      FlattenAppend(a[1..], b, f);
      assert (a + b)[0] == a[0];
      assert (a + b)[1..] == a[1..] + b;
      calc {
        Flatten(a + b, f);
        f(a[0]) + Flatten(a[1..] + b, f);
        f(a[0]) + (Flatten(a[1..], f) + Flatten(b, f));
        (f(a[0]) + Flatten(a[1..], f)) + Flatten(b, f);
      }
    }
  }

  /** A character of a prefix is a character of the whole. */
  lemma CharOfPrefix(a: string, b: string, i: nat)
    requires i < |a|
    ensures (a + b)[i] == a[i]
  {
  }
}
