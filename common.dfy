/**
 * Values shared by every module: optional and fallible results, and the few
 * JavaScript string and number operations the application relies on
 * (`toString()`, `padStart`, `slice(-n)`, `trim()`, `toLowerCase()`,
 * `includes`, `startsWith`, `parseInt(s, 10)`), stated over `seq<char>`.
 */
module Common {

  datatype Option<T> = None | Some(value: T)

  datatype Result<T, E> = Ok(value: T) | Err(error: E)

  // ---------------------------------------------------------------------------
  // Characters
  // ---------------------------------------------------------------------------

  predicate IsDigit(c: char) { '0' <= c <= '9' }

  predicate IsUpper(c: char) { 'A' <= c <= 'Z' }

  /** The characters `String.prototype.trim` removes: the ASCII controls, NBSP, BOM,
      every Unicode space separator (Zs) and the line and paragraph separators. */
  predicate IsWhitespace(c: char)
  {
    c == ' ' || c == '\t' || c == '\n' || c == '\r' || c == '\U{000B}' || c == '\U{000C}'
    || c == '\U{00A0}' || c == '\U{FEFF}' || c == '\U{1680}' || ('\U{2000}' <= c <= '\U{200A}')
    || c == '\U{202F}' || c == '\U{205F}' || c == '\U{3000}' || c == '\U{2028}' || c == '\U{2029}'
  }

  function DigitChar(d: nat): (c: char)
    requires d < 10
    ensures IsDigit(c)
  {
    ('0' as int + d) as char
  }

  function DigitOf(c: char): (d: nat)
    requires IsDigit(c)
    ensures d < 10
  {
    c as int - '0' as int
  }

  function LowerChar(c: char): char
  {
    if IsUpper(c) then (c as int + 32) as char else c
  }

  // ---------------------------------------------------------------------------
  // Strings
  // ---------------------------------------------------------------------------

  /** `s.toLowerCase()` restricted to the ASCII letters. */
  function ToLower(s: string): (r: string)
    ensures |r| == |s|
    ensures forall i :: 0 <= i < |s| ==> r[i] == LowerChar(s[i])
  {
    seq(|s|, i requires 0 <= i < |s| => LowerChar(s[i]))
  }

  /** `s.trim() === ""`: the string holds only whitespace. */
  predicate IsBlank(s: string)
  {
    forall i :: 0 <= i < |s| ==> IsWhitespace(s[i])
  }

  predicate StartsWith(s: string, prefix: string)
  {
    |prefix| <= |s| && s[..|prefix|] == prefix
  }

  /** `hay.includes(needle)`. */
  predicate Includes(hay: string, needle: string)
  {
    StartsWith(hay, needle) || (hay != [] && Includes(hay[1..], needle))
  }

  function Repeat(c: char, n: nat): (r: string)
    ensures |r| == n && forall i :: 0 <= i < n ==> r[i] == c
  {
    if n == 0 then [] else [c] + Repeat(c, n - 1)
  }

  lemma AppendAssoc<T>(a: seq<T>, b: seq<T>, c: seq<T>)
    ensures (a + b) + c == a + (b + c)
  {
  }

  /** `s.padStart(len, c)`: left-pads and never truncates. */
  function PadStart(s: string, len: nat, c: char): string
  {
    if |s| < len then Repeat(c, len - |s|) + s else s
  }

  /** `s.slice(-n)` for n > 0. */
  function LastN(s: string, n: nat): string
  {
    if |s| < n then s else s[|s| - n..]
  }

  // ---------------------------------------------------------------------------
  // Decimal numerals: `n.toString()` and its inverse
  // ---------------------------------------------------------------------------

  /** `n.toString()` for a non-negative integer: no sign, no leading zero. */
  function NatToString(n: nat): (r: string)
    ensures |r| >= 1
    ensures forall i :: 0 <= i < |r| ==> IsDigit(r[i])
    ensures n >= 10 ==> r[0] != '0'
  {
    if n < 10 then [DigitChar(n)] else NatToString(n / 10) + [DigitChar(n % 10)]
  }

  /** `n.toString()` for any integer. */
  function IntToString(n: int): string
  {
    if n < 0 then "-" + NatToString(-n) else NatToString(n)
  }

  predicate AllDigits(s: string)
  {
    forall i :: 0 <= i < |s| ==> IsDigit(s[i])
  }

  /** The value of a string of decimal digits (leading zeros allowed). */
  function DigitsValue(s: string): nat
    requires AllDigits(s)
  {
    if s == [] then 0 else DigitsValue(s[..|s| - 1]) * 10 + DigitOf(s[|s| - 1])
  }

  lemma {:induction false} DigitsValueOfNatToString(n: nat)
    ensures DigitsValue(NatToString(n)) == n
  {
    if n >= 10 {
      var s := NatToString(n / 10);
      DigitsValueOfNatToString(n / 10);
      assert (s + [DigitChar(n % 10)])[..|s|] == s;
    }
  }

  /** Leading zeros do not change the value of a numeral. */
  lemma {:induction false} DigitsValueIgnoresZeros(k: nat, s: string)
    requires AllDigits(s)
    ensures AllDigits(Repeat('0', k) + s)
    ensures DigitsValue(Repeat('0', k) + s) == DigitsValue(s)
  {
    if k > 0 {
      DigitsValueIgnoresZeros(k - 1, s);
      var t := Repeat('0', k - 1) + s;
      assert Repeat('0', k) + s == ['0'] + t;
      ZeroPrefix(t);
      calc {
        DigitsValue(Repeat('0', k) + s);
        DigitsValue(['0'] + t);
        DigitsValue(t);
      }
    } else {
      assert Repeat('0', k) + s == s;
    }
  }

  lemma {:induction false} ZeroPrefix(t: string)
    requires AllDigits(t)
    ensures AllDigits(['0'] + t) && DigitsValue(['0'] + t) == DigitsValue(t)
  {
    if t != [] {
      var u := t[..|t| - 1];
      ZeroPrefix(u);
      assert (['0'] + t)[..|t|] == ['0'] + u;
    }
  }

  /** Decimal numerals are injective, also once zero-padded to a fixed width. */
  lemma PaddedNumeralInjective(a: nat, b: nat, width: nat)
    requires PadStart(NatToString(a), width, '0') == PadStart(NatToString(b), width, '0')
    ensures a == b
  {
    PaddedNumeralValue(a, width);
    PaddedNumeralValue(b, width);
  }

  lemma PaddedNumeralValue(n: nat, width: nat)
    ensures AllDigits(PadStart(NatToString(n), width, '0'))
    ensures DigitsValue(PadStart(NatToString(n), width, '0')) == n
  {
    var s := NatToString(n);
    DigitsValueOfNatToString(n);
    if |s| < width {
      DigitsValueIgnoresZeros(width - |s|, s);
    }
  }

  // ---------------------------------------------------------------------------
  // parseInt(s, 10)
  // ---------------------------------------------------------------------------

  function TrimStart(s: string): string
  {
    if s != [] && IsWhitespace(s[0]) then TrimStart(s[1..]) else s
  }

  /** The longest prefix of decimal digits. */
  function LeadingDigits(s: string): (r: string)
    ensures AllDigits(r)
  {
    if s != [] && IsDigit(s[0]) then [s[0]] + LeadingDigits(s[1..]) else []
  }

  /**
   * `parseInt(s, 10)`: skip leading whitespace, read an optional sign, then
   * the longest run of digits; `None` stands for NaN (no digit found).
   */
  function ParseInt(s: string): (r: Option<int>)
  {
    var t := TrimStart(s);
    var negative := t != [] && t[0] == '-';
    var body := if t != [] && (t[0] == '-' || t[0] == '+') then t[1..] else t;
    var digits := LeadingDigits(body);
    var magnitude: int := if digits == [] then 0 else DigitsValue(digits);
    if digits == [] then None
    else Some(if negative then -magnitude else magnitude)
  }

  /** `parseInt(s || "0", 10) || 0`: an empty string and NaN both read as 0. */
  function ParseIntOrZero(s: string): int
  {
    if s == [] then 0 else match ParseInt(s) case None => 0 case Some(v) => v
  }

  /** `parseInt` reads back what `toString` wrote. */
  lemma ParseIntOfNatToString(n: nat)
    ensures ParseInt(NatToString(n)) == Some(n)
  {
    var s := NatToString(n);
    ParseIntOfDigits(s);
    DigitsValueOfNatToString(n);
  }

  /** A non-empty string of digits parses to its value. */
  lemma ParseIntOfDigits(s: string)
    requires s != [] && AllDigits(s)
    ensures ParseInt(s) == Some(DigitsValue(s))
  {
    assert IsDigit(s[0]);
    assert !IsWhitespace(s[0]);
    assert TrimStart(s) == s;
    LeadingDigitsOfDigits(s);
  }

  /** The run of digits ends at the first non-digit. */
  lemma {:induction false} LeadingDigitsStopAt(a: string, c: char, x: string)
    requires AllDigits(a) && !IsDigit(c)
    ensures LeadingDigits(a + [c] + x) == a
  {
    if a != [] {
      assert (a + [c] + x)[1..] == a[1..] + [c] + x;
      LeadingDigitsStopAt(a[1..], c, x);
    }
  }

  lemma {:induction false} LeadingDigitsOfDigits(s: string)
    requires AllDigits(s)
    ensures LeadingDigits(s) == s
  {
    if s != [] {
      LeadingDigitsOfDigits(s[1..]);
    }
  }

  // ---------------------------------------------------------------------------
  // Sequences: Array.prototype.filter and counting
  // ---------------------------------------------------------------------------

  /** `xs.filter(p)`: the elements satisfying `p`, in their original order. */
  function Filter<T>(xs: seq<T>, p: T -> bool): (r: seq<T>)
    ensures |r| <= |xs|
    ensures forall i :: 0 <= i < |r| ==> r[i] in xs && p(r[i])
    ensures forall i :: 0 <= i < |xs| && p(xs[i]) ==> xs[i] in r
    ensures multiset(r) <= multiset(xs)
  {
    if xs == [] then []
    else
      assert xs == [xs[0]] + xs[1..];
      (if p(xs[0]) then [xs[0]] else []) + Filter(xs[1..], p)
  }

  lemma {:induction false} FilterAppend<T>(a: seq<T>, b: seq<T>, p: T -> bool)
    ensures Filter(a + b, p) == Filter(a, p) + Filter(b, p)
  {
    if a == [] {
      assert a + b == b;
    } else {
      assert (a + b)[1..] == a[1..] + b;
      FilterAppend(a[1..], b, p);
    }
  }

  /** Filtering a prefix one element longer. */
  lemma FilterSnoc<T>(xs: seq<T>, i: nat, p: T -> bool)
    requires i < |xs|
    ensures Filter(xs[..i + 1], p) == Filter(xs[..i], p) + (if p(xs[i]) then [xs[i]] else [])
  {
    assert xs[..i + 1] == xs[..i] + [xs[i]];
    FilterAppend(xs[..i], [xs[i]], p);
  }

  /** Every element already satisfies `p`: filtering changes nothing. */
  lemma {:induction false} FilterAll<T>(xs: seq<T>, p: T -> bool)
    requires forall i :: 0 <= i < |xs| ==> p(xs[i])
    ensures Filter(xs, p) == xs
  {
    if xs != [] {
      FilterAll(xs[1..], p);
    }
  }

  /** Two filters in a row are one filter by the conjunction. */
  lemma {:induction false} FilterFilter<T>(xs: seq<T>, p: T -> bool, q: T -> bool)
    ensures Filter(Filter(xs, p), q) == Filter(xs, x => p(x) && q(x))
  {
    if xs != [] {
      FilterFilter(xs[1..], p, q);
      var h := if p(xs[0]) then [xs[0]] else [];
      assert Filter(xs, p) == h + Filter(xs[1..], p);
      FilterAppend(h, Filter(xs[1..], p), q);
    }
  }

  /** The number of elements satisfying `p` (`xs.filter(p).length`). */
  function Count<T>(xs: seq<T>, p: T -> bool): nat
  {
    |Filter(xs, p)|
  }

  // ---------------------------------------------------------------------------
  // Arithmetic helpers
  // ---------------------------------------------------------------------------

  function Max(a: int, b: int): int { if a >= b then a else b }

  function Min(a: int, b: int): int { if a <= b then a else b }
}
