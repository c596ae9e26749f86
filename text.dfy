/** The string primitives of JavaScript that the core relies on: `trim` (and its use as a
    truthiness test), `padStart`, and the decimal rendering of an integer. */
module Text {

  /** A character that `String.prototype.trim` removes: the ECMAScript WhiteSpace and
      LineTerminator code points. */
  predicate IsJsWhitespace(c: char)
  {
    var n := c as int;
    n == 0x09 || n == 0x0A || n == 0x0B || n == 0x0C || n == 0x0D || n == 0x20
    || n == 0xA0 || n == 0x1680 || (0x2000 <= n <= 0x200A) || n == 0x2028 || n == 0x2029
    || n == 0x202F || n == 0x205F || n == 0x3000 || n == 0xFEFF
  }

  /** Every character of `s` is white space (the empty string included). */
  predicate IsBlank(s: string)
  {
    forall i :: 0 <= i < |s| ==> IsJsWhitespace(s[i])
  }

  /** The first index at or after `i` whose character is not white space, or `|s|`. */
  function SkipBlanks(s: string, i: nat): (j: nat)
    requires i <= |s|
    ensures i <= j <= |s|
    ensures forall k :: i <= k < j ==> IsJsWhitespace(s[k])
    ensures j == |s| || !IsJsWhitespace(s[j])
    decreases |s| - i
  {
    if i < |s| && IsJsWhitespace(s[i]) then SkipBlanks(s, i + 1) else i
  }

  /** The index just past the last character of `s[lo..hi]` that is not white space, or `lo`. */
  function DropBlanks(s: string, lo: nat, hi: nat): (j: nat)
    requires lo <= hi <= |s|
    ensures lo <= j <= hi
    ensures forall k :: j <= k < hi ==> IsJsWhitespace(s[k])
    ensures j == lo || !IsJsWhitespace(s[j - 1])
    decreases hi - lo
  {
    if lo < hi && IsJsWhitespace(s[hi - 1]) then DropBlanks(s, lo, hi - 1) else hi
  }

  /** `s.trim()`: the middle of `s` left once its white-space ends are removed. */
  function Trim(s: string): (r: string)
    ensures r == "" || (!IsJsWhitespace(r[0]) && !IsJsWhitespace(r[|r| - 1]))
    ensures |r| <= |s|
    ensures exists i, j :: 0 <= i <= j <= |s| && r == s[i..j]
                           && (forall k :: 0 <= k < i ==> IsJsWhitespace(s[k]))
                           && (forall k :: j <= k < |s| ==> IsJsWhitespace(s[k]))
  {
    var i := SkipBlanks(s, 0);
    var j := DropBlanks(s, i, |s|);
    s[i..j]
  }

  /** `!s.trim()` holds exactly when `s` is blank: the guard used by every handler that
      refuses empty text. */
  lemma TrimEmptyIffBlank(s: string)
    ensures Trim(s) == "" <==> IsBlank(s)
  {
    var i := SkipBlanks(s, 0);
    var j := DropBlanks(s, i, |s|);
    assert Trim(s) == s[i..j];
    if IsBlank(s) {
      assert i == |s|;
    }
  }

  /** The guard `!s.trim()`, read through its meaning. */
  predicate TrimsToEmpty(s: string)
    ensures TrimsToEmpty(s) <==> IsBlank(s)
  {
    TrimEmptyIffBlank(s);
    Trim(s) == ""
  }

  /** `s.startsWith(prefix)`. */
  predicate StartsWith(s: string, prefix: string)
  {
    |prefix| <= |s| && s[..|prefix|] == prefix
  }

  /** `s.padStart(width, fill)`: `fill` repeated on the left until the length reaches
      `width`; a string already that long is returned unchanged. */
  function PadStart(s: string, width: nat, fill: char): (r: string)
    ensures |r| == if |s| >= width then |s| else width
    ensures r[|r| - |s|..] == s
    ensures forall k :: 0 <= k < |r| - |s| ==> r[k] == fill
  {
    if |s| >= width then s else seq(width - |s|, _ => fill) + s
  }

  predicate IsDigit(c: char)
  {
    '0' <= c <= '9'
  }

  predicate IsDigits(s: string)
  {
    forall i :: 0 <= i < |s| ==> IsDigit(s[i])
  }

  function DigitChar(d: nat): (c: char)
    requires d < 10
    ensures IsDigit(c) && (c as int) - ('0' as int) == d
  {
    ('0' as int + d) as char
  }

  function DigitValue(c: char): (d: nat)
    requires IsDigit(c)
    ensures d < 10 && DigitChar(d) == c
  {
    (c as int - '0' as int)
  }

  /** The decimal rendering of a non-negative integer (`n.toString()`). */
  function NatToString(n: nat): (r: string)
    ensures |r| >= 1 && IsDigits(r)
    ensures r[0] == '0' ==> n == 0
  {
    if n < 10 then [DigitChar(n)] else NatToString(n / 10) + [DigitChar(n % 10)]
  }

  /** The decimal rendering of any integer, with a leading '-' when negative (what a template
      literal or `toString` produces for an integral number). */
  function IntToString(i: int): (r: string)
    ensures |r| >= 1
    ensures i >= 0 <==> IsDigits(r)
    ensures i < 0 ==> r[0] == '-' && r[1..] == NatToString(-i)
  {
    if i < 0 then
      var r := "-" + NatToString(-i);
      assert !IsDigit(r[0]);
      r
    else NatToString(i)
  }

  /** The value of a string of decimal digits. */
  function ParseNat(s: string): (n: nat)
    requires IsDigits(s)
  {
    if s == [] then 0 else 10 * ParseNat(s[..|s| - 1]) + DigitValue(s[|s| - 1])
  }

  /** Parsing the decimal rendering of `n` gives back `n`. */
  lemma {:induction false} ParseNatToString(n: nat)
    ensures ParseNat(NatToString(n)) == n
  {
    var r := NatToString(n);
    if n >= 10 {
      var p := NatToString(n / 10);
      assert r == p + [DigitChar(n % 10)];
      assert r[..|r| - 1] == p;
      ParseNatToString(n / 10);
    }
  }

  /** The same round trip for a non-negative integer rendered by `IntToString`. */
  lemma ParseIntToString(i: int)
    ensures i >= 0 ==> IsDigits(IntToString(i)) && ParseNat(IntToString(i)) == i
  {
    if i >= 0 { ParseNatToString(i); }
  }

  /** One digit below ten, two from ten to ninety-nine, more from a hundred up. */
  lemma {:induction false} NatToStringLength(n: nat)
    ensures |NatToString(n)| == 1 <==> n < 10
    ensures 10 <= n < 100 ==> |NatToString(n)| == 2
    ensures n >= 100 ==> |NatToString(n)| >= 3
  {
    if n >= 10 {
      NatToStringLength(n / 10);
    }
  }
}
