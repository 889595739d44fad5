/**
 * Lower-case hexadecimal rendering of a non-negative integer, as Python's
 * `uuid.UUID.hex` produces it: the 128-bit value of the UUID written as
 * exactly 32 hex digits, most significant first, zero-padded on the left.
 */
module Hex {

  /** The number of values that `width` hex digits can spell. */
  function Pow16(width: nat): (p: nat)
    ensures p > 0
  {
    if width == 0 then 1 else 16 * Pow16(width - 1)
  }

  predicate IsHexDigit(ch: char) {
    '0' <= ch <= '9' || 'a' <= ch <= 'f'
  }

  /** Every character is a lower-case hex digit. */
  predicate IsLowerHex(s: string) {
    forall i :: 0 <= i < |s| ==> IsHexDigit(s[i])
  }

  /** The shape of `uuid4().hex`: 32 lower-case hex digits. */
  predicate IsHexId(s: string) {
    |s| == 32 && IsLowerHex(s)
  }

  function DigitValue(ch: char): (v: nat)
    requires IsHexDigit(ch)
    ensures v < 16
  {
    if ch <= '9' then ch as int - '0' as int else ch as int - 'a' as int + 10
  }

  /** The hex digit for `v`; its value reads back as `v`. */
  function Digit(v: nat): (ch: char)
    requires v < 16
    ensures IsHexDigit(ch) && DigitValue(ch) == v
  {
    if v < 10 then ('0' as int + v) as char else ('a' as int + (v - 10)) as char
  }

  /**
   * The low `width` hex digits of `n`, most significant first
   * (Python's `'%0*x' % (width, n)` for `n < 16^width`).
   */
  function Render(n: nat, width: nat): (s: string)
    ensures |s| == width && IsLowerHex(s)
  {
    if width == 0 then "" else Render(n / 16, width - 1) + [Digit(n % 16)]
  }

  /** The value of a string of hex digits, most significant first. */
  function Parse(s: string): (n: nat)
    requires IsLowerHex(s)
    ensures n < Pow16(|s|)
  {
    if s == [] then 0 else 16 * Parse(s[..|s| - 1]) + DigitValue(s[|s| - 1])
  }

  /** Rendering loses nothing when `n` fits in `width` digits. */
  lemma {:induction false} ParseRender(n: nat, width: nat)
    requires n < Pow16(width)
    ensures Parse(Render(n, width)) == n
  {
    if width > 0 {
      var s := Render(n, width);
      assert s[..|s| - 1] == Render(n / 16, width - 1);
      ParseRender(n / 16, width - 1);
    }
  }

  /** Two values that fit in `width` digits render differently. */
  lemma RenderInjective(a: nat, b: nat, width: nat)
    requires a < Pow16(width) && b < Pow16(width)
    requires Render(a, width) == Render(b, width)
    ensures a == b
  {
    ParseRender(a, width);
    ParseRender(b, width);
  }
}
