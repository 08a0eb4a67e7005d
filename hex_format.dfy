/** Fixed-width, zero-padded, upper-case hexadecimal, as written by
    `format_hex_no_prefix(N, 16, /*Upper=*/true)`, and its inverse. */
module HexFormat {

  const DIGITS: string := "0123456789ABCDEF"

  function Pow16(w: nat): (p: nat)
    ensures p > 0
  {
    if w == 0 then 1 else 16 * Pow16(w - 1)
  }

  predicate IsUpperHexDigit(c: char) {
    '0' <= c <= '9' || 'A' <= c <= 'F'
  }

  function DigitValue(c: char): (d: nat)
    requires IsUpperHexDigit(c)
    ensures d < 16 && DIGITS[d] == c
  {
    if c <= '9' then (c - '0') as nat else (c - 'A') as nat + 10
  }

  /** The low `w` hexadecimal digits of `n`, most significant first. */
  function HexDigits(n: nat, w: nat): (s: string)
    ensures |s| == w
    ensures forall k :: 0 <= k < |s| ==> IsUpperHexDigit(s[k])
  {
    if w == 0 then [] else HexDigits(n / 16, w - 1) + [DIGITS[n % 16]]
  }

  /** Reads a string of upper-case hex digits back as a number. */
  function ParseHex(s: string): nat
    requires forall k :: 0 <= k < |s| ==> IsUpperHexDigit(s[k])
  {
    if s == [] then 0 else 16 * ParseHex(s[..|s| - 1]) + DigitValue(s[|s| - 1])
  }

  /** Parsing undoes printing whenever `n` fits in `w` digits. */
  lemma {:induction false} ParseHexDigits(n: nat, w: nat)
    requires n < Pow16(w)
    ensures ParseHex(HexDigits(n, w)) == n
  {
    if w > 0 {
      var s := HexDigits(n, w);
      assert n / 16 < Pow16(w - 1);
      ParseHexDigits(n / 16, w - 1);
      assert s[..|s| - 1] == HexDigits(n / 16, w - 1);
      assert DigitValue(s[|s| - 1]) == n % 16;
    }
  }

  lemma Pow16Is64Bits()
    ensures Pow16(16) == 0x1_0000_0000_0000_0000
  {
    assert Pow16(4) == 0x1_0000;
    assert Pow16(8) == 0x1_0000_0000;
    assert Pow16(12) == 0x1_0000_0000_0000;
  }

  /** The 16-digit rendering of a 64-bit value. */
  function Hex16Upper(n: nat): (s: string)
    requires n < 0x1_0000_0000_0000_0000
    ensures |s| == 16
    ensures forall k :: 0 <= k < |s| ==> IsUpperHexDigit(s[k])
  {
    HexDigits(n, 16)
  }

  /** No two 64-bit values print the same way. */
  lemma Hex16UpperRoundTrip(n: nat)
    requires n < 0x1_0000_0000_0000_0000
    ensures ParseHex(Hex16Upper(n)) == n
  {
    Pow16Is64Bits();
    ParseHexDigits(n, 16);
  }
}
