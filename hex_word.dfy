/**
 * 32-bit instruction words and their ASCII hexadecimal spelling.
 *
 * The harnesses read each data line of an instruction-sequence file with
 * `std::stringstream >> std::hex` into an `unsigned int`.  On a line made of
 * hexadecimal digits that extraction yields the value of the digits, most
 * significant first, in either letter case; it stops at the first character
 * that is not a digit, and a value too large for 32 bits is replaced by the
 * largest one.
 */
module HexWord {

  const WordLimit: int := 0x1_0000_0000

  /** An unsigned 32-bit word. */
  type Word = n: int | 0 <= n < 0x1_0000_0000

  predicate IsHexDigit(c: char) {
    ('0' <= c <= '9') || ('a' <= c <= 'f') || ('A' <= c <= 'F')
  }

  predicate IsHexString(s: string) {
    forall i :: 0 <= i < |s| ==> IsHexDigit(s[i])
  }

  function DigitValue(c: char): (d: nat)
    requires IsHexDigit(c)
    ensures d < 16
  {
    if '0' <= c <= '9' then c as int - '0' as int
    else if 'a' <= c <= 'f' then c as int - 'a' as int + 10
    else c as int - 'A' as int + 10
  }

  /** The digit that spells `d`, upper case as the sequence files use. */
  function DigitChar(d: nat): (c: char)
    requires d < 16
    ensures IsHexDigit(c) && DigitValue(c) == d
  {
    if d < 10 then ('0' as int + d) as char else ('A' as int + d - 10) as char
  }

  /** Folds a letter digit to lower case; other characters are unchanged. */
  function LowerDigit(c: char): char {
    if 'A' <= c <= 'F' then (c as int - 'A' as int + 'a' as int) as char else c
  }

  function Pow16(n: nat): (p: nat)
    ensures p >= 1
  {
    if n == 0 then 1 else 16 * Pow16(n - 1)
  }

  /** The value of a string of hexadecimal digits, most significant digit first. */
  function HexValue(s: string): nat
    requires IsHexString(s)
  {
    if s == [] then 0 else HexValue(s[..|s| - 1]) * 16 + DigitValue(s[|s| - 1])
  }

  lemma {:induction false} HexValueBound(s: string)
    requires IsHexString(s)
    ensures HexValue(s) < Pow16(|s|)
  {
    if s != [] {
      HexValueBound(s[..|s| - 1]);
    }
  }

  /** The longest prefix of `s` made of hexadecimal digits: what the extraction consumes. */
  function HexPrefix(s: string): (p: string)
    ensures |p| <= |s| && p == s[..|p|]
    ensures IsHexString(p)
    ensures |p| < |s| ==> !IsHexDigit(s[|p|])
  {
    if s == [] || !IsHexDigit(s[0]) then []
    else [s[0]] + HexPrefix(s[1..])
  }

  lemma {:induction false} Pow16Monotone(m: nat, n: nat)
    ensures m <= n ==> Pow16(m) <= Pow16(n)
  {
    if m < n {
      Pow16Monotone(m, n - 1);
    }
  }

  lemma WordDigits()
    ensures Pow16(8) == WordLimit
  {
  }

  /**
   * The word `>> std::hex` stores for a line: the value of its leading
   * hexadecimal digits, 0 when there are none, and 0xFFFFFFFF when the value
   * does not fit in 32 bits.
   */
  function ExtractHex(s: string): (w: Word)
    ensures IsHexString(s) && HexValue(s) < WordLimit ==> w == HexValue(s)
    ensures IsHexString(s) && HexValue(s) >= WordLimit ==> w == WordLimit - 1
  {
    var p := HexPrefix(s);
    assert IsHexString(s) ==> p == s;
    HexValueBound(p);
    Pow16Monotone(|p|, 8);
    WordDigits();
    if HexValue(p) < WordLimit then HexValue(p) else WordLimit - 1
  }

  /** A line of at most eight hex digits, as the 8-character loaders accept, always decodes to its exact value. */
  lemma EightDigitsDecodeExactly(s: string)
    requires IsHexString(s) && |s| <= 8
    ensures ExtractHex(s) == HexValue(s)
  {
    HexValueBound(s);
    Pow16Monotone(|s|, 8);
    WordDigits();
  }

  /** The `n`-digit upper-case spelling of `v`, most significant digit first. */
  function FormatHex(v: nat, n: nat): (s: string)
    requires v < Pow16(n)
    ensures |s| == n && IsHexString(s)
  {
    if n == 0 then [] else FormatHex(v / 16, n - 1) + [DigitChar(v % 16)]
  }

  /** A data line as the sequence files spell a word: eight hexadecimal digits. */
  function FormatWord(w: Word): (s: string)
    ensures |s| == 8 && IsHexString(s)
  {
    WordDigits();
    FormatHex(w, 8)
  }

  lemma {:induction false} FormatHexRoundTrip(v: nat, n: nat)
    requires v < Pow16(n)
    ensures HexValue(FormatHex(v, n)) == v
  {
    if n > 0 {
      var s := FormatHex(v, n);
      FormatHexRoundTrip(v / 16, n - 1);
      assert s[..|s| - 1] == FormatHex(v / 16, n - 1);
    }
  }

  /** Decoding a line written by FormatWord gives back the word. */
  lemma WordRoundTrip(w: Word)
    ensures ExtractHex(FormatWord(w)) == w
  {
    WordDigits();
    FormatHexRoundTrip(w, 8);
  }

  /** Decoding is case-insensitive: digits that differ only in letter case give the same value. */
  lemma {:induction false} HexValueIgnoresCase(s: string, t: string)
    requires IsHexString(s) && IsHexString(t) && |s| == |t|
    requires forall i :: 0 <= i < |s| ==> LowerDigit(s[i]) == LowerDigit(t[i])
    ensures HexValue(s) == HexValue(t)
  {
    if s != [] {
      HexValueIgnoresCase(s[..|s| - 1], t[..|t| - 1]);
      assert LowerDigit(s[|s| - 1]) == LowerDigit(t[|t| - 1]);
    }
  }
}
