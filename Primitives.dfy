/**
 * Value types of the .NET runtime that the sale rules rely on: fixed-width
 * integers, DateTime as ticks, Guid as a 128-bit value, and the string
 * predicates FluentValidation applies (blank test, UTF-16 length), plus the
 * text forms that end up inside error messages.
 */
module Primitives {

  datatype Option<T> = None | Some(value: T)

  /** C# `int`. */
  type Int32 = x: int | -0x8000_0000 <= x < 0x8000_0000

  /** C# `long`. */
  type Int64 = x: int | -0x8000_0000_0000_0000 <= x < 0x8000_0000_0000_0000

  /** Ticks of DateTime.MaxValue (100 ns units since 0001-01-01). */
  const MaxTicks: int := 3_155_378_975_999_999_999

  /**
   * A DateTime, as its tick count. DateTime comparisons compare ticks only
   * (the Kind is ignored), so local and UTC times are both plain ticks here.
   */
  type Ticks = t: int | 0 <= t <= MaxTicks

  /** default(DateTime), i.e. DateTime.MinValue. */
  const DefaultDate: Ticks := 0

  /** A Guid, as the 128-bit number its 32 hex digits spell. */
  type Guid = g: int | 0 <= g < 0x1_0000_0000_0000_0000_0000_0000_0000_0000

  /** Guid.Empty. */
  const EmptyGuid: Guid := 0

  /** char.IsWhiteSpace: the Unicode space separators, line and paragraph separators and the listed controls. */
  predicate IsWhiteSpace(c: char) {
    || ('\t' <= c <= '\r')
    || c == ' '
    || c == '\U{85}'
    || c == '\U{A0}'
    || c == '\U{1680}'
    || ('\U{2000}' <= c <= '\U{200A}')
    || c == '\U{2028}'
    || c == '\U{2029}'
    || c == '\U{202F}'
    || c == '\U{205F}'
    || c == '\U{3000}'
  }

  /** string.IsNullOrWhiteSpace for a non-null string: empty or white space only. */
  predicate IsBlank(s: string) {
    forall i :: 0 <= i < |s| ==> IsWhiteSpace(s[i])
  }

  /** string.Length: UTF-16 code units, so a character outside the BMP counts twice. */
  function Utf16Length(s: string): (n: nat)
    ensures |s| <= n <= 2 * |s|
    ensures (forall i :: 0 <= i < |s| ==> s[i] as int <= 0xFFFF) ==> n == |s|
    decreases |s|
  {
    if s == [] then 0
    else Utf16Length(s[..|s| - 1]) + (if s[|s| - 1] as int <= 0xFFFF then 1 else 2)
  }

  function HexDigit(d: int): (c: char)
    requires 0 <= d < 16
    ensures IsLowerHex(c) && HexValue(c) == d
  {
    if d < 10 then ('0' as int + d) as char else ('a' as int + d - 10) as char
  }

  /** A digit of Guid's "D" format: 0-9 or a-f. */
  predicate IsLowerHex(c: char) {
    '0' <= c <= '9' || 'a' <= c <= 'f'
  }

  function HexValue(c: char): int {
    if '0' <= c <= '9' then c as int - '0' as int
    else if 'a' <= c <= 'f' then c as int - 'a' as int + 10
    else 0
  }

  function Pow16(n: nat): (p: nat)
    ensures p >= 1
  {
    if n == 0 then 1 else 16 * Pow16(n - 1)
  }

  lemma {:induction false} Pow16Add(a: nat, b: nat)
    ensures Pow16(a + b) == Pow16(a) * Pow16(b)
    decreases a
  {
    if a > 0 {
      Pow16Add(a - 1, b);
    }
  }

  /** Every Guid fits in 32 hex digits. */
  lemma Pow16Of32()
    ensures Pow16(32) == 0x1_0000_0000_0000_0000_0000_0000_0000_0000
  {
    assert Pow16(1) == 16 && Pow16(2) == 0x100 && Pow16(3) == 0x1000 && Pow16(4) == 0x1_0000;
    Pow16Add(4, 4);
    Pow16Add(8, 8);
    Pow16Add(16, 16);
  }

  /** The lowest `width` hex digits of `v`, most significant first, zero-padded. */
  function HexDigits(v: nat, width: nat): (s: string)
    ensures |s| == width
    ensures forall i :: 0 <= i < |s| ==> IsLowerHex(s[i])
  {
    if width == 0 then "" else HexDigits(v / 16, width - 1) + [HexDigit(v % 16)]
  }

  /** The number a string of hex digits spells, most significant first. */
  function ParseHex(s: string): nat {
    if s == [] then 0 else ParseHex(s[..|s| - 1]) * 16 + HexValue(s[|s| - 1])
  }

  /** Reading the digits back gives the number, when it fits the width. */
  lemma {:induction false} ParseHexDigits(v: nat, width: nat)
    requires v < Pow16(width)
    ensures ParseHex(HexDigits(v, width)) == v
  {
    if width > 0 {
      var s := HexDigits(v, width);
      assert s[..|s| - 1] == HexDigits(v / 16, width - 1);
      assert v / 16 < Pow16(width - 1);
      ParseHexDigits(v / 16, width - 1);
    }
  }

  /** Guid.ToString(): the "D" format, 8-4-4-4-12 lower-case hex digits. */
  function GuidText(g: Guid): (s: string)
    ensures |s| == 36
    ensures s[8] == '-' && s[13] == '-' && s[18] == '-' && s[23] == '-'
    ensures forall i :: 0 <= i < 36 && i != 8 && i != 13 && i != 18 && i != 23 ==> IsLowerHex(s[i])
  {
    var h := HexDigits(g, 32);
    h[..8] + "-" + h[8..12] + "-" + h[12..16] + "-" + h[16..20] + "-" + h[20..]
  }

  /** Guid.Parse of the "D" format: the 32 digits around the four dashes. */
  function ParseGuidText(s: string): nat
    requires |s| == 36
  {
    ParseHex(s[..8] + s[9..13] + s[14..18] + s[19..23] + s[24..])
  }

  /** The text of a Guid names it: parsing it gives the Guid back. */
  lemma GuidTextRoundTrip(g: Guid)
    ensures ParseGuidText(GuidText(g)) == g
  {
    var h := HexDigits(g, 32);
    var s := GuidText(g);
    assert s[..8] + s[9..13] + s[14..18] + s[19..23] + s[24..] == h;
    Pow16Of32();
    ParseHexDigits(g, 32);
  }

  function DecimalDigits(n: nat): (s: string)
    ensures |s| >= 1
    ensures forall i :: 0 <= i < |s| ==> '0' <= s[i] <= '9'
  {
    if n < 10 then [('0' as int + n) as char]
    else DecimalDigits(n / 10) + [('0' as int + n % 10) as char]
  }

  /** The number a string of decimal digits spells, most significant first. */
  function ParseDecimal(s: string): int {
    if s == [] then 0 else ParseDecimal(s[..|s| - 1]) * 10 + (s[|s| - 1] as int - '0' as int)
  }

  lemma {:induction false} ParseDecimalDigits(n: nat)
    ensures ParseDecimal(DecimalDigits(n)) == n
  {
    if n >= 10 {
      var s := DecimalDigits(n);
      assert s[..|s| - 1] == DecimalDigits(n / 10);
      ParseDecimalDigits(n / 10);
    } else {
      assert DecimalDigits(n)[..0] == [];
    }
  }

  /**
   * long.ToString() for a culture whose negative sign is '-': an optional
   * '-' and then the decimal digits of the magnitude, without leading zeros.
   */
  function Int64Text(n: Int64): (s: string)
    ensures |s| >= 1
    ensures forall i :: 0 <= i < |s| ==> s[i] == '-' || '0' <= s[i] <= '9'
    ensures s[0] == '-' <==> n < 0
  {
    if n < 0 then "-" + DecimalDigits(-(n as int)) else DecimalDigits(n)
  }

  /** long.Parse of that text. */
  function ParseInt64Text(s: string): int {
    if |s| > 0 && s[0] == '-' then -ParseDecimal(s[1..]) else ParseDecimal(s)
  }

  /** The text of a long names it: parsing it gives the number back. */
  lemma Int64TextRoundTrip(n: Int64)
    ensures ParseInt64Text(Int64Text(n)) == n
  {
    if n < 0 {
      assert Int64Text(n)[1..] == DecimalDigits(-(n as int));
      ParseDecimalDigits(-(n as int));
    } else {
      ParseDecimalDigits(n);
    }
  }
}
