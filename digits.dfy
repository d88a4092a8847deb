/** `Number.prototype.toString(radix)` on integers, `padStart(2, '0')`, and the
    digit reading that `parseInt` performs, for the radixes 10 and 16. */
module Digits {
  import opened Js

  predicate IsRadix(base: int) {
    base == 10 || base == 16
  }

  /** The digit character JavaScript prints for `d` (lower-case for 10..15). */
  function DigitChar(d: int): char
    requires 0 <= d < 16
  {
    "0123456789abcdef"[d]
  }

  /** The value of a digit character in radix 16, either case; -1 for any other character. */
  function HexValue(c: char): int {
    if '0' <= c <= '9' then c as int - '0' as int
    else if 'a' <= c <= 'f' then c as int - 'a' as int + 10
    else if 'A' <= c <= 'F' then c as int - 'A' as int + 10
    else -1
  }

  /** `c` is a digit of radix `base`. */
  predicate IsDigit(c: char, base: int)
    requires IsRadix(base)
  {
    0 <= HexValue(c) < base
  }

  predicate AllDigits(s: string, base: int)
    requires IsRadix(base)
  {
    forall i :: 0 <= i < |s| ==> IsDigit(s[i], base)
  }

  /** The digits of `n` in radix `base`, most significant first, without leading zeros. */
  function ToDigits(n: nat, base: int): (r: string)
    requires IsRadix(base)
    ensures |r| >= 1 && AllDigits(r, base)
    ensures n < base <==> |r| == 1
    decreases n
  {
    if n < base then [DigitChar(n)] else ToDigits(n / base, base) + [DigitChar(n % base)]
  }

  /** The value of a string of digits. */
  function FromDigits(s: string, base: int): (n: nat)
    requires IsRadix(base) && AllDigits(s, base)
    decreases |s|
  {
    if s == [] then 0
    else FromDigits(s[..|s| - 1], base) * base + HexValue(s[|s| - 1])
  }

  lemma DigitCharValue(d: int)
    requires 0 <= d < 16
    ensures HexValue(DigitChar(d)) == d
  {
  }

  /** Reading back the printed digits gives the number. */
  lemma {:induction false} FromToDigits(n: nat, base: int)
    requires IsRadix(base)
    ensures FromDigits(ToDigits(n, base), base) == n
    decreases n
  {
    var s := ToDigits(n, base);
    if n < base {
      DigitCharValue(n);
      assert s[..0] == [];
    } else {
      FromToDigits(n / base, base);
      DigitCharValue(n % base);
      assert s[..|s| - 1] == ToDigits(n / base, base);
    }
  }

  /** `n.toString(base)`: a minus sign, then the digits of the magnitude. */
  function IntToString(n: int, base: int): string
    requires IsRadix(base)
  {
    if n < 0 then "-" + ToDigits(-n, base) else ToDigits(n, base)
  }

  /** `s.padStart(2, '0')` */
  function PadStart2(s: string): (r: string)
    ensures |r| == if |s| >= 2 then |s| else 2
    ensures r[|r| - |s|..] == s
    ensures forall i :: 0 <= i < |r| - |s| ==> r[i] == '0'
  {
    if |s| >= 2 then s else seq(2 - |s|, _ => '0') + s
  }

  /** A number in 0..base*base-1 prints, padded, as exactly its two digits. */
  lemma {:induction false} PadTwoDigits(n: nat, base: int)
    requires IsRadix(base) && n < base * base
    ensures PadStart2(IntToString(n, base)) == [DigitChar(n / base), DigitChar(n % base)]
  {
    var q, r := n / base, n % base;
    assert q < base by {
      if base == 10 { assert n < 100; } else { assert n < 256; }
    }
    if n < base {
      assert q == 0 && r == n;
      assert IntToString(n, base) == [DigitChar(n)];
    } else {
      assert IntToString(n, base) == ToDigits(q, base) + [DigitChar(r)];
      assert ToDigits(q, base) == [DigitChar(q)];
    }
  }

  /** The longest prefix of `s` made of digits of radix `base`. */
  function DigitPrefix(s: string, base: int): (r: string)
    requires IsRadix(base)
    ensures AllDigits(r, base) && |r| <= |s| && r == s[..|r|]
    ensures |r| < |s| ==> !IsDigit(s[|r|], base)
    decreases |s|
  {
    if s != [] && IsDigit(s[0], base) then [s[0]] + DigitPrefix(s[1..], base) else []
  }

  /** `parseInt(s, 16)`: leading white space, an optional sign and an optional
      `0x`/`0X` are skipped, then the longest run of hex digits is read; with no
      digit at all the result is NaN (`None`). */
  function ParseIntHex(s: string): Option<int> {
    var t := TrimStart(s);
    var negative := |t| > 0 && t[0] == '-';
    var u := if |t| > 0 && (t[0] == '-' || t[0] == '+') then t[1..] else t;
    var v := if |u| >= 2 && u[0] == '0' && (u[1] == 'x' || u[1] == 'X') then u[2..] else u;
    var d := DigitPrefix(v, 16);
    var n: int := if d == [] then 0 else FromDigits(d, 16);
    if d == [] then None else if negative then Some(-n) else Some(n)
  }

  lemma DigitNotSpace(c: char)
    requires IsDigit(c, 16)
    ensures !IsWhitespace(c) && c != '-' && c != '+' && c != 'x' && c != 'X'
  {
  }

  lemma PrefixOfTwoDigits(a: char, b: char)
    requires IsDigit(a, 16) && IsDigit(b, 16)
    ensures DigitPrefix([a, b], 16) == [a, b]
    ensures FromDigits([a, b], 16) == 16 * HexValue(a) + HexValue(b)
  {
    assert [a, b][1..] == [b];
    assert [b][1..] == [];
    assert [a, b][..1] == [a];
    assert [a][..0] == [];
    assert FromDigits([a], 16) == HexValue(a);
    assert FromDigits([a, b], 16) == FromDigits([a], 16) * 16 + HexValue(b);
  }

  /** Two hex digits parse to their value. */
  lemma ParseTwoHexDigits(a: char, b: char)
    requires IsDigit(a, 16) && IsDigit(b, 16)
    ensures ParseIntHex([a, b]) == Some(16 * HexValue(a) + HexValue(b))
  {
    DigitNotSpace(a);
    DigitNotSpace(b);
    assert TrimStart([a, b]) == [a, b];
    PrefixOfTwoDigits(a, b);
  }
}
