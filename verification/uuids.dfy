/** The textual form of `uuid.uuid4()`: 128 random bits with the version
    nibble forced to 4 and the variant bits to `10`, printed as 32 lower-case
    hexadecimal digits grouped 8-4-4-4-12. The randomness itself is a
    parameter. */
module Uuids {

  /** 2^128: `random` below is any value `os.urandom(16)` can produce. */
  const UuidSpace: nat := 0x1_0000_0000_0000_0000_0000_0000_0000_0000

  predicate IsHexDigit(c: char) { '0' <= c <= '9' || 'a' <= c <= 'f' }

  function HexChar(d: nat): (c: char)
    requires d < 16
    ensures IsHexDigit(c)
  {
    if d < 10 then ('0' as int + d) as char else ('a' as int + d - 10) as char
  }

  function HexValue(c: char): (d: nat)
    requires IsHexDigit(c)
    ensures d < 16 && HexChar(d) == c
  {
    if c <= '9' then c as int - '0' as int else c as int - 'a' as int + 10
  }

  function Pow16(k: nat): (p: nat)
    ensures p >= 1
  {
    if k == 0 then 1 else 16 * Pow16(k - 1)
  }

  /** The low `width` hexadecimal digits of `n`, most significant first. */
  function HexDigits(n: nat, width: nat): (s: string)
    ensures |s| == width
    ensures forall i :: 0 <= i < |s| ==> IsHexDigit(s[i])
  {
    if width == 0 then [] else HexDigits(n / 16, width - 1) + [HexChar(n % 16)]
  }

  /** Reads a string of hexadecimal digits back as a number. */
  function ParseHex(s: string): nat
    requires forall i :: 0 <= i < |s| ==> IsHexDigit(s[i])
  {
    if s == [] then 0 else ParseHex(s[..|s| - 1]) * 16 + HexValue(s[|s| - 1])
  }

  lemma HexValueOfHexChar(d: nat)
    requires d < 16
    ensures HexValue(HexChar(d)) == d
  {
  }

  /** Rendering loses nothing: the digits read back as the number. */
  lemma {:induction false} HexRoundTrip(n: nat, width: nat)
    requires n < Pow16(width)
    ensures ParseHex(HexDigits(n, width)) == n
  {
    if width > 0 {
      var s := HexDigits(n, width);
      assert s[..|s| - 1] == HexDigits(n / 16, width - 1);
      HexRoundTrip(n / 16, width - 1);
      HexValueOfHexChar(n % 16);
    }
  }

  /** The leading `a` digits of a rendering of width `a + b` are the
      rendering of the number shifted right by `b` digits. */
  lemma {:induction false} HexDigitsSplit(n: nat, a: nat, b: nat)
    ensures HexDigits(n, a + b) == HexDigits(High(n, b), a) + HexDigits(n, b)
  {
    if b > 0 {
      HexDigitsSplit(n / 16, a, b - 1);
    }
  }

  /** The 32 digits after version and variant are forced. */
  function Uuid4Digits(random: nat): (d: string)
    requires random < UuidSpace
    ensures |d| == 32
    ensures forall i :: 0 <= i < 32 ==> IsHexDigit(d[i])
    ensures d[12] == '4' && d[16] in {'8', '9', 'a', 'b'}
    ensures d[..12] == HexDigits(random, 32)[..12]
  {
    var raw := HexDigits(random, 32);
    raw[..12] + "4" + raw[13..16] + [HexChar(8 + HexValue(raw[16]) % 4)] + raw[17..]
  }

  /** `str(uuid.uuid4())`. */
  function Uuid4Text(random: nat): (s: string)
    requires random < UuidSpace
    ensures |s| == 36
    ensures s[8] == '-' && s[13] == '-' && s[18] == '-' && s[23] == '-'
    ensures s[14] == '4' && s[19] in {'8', '9', 'a', 'b'}
    ensures forall i :: 0 <= i < 36 && i != 8 && i != 13 && i != 18 && i != 23 ==> IsHexDigit(s[i])
    ensures s[..8] == HexDigits(random, 32)[..8]
  {
    var d := Uuid4Digits(random);
    d[..8] + "-" + d[8..12] + "-" + d[12..16] + "-" + d[16..20] + "-" + d[20..]
  }

  /** `str(uuid.uuid4())[:8]`: eight hexadecimal digits, and they are
      exactly the top 32 random bits. */
  function ShortId(random: nat): (cid: string)
    requires random < UuidSpace
    ensures |cid| == 8 && cid != ""
    ensures forall i :: 0 <= i < 8 ==> IsHexDigit(cid[i])
    ensures cid == Uuid4Text(random)[..8]
  {
    Uuid4Text(random)[..8]
  }

  /** Two renderings of width `a + b` share their first `a` digits exactly
      when the numbers agree above the low `b` digits. For short ids
      (`a` = 8, `b` = 24) this says two generated ids coincide exactly when
      the top 32 random bits do, so distinct requests may collide. */
  lemma PrefixCollision(r1: nat, r2: nat, a: nat, b: nat)
    requires r1 < Pow16(a + b) && r2 < Pow16(a + b)
    ensures HexDigits(r1, a + b)[..a] == HexDigits(r2, a + b)[..a] <==> High(r1, b) == High(r2, b)
  {
    PrefixIsHigh(r1, a, b);
    PrefixIsHigh(r2, a, b);
    HighBound(r1, a, b);
    HighBound(r2, a, b);
    HexDigitsInjective(High(r1, b), High(r2, b), a);
  }

  /** The 32 digits of a UUID cover exactly the 128 random bits. */
  lemma {:induction false} UuidSpaceIsPow16()
    ensures Pow16(32) == UuidSpace
  {
    assert Pow16(1) == 0x10;
    assert Pow16(2) == 0x100;
    assert Pow16(3) == 0x1000;
    assert Pow16(4) == 0x1_0000;
    assert Pow16(5) == 0x10_0000;
    assert Pow16(6) == 0x100_0000;
    assert Pow16(7) == 0x1000_0000;
    assert Pow16(8) == 0x1_0000_0000;
    PowAdd(8, 8);
    PowAdd(16, 16);
  }

  /** Two short ids (`str(uuid.uuid4())[:8]`) coincide exactly when the top
      32 random bits agree, so distinct requests can share one. */
  lemma ShortIdCollision(r1: nat, r2: nat)
    requires r1 < UuidSpace && r2 < UuidSpace
    ensures ShortId(r1) == ShortId(r2) <==> High(r1, 24) == High(r2, 24)
  {
    UuidSpaceIsPow16();
    PrefixCollision(r1, r2, 8, 24);
  }

  /** Distinct numbers in range render differently. */
  lemma HexDigitsInjective(h1: nat, h2: nat, width: nat)
    requires h1 < Pow16(width) && h2 < Pow16(width)
    ensures HexDigits(h1, width) == HexDigits(h2, width) <==> h1 == h2
  {
    HexRoundTrip(h1, width);
    HexRoundTrip(h2, width);
  }

  /** `n` shifted right by `b` hexadecimal digits (`n / 16^b`), one digit
      at a time. */
  function High(n: nat, b: nat): nat
  {
    if b == 0 then n else High(n / 16, b - 1)
  }

  /** A number below 16^(a + b) shifted right by `b` digits is below 16^a. */
  lemma {:induction false} HighBound(r: nat, a: nat, b: nat)
    requires r < Pow16(a + b)
    ensures High(r, b) < Pow16(a)
  {
    if b > 0 {
      assert Pow16(a + b) == 16 * Pow16(a + (b - 1));
      HighBound(r / 16, a, b - 1);
    }
  }

  lemma PrefixIsHigh(r: nat, a: nat, b: nat)
    ensures HexDigits(r, a + b)[..a] == HexDigits(High(r, b), a)
  {
    HexDigitsSplit(r, a, b);
  }

  lemma {:induction false} PowAdd(a: nat, b: nat)
    ensures Pow16(a + b) == Pow16(a) * Pow16(b)
  {
    if a > 0 {
      PowAdd(a - 1, b);
    }
  }
}
