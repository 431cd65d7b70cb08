/** The part of `java.awt.Color` the caches rely on: four 8-bit channels and
    their packing into one `int` by `getRGB`. */
module Awt {
  import opened JavaLang

  type Channel = x: int | 0 <= x < 256

  datatype Color = Color(red: Channel, green: Channel, blue: Channel, alpha: Channel)

  const Black := Color(0, 0, 0, 255)

  /** `getRGB`: alpha in the top byte, then red, green and blue, read as a
      signed `int`. */
  function GetRGB(c: Color): Int32 {
    Wrap(Packed(c))
  }

  /** `new Color(rgb, true)`: the four channels unpacked from an `int`. */
  function FromRGB(v: Int32): Color {
    var u := if v < 0 then v + 0x1_0000_0000 else v as int;
    Color((u / 0x1_0000) % 0x100, (u / 0x100) % 0x100, u % 0x100, u / 0x100_0000)
  }

  /** The packed value before it is read as a signed `int`. */
  function Packed(c: Color): (u: int)
    ensures 0 <= u < 0x1_0000_0000
  {
    c.alpha * 0x100_0000 + c.red * 0x1_0000 + c.green * 0x100 + c.blue
  }

  /** A nonzero multiple of a positive `m` is at least `m` away from zero. */
  lemma MultipleBound(d: int, m: int)
    requires 0 < m
    ensures d >= 1 ==> d * m >= m
    ensures d <= -1 ==> d * m <= -m
  {
    if d >= 1 {
      assert d * m == (d - 1) * m + m;
    } else if d <= -1 {
      assert d * m == (d + 1) * m - m;
    }
  }

  /** Division by a positive `m` is determined by quotient and remainder. */
  lemma DivModOf(u: int, q: int, r: int, m: int)
    requires 0 < m && 0 <= r < m && u == q * m + r
    ensures u / m == q && u % m == r
  {
    var d := q - u / m;
    assert d * m == u % m - r;
    MultipleBound(d, m);
  }

  /** `getRGB` read back as an unsigned value is the packed value. */
  lemma GetRGBUnsigned(c: Color)
    ensures (if GetRGB(c) < 0 then GetRGB(c) + 0x1_0000_0000 else GetRGB(c) as int) == Packed(c)
  {
    var u := Packed(c);
    if u <= MaxInt {
      assert GetRGB(c) == u;
    } else {
      assert GetRGB(c) == Wrap(u);
      assert Wrap(u) == u - 0x1_0000_0000;
    }
  }

  /** Unpacking the packed value gives back the colour, so `getRGB` tells
      colours apart. */
  lemma RGBRoundTrip(c: Color)
    ensures FromRGB(GetRGB(c)) == c
  {
    var u := Packed(c);
    GetRGBUnsigned(c);
    DivModOf(u, c.alpha * 0x1_0000 + c.red * 0x100 + c.green, c.blue, 0x100);
    DivModOf(c.alpha * 0x1_0000 + c.red * 0x100 + c.green, c.alpha * 0x100 + c.red, c.green, 0x100);
    DivModOf(u, c.alpha * 0x100 + c.red, c.green * 0x100 + c.blue, 0x1_0000);
    DivModOf(c.alpha * 0x100 + c.red, c.alpha, c.red, 0x100);
    DivModOf(u, c.alpha, c.red * 0x1_0000 + c.green * 0x100 + c.blue, 0x100_0000);
  }

  lemma GetRGBInjective(c1: Color, c2: Color)
    ensures GetRGB(c1) == GetRGB(c2) ==> c1 == c2
  {
    RGBRoundTrip(c1);
    RGBRoundTrip(c2);
  }
}
