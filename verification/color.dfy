/** The camel colours of `calc/src/color.rs`: five real colours plus a
    sentinel `None`, their integer index and their one-bit byte mask. */
module Colors {
  import Seqs

  /** Rust's `u8`. */
  type U8 = n: nat | n < 256

  datatype Color = Blue | Green | Orange | White | Yellow | None

  /** A colour that stands for a camel, i.e. not the sentinel. */
  predicate IsCamel(c: Color) {
    c != Color.None
  }

  /** The five camel colours in index order (`Color::all()`). */
  const All: seq<Color> := [Blue, Green, Orange, White, Yellow]

  /** The five camel colours are five different values. */
  lemma AllDistinct()
    ensures Seqs.Distinct(All) && |set c | c in All| == 5
  {
    forall j, l | 0 <= j < l < 5 ensures All[j] != All[l] {
      assert j == 0 || j == 1 || j == 2 || j == 3;
      assert l == 1 || l == 2 || l == 3 || l == 4;
    }
    Seqs.DistinctCard(All);
  }

  /** `From<Color> for usize` and `From<Color> for u8`, which agree:
      Blue..Yellow are 0..4 and the sentinel is 5. */
  function Index(c: Color): (i: U8)
    ensures i <= 5
    ensures i == 5 <==> c == Color.None
    ensures c != Color.None ==> All[i] == c
  {
    match c
    case Blue => 0
    case Green => 1
    case Orange => 2
    case White => 3
    case Yellow => 4
    case None => 5
  }

  /** `From<usize> for Color` and `From<u8> for Color`, which agree:
      0..4 are the camel colours and every other integer is `None`. */
  function FromIndex(n: nat): (c: Color)
    ensures n < 5 ==> c == All[n]
    ensures n >= 5 <==> c == Color.None
  {
    match n
    case 0 => Blue
    case 1 => Green
    case 2 => Orange
    case 3 => White
    case 4 => Yellow
    case _ => Color.None
  }

  /** `Color::as_byte`: the mask `1 << (7 - index)`, one bit per colour with
      Blue in the most significant bit.  The sentinel has index 5 and lands
      on bit 2, inside the low three bits that `ColorState` uses as cursor. */
  function AsByte(c: Color): (b: bv8)
    ensures b != 0 && b & (b - 1) == 0
    ensures c != Color.None ==> b & 0x07 == 0 && b & 0xF8 == b
    ensures c == Color.None ==> b == 0x04
  {
    (1 as bv8) << (7 - Index(c))
  }

  /** `Color::from_byte`: the inverse of `AsByte` on the five camel masks;
      every other byte decodes to `None`. */
  function FromByte(b: bv8): (c: Color)
    ensures c != Color.None ==> AsByte(c) == b
  {
    match b
    case 0x80 => Blue
    case 0x40 => Green
    case 0x20 => Orange
    case 0x10 => White
    case 0x08 => Yellow
    case _ => Color.None
  }

  /** All six colours survive the trip through their integer index. */
  lemma IndexRoundTrip(c: Color)
    ensures FromIndex(Index(c)) == c
  {
  }

  /** On 0..4 the integer survives the trip through the colour. */
  lemma FromIndexRoundTrip(n: nat)
    requires n < 5
    ensures Index(FromIndex(n)) == n
  {
  }

  /** The camel colours survive the trip through their mask. */
  lemma ByteRoundTrip(c: Color)
    requires IsCamel(c)
    ensures FromByte(AsByte(c)) == c
  {
  }

  /** The concrete masks: Blue..Yellow are 0x80, 0x40, 0x20, 0x10, 0x08. */
  lemma MaskValues()
    ensures AsByte(Blue) == 0x80 && AsByte(Green) == 0x40 && AsByte(Orange) == 0x20
    ensures AsByte(White) == 0x10 && AsByte(Yellow) == 0x08
    ensures forall i :: 0 <= i < 5 ==> AsByte(All[i]) == (0x80 as bv8) >> i
  {
  }

  /** Distinct colours have distinct masks. */
  lemma AsByteInjective(c: Color, d: Color)
    requires AsByte(c) == AsByte(d)
    ensures c == d
  {
    if IsCamel(c) && IsCamel(d) {
      ByteRoundTrip(c);
      ByteRoundTrip(d);
    }
  }
}
