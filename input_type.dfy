/** The input descriptor of a network: either a flat size, or a width, height and channel
    count whose product is the size. All four are Java `int`s, so the product is computed
    with 32-bit two's-complement wrap-around. The record has getters only; every field is
    fixed once it is constructed. */
module InputTypes {

  newtype int32 = n: int | -0x8000_0000 <= n < 0x8000_0000

  /** `n` reduced to the 32-bit range, as Java's `int` arithmetic does. */
  function Wrap32(n: int): (r: int32)
    ensures (r as int - n) % 0x1_0000_0000 == 0
  {
    var m := n % 0x1_0000_0000;
    if m < 0x8000_0000 then m as int32 else (m - 0x1_0000_0000) as int32
  }

  datatype InputType = InputType(width: int32, height: int32, channel: int32, inputSize: int32)

  /** `new InputType(inputSize)`: the size as given; width, height and channel keep Java's
      default 0. */
  function OfSize(inputSize: int32): (t: InputType)
    ensures t.inputSize == inputSize
    ensures t.width == 0 && t.height == 0 && t.channel == 0
  {
    InputType(0, 0, 0, inputSize)
  }

  /** `new InputType(width, height, channel)`: the three stored as given and the size their
      product, taken modulo 2^32 as Java `int` multiplication does. */
  function OfDims(width: int32, height: int32, channel: int32): (t: InputType)
    ensures t.width == width && t.height == height && t.channel == channel
    ensures (t.inputSize as int - width as int * height as int * channel as int) % 0x1_0000_0000 == 0
  {
    InputType(width, height, channel, Wrap32(width as int * height as int * channel as int))
  }

  /** A value already in the 32-bit range is not changed by the wrap-around. */
  lemma Wrap32InRange(n: int)
    requires -0x8000_0000 <= n < 0x8000_0000
    ensures Wrap32(n) as int == n
  {
  }

  /** When the product of the dimensions fits in an `int`, the size is exactly that product. */
  lemma OfDimsExact(width: int32, height: int32, channel: int32)
    requires -0x8000_0000 <= width as int * height as int * channel as int < 0x8000_0000
    ensures OfDims(width, height, channel).inputSize as int == width as int * height as int * channel as int
  {
  }

  /** Two values congruent modulo 2^32 wrap to the same `int`. */
  lemma Wrap32Congruent(m: int, n: int)
    requires (m - n) % 0x1_0000_0000 == 0
    ensures Wrap32(m) == Wrap32(n)
  {
    var k := (m - n) / 0x1_0000_0000;
    assert m == n + k * 0x1_0000_0000;
    assert m % 0x1_0000_0000 == n % 0x1_0000_0000;
  }

  /** Java evaluates `width * height * channel` as `(width * height) * channel`, wrapping
      after each multiplication; wrapping the exact product once gives the same `int`. */
  lemma OfDimsStepwise(width: int32, height: int32, channel: int32)
    ensures OfDims(width, height, channel).inputSize
         == Wrap32(Wrap32(width as int * height as int) as int * channel as int)
  {
    var p := width as int * height as int;
    var q := Wrap32(p) as int;
    var k := (q - p) / 0x1_0000_0000;
    assert q == p + k * 0x1_0000_0000;
    assert q * channel as int - p * channel as int == (k * channel as int) * 0x1_0000_0000;
    Wrap32Congruent(q * channel as int, p * channel as int);
  }

  /** A flat input of size n and an n x 1 x 1 input have the same size. */
  lemma FlatAgreesWithDims(n: int32)
    ensures OfDims(n, 1, 1).inputSize == OfSize(n).inputSize
  {
  }

  /** A product that does not fit in an `int` wraps: 65536 x 65536 x 1 has size 0. */
  lemma OfDimsWraps()
    ensures OfDims(65536, 65536, 1).inputSize == 0
  {
  }
}
