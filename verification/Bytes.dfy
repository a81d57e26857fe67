// Bytes and little-endian 32-bit words, as the structs of the wire protocols lay them out.
module Bytes {

  type byte = x: int | 0 <= x < 0x100
  type u32 = x: int | 0 <= x < 0x1_0000_0000

  function Le32(x: u32): (r: seq<byte>)
    ensures |r| == 4
  {
    [x % 0x100, x / 0x100 % 0x100, x / 0x1_0000 % 0x100, x / 0x100_0000]
  }

  function Word(b: seq<byte>): u32
    requires |b| == 4
  {
    var (b0: int, b1: int, b2: int, b3: int) := (b[0], b[1], b[2], b[3]);
    b0 + 0x100 * b1 + 0x1_0000 * b2 + 0x100_0000 * b3
  }

  // The low byte comes first.
  lemma LowByteFirst(x: u32)
    ensures
      var r := Le32(x);
      x as int == r[0] as int + 0x100 * r[1] as int + 0x1_0000 * r[2] as int + 0x100_0000 * r[3] as int
  {
    WordOfLe32(x);
  }

  lemma WordOfLe32(x: u32)
    ensures Word(Le32(x)) == x
  {
    assert x / 0x1_0000 == x / 0x100 / 0x100;
    assert x / 0x100_0000 == x / 0x1_0000 / 0x100;
  }

  lemma Le32OfWord(b: seq<byte>)
    requires |b| == 4
    ensures Le32(Word(b)) == b
  {
    var x: int, b1: int, b2: int, b3: int := Word(b), b[1], b[2], b[3];
    assert x / 0x100 == b1 + 0x100 * b2 + 0x1_0000 * b3;
    assert x / 0x1_0000 == b2 + 0x100 * b3;
  }
}
