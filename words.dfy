/**
 * Machine-wide value types shared by both copies of the virtual computer and
 * by the binary read/write utility: 16-bit words, 12-bit addresses and the
 * signed `char` that `std::istream::get` yields.
 */
module Words {

  /** Number of 16-bit words of RAM (VC_RAM_SIZE); also the size of the input cache and of the operation log. */
  const RamSize: int := 4096

  /** One more than the largest 16-bit word. */
  const WordLimit: int := 65536

  /** A 16-bit unsigned machine word. */
  type Word = x: int | 0 <= x < 65536

  /** A RAM address: the 12-bit operand of an instruction, or the instruction address register. */
  type Addr = x: int | 0 <= x < 4096

  /** A byte as read through a (signed) `char`. */
  type SChar = x: int | -128 <= x < 128

  /** The unsigned value of a byte read as a signed char: negative chars are mapped by adding 256. */
  function ByteValue(c: SChar): (r: int)
    ensures 0 <= r < 256
    ensures r % 256 == c % 256
  {
    if c < 0 then c + 256 else c
  }

  /** The C++ conversion `(char)x`: keeps the low 8 bits of `x`, read back as a signed char. */
  function ToSChar(x: int): (r: SChar)
    ensures ByteValue(r) == x % 256
  {
    (x + 128) % 256 - 128
  }
}
