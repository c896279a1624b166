/**
 * The loop in `main` that copies the ROM file into RAM before the first
 * step. Both copies of the engine have the same loop: a byte counter i runs
 * from 1 while i < 2 * 4096, every second byte completes a big-endian word,
 * and word k goes to ram[k]. Because the counter starts at 1, at most 8191
 * bytes are read, so at most 4095 words are loaded and ram[4095] is never
 * filled from the ROM.
 */
module RomLoader {
  import opened Words
  import opened BinaryCodec

  /** How many ROM bytes the loop can read. */
  const RomByteLimit: int := 2 * RamSize - 1

  /** The ROM bytes the loop consumes: the whole file, or its first 8191 bytes. */
  function ConsumedBytes(rom: seq<SChar>): (s: seq<SChar>)
    ensures |s| <= RomByteLimit
  {
    if |rom| <= RomByteLimit then rom else rom[..RomByteLimit]
  }

  /** The words the ROM loop stores, in address order from ram[0]. */
  function LoadedWords(rom: seq<SChar>): (words: seq<Word>)
    ensures |words| <= RamSize - 1
  {
    Pairs(ConsumedBytes(rom))
  }

  /** RAM after loading: the loaded words from address 0, the rest still zero. */
  function RomImage(rom: seq<SChar>): (image: seq<Word>)
    ensures |image| == RamSize
    ensures forall k :: 0 <= k < |LoadedWords(rom)| ==> image[k] == LoadedWords(rom)[k]
    ensures forall k :: |LoadedWords(rom)| <= k < RamSize ==> image[k] == 0
  {
    LoadedWords(rom) + seq(RamSize - |LoadedWords(rom)|, _ => 0)
  }

  method LoadRom(ram: array<Word>, rom: seq<SChar>)
    requires ram.Length == RamSize
    modifies ram
    ensures forall k :: 0 <= k < |LoadedWords(rom)| ==> ram[k] == LoadedWords(rom)[k]
    ensures forall k :: |LoadedWords(rom)| <= k < RamSize ==> ram[k] == old(ram[k])
  {
    var byteType := true;
    var num := 0;
    var i := 1;
    while i < RamSize * 2
      invariant 1 <= i <= RamSize * 2 && i - 1 <= |rom|
      invariant byteType <==> (i - 1) % 2 == 0
      invariant !byteType ==> num == ByteValue(rom[i - 2]) * 256
      invariant forall k :: 0 <= k < (i - 1) / 2 ==> ram[k] == PairValue(rom[2 * k], rom[2 * k + 1])
      invariant forall k :: (i - 1) / 2 <= k < RamSize ==> ram[k] == old(ram[k])
    {
      if i - 1 >= |rom| {
        break; // source.get(c) fails at the end of the file
      }
      var tempNum := rom[i - 1] as int;
      if tempNum < 0 {
        tempNum := tempNum + 256;
      }
      if byteType {
        num := tempNum * 256;
      } else {
        ram[i / 2 - 1] := num + tempNum;
      }
      byteType := !byteType;
      i := i + 1;
    }
    var consumed := ConsumedBytes(rom);
    assert |consumed| == i - 1;
    forall k | 0 <= k < |LoadedWords(rom)|
      ensures ram[k] == LoadedWords(rom)[k]
    {
      PairsAt(consumed, k);
    }
  }

  /** The last RAM word is never loaded, whatever the length of the ROM. */
  lemma LastWordNeverLoaded(rom: seq<SChar>)
    ensures |LoadedWords(rom)| < RamSize
    ensures |rom| < RomByteLimit ==> |LoadedWords(rom)| == |rom| / 2
  {
  }
}
