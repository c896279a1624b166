/**
 * The binary read/write utility's conversions between 16-bit words and
 * big-endian byte pairs, without the file and text handling around them.
 * Read mode turns every byte pair (high, low) into high * 256 + low; write
 * mode splits a number into a high and a low byte by subtracting the powers
 * of two from 2^15 down to 2^8.
 */
module BinaryCodec {
  import opened Words

  /** The number a big-endian byte pair stands for. */
  function PairValue(high: SChar, low: SChar): (w: Word)
    ensures w / 256 == ByteValue(high) && w % 256 == ByteValue(low)
  {
    ByteValue(high) * 256 + ByteValue(low)
  }

  /** The words a byte stream holds, one per consecutive pair; a trailing unpaired byte yields nothing. */
  function Pairs(s: seq<SChar>): (words: seq<Word>)
    ensures |words| == |s| / 2
  {
    if |s| < 2 then [] else [PairValue(s[0], s[1])] + Pairs(s[2..])
  }

  /** The k-th word of a byte stream is made of bytes 2k and 2k + 1. */
  lemma {:induction false} PairsAt(s: seq<SChar>, k: nat)
    requires k < |s| / 2
    ensures Pairs(s)[k] == PairValue(s[2 * k], s[2 * k + 1])
  {
    if k > 0 {
      PairsAt(s[2..], k - 1);
    }
  }

  /** A word is determined by the pairs of bytes at positions 2k, 2k + 1. */
  lemma PairsByIndex(s: seq<SChar>, words: seq<int>)
    requires |words| == |s| / 2
    requires forall k :: 0 <= k < |words| ==> words[k] == PairValue(s[2 * k], s[2 * k + 1])
    ensures Pairs(s) == words
  {
    forall k | 0 <= k < |words|
      ensures Pairs(s)[k] == words[k]
    {
      PairsAt(s, k);
    }
  }

  /** An unpaired last byte is ignored. */
  lemma TrailingByteIgnored(s: seq<SChar>, last: SChar)
    requires |s| % 2 == 0
    ensures Pairs(s + [last]) == Pairs(s)
  {
    forall k | 0 <= k < |s| / 2
      ensures Pairs(s + [last])[k] == PairValue(s[2 * k], s[2 * k + 1])
    {
      PairsAt(s + [last], k);
    }
    PairsByIndex(s, Pairs(s + [last]));
  }

  /**
   * Read mode: the `while(source.get(c))` loop that toggles between a high and
   * a low byte and emits high * 256 + low after each low byte.
   */
  method ReadWords(source: seq<SChar>) returns (out: seq<int>)
    ensures out == Pairs(source)
  {
    out := [];
    var byteType := true;
    var num := 0;
    var k := 0;
    while k < |source|
      invariant 0 <= k <= |source|
      invariant byteType <==> k % 2 == 0
      invariant !byteType ==> num == ByteValue(source[k - 1]) * 256
      invariant |out| == k / 2
      invariant forall j :: 0 <= j < |out| ==> out[j] == PairValue(source[2 * j], source[2 * j + 1])
    {
      var tempNum := source[k] as int;
      if tempNum < 0 {
        tempNum := tempNum + 256;
      }
      if byteType {
        num := tempNum * 256;
      } else {
        out := out + [num + tempNum];
      }
      byteType := !byteType;
      k := k + 1;
    }
    PairsByIndex(source, out);
  }

  /** C's `/` on int: the quotient truncated toward zero. */
  function TruncDiv(a: int, b: int): int
    requires b > 0
  {
    if a >= 0 then a / b else -((-a) / b)
  }

  lemma TruncDivAtLeastOne(a: int, b: int)
    requires b > 0
    ensures TruncDiv(a, b) >= 1 <==> a >= b
  {
  }

  /**
   * The high byte write mode produces for n: n / 256 for a 16-bit n, 0 for a
   * negative n, and 255 once n reaches 2^16 (every power of two is subtracted).
   */
  function High(n: int): int {
    if n < 0 then 0 else if n >= 65536 then 255 else n / 256
  }

  /** What is left of n once the high byte's share is taken away. */
  function Low(n: int): int {
    n - 256 * High(n)
  }

  /** The loop variable i of write mode's split, turn by turn. */
  const Powers: seq<int> := [1, 2, 4, 8, 16, 32, 64, 128, 256]

  /** The divisions the split performs on i = 2^turns, as multiples of 128 / i. */
  lemma PowersDivide(turns: nat)
    requires turns < 8
    ensures var i := Powers[turns];
            && 128 / i >= 1 && 32768 / i == 256 * (128 / i) && 256 / i == 2 * (128 / i)
            && Powers[turns + 1] == i + i && 256 / (i + i) == 128 / i
  {
  }

  /**
   * What holds once numHigh has collected the bits worth 128 down to `unit`
   * (unit = 256 / i): numHigh * 256 + numLow is still n, and for a 16-bit n
   * numLow is below 256 * unit.
   */
  predicate SplitInvariant(n: int, unit: int, numHigh: int, numLow: int) {
    && numHigh * 256 + numLow == n
    && 0 <= numHigh <= 256 - unit
    && (0 <= n < 65536 ==> 0 <= numLow < 256 * unit)
    && (n >= 65536 ==> numLow >= 256 * unit && numHigh == 256 - unit)
    && (n < 0 ==> numHigh == 0)
  }

  /** One turn of the split, testing the bit worth `half` of the high byte, keeps the invariant. */
  lemma SplitTurn(n: int, half: int, numHigh: int, numLow: int)
    requires half >= 1 && SplitInvariant(n, 2 * half, numHigh, numLow)
    ensures var taken := numLow >= 256 * half;
            SplitInvariant(n, half, if taken then numHigh + half else numHigh,
                           if taken then numLow - 256 * half else numLow)
  {
  }

  /**
   * Write mode's split of one number: for i = 1, 2, 4, ..., 128, when
   * numLow / (32768 / i) is at least 1, subtract 32768 / i from numLow and add
   * 128 / i to numHigh.
   */
  method SplitWord(n: int) returns (numHigh: int, numLow: int)
    ensures numHigh == High(n) && numLow == Low(n)
    ensures 0 <= numHigh <= 255 && numHigh * 256 + numLow == n
    ensures 0 <= n < 65536 ==> numHigh == n / 256 && numLow == n % 256
  {
    numLow := n;
    numHigh := 0;
    var i := 1;
    ghost var turns := 0;
    while i <= 128
      invariant turns <= 8 && i == Powers[turns]
      invariant SplitInvariant(n, 256 / i, numHigh, numLow)
      decreases 8 - turns
    {
      PowersDivide(turns);
      TruncDivAtLeastOne(numLow, 32768 / i);
      SplitTurn(n, 128 / i, numHigh, numLow);
      if TruncDiv(numLow, 32768 / i) >= 1 {
        numHigh := numHigh + 128 / i;
        numLow := numLow - 32768 / i;
      }
      i := i + i;
      turns := turns + 1;
    }
    assert turns == 8;
  }

  /** The bytes write mode emits for a list of numbers: `(char)numHigh` then `(char)numLow` for each. */
  function Encode(nums: seq<int>): (bytes: seq<SChar>)
    ensures |bytes| == 2 * |nums|
  {
    if nums == [] then []
    else [ToSChar(High(nums[0])), ToSChar(Low(nums[0]))] + Encode(nums[1..])
  }

  lemma {:induction false} EncodeAppend(nums: seq<int>, n: int)
    ensures Encode(nums + [n]) == Encode(nums) + [ToSChar(High(n)), ToSChar(Low(n))]
  {
    if nums != [] {
      assert (nums + [n])[1..] == nums[1..] + [n];
      EncodeAppend(nums[1..], n);
    } else {
      assert nums + [n] == [n];
    }
  }

  /** Write mode: split every number and emit its two bytes. */
  method WriteWords(nums: seq<int>) returns (bytes: seq<SChar>)
    ensures bytes == Encode(nums)
  {
    bytes := [];
    var k := 0;
    while k < |nums|
      invariant 0 <= k <= |nums|
      invariant bytes == Encode(nums[..k])
    {
      var numHigh, numLow := SplitWord(nums[k]);
      EncodeAppend(nums[..k], nums[k]);
      assert nums[..k + 1] == nums[..k] + [nums[k]];
      bytes := bytes + [ToSChar(numHigh), ToSChar(numLow)];
      k := k + 1;
    }
    assert nums[..k] == nums;
  }

  /** Reading back what write mode wrote for 16-bit numbers gives the numbers. */
  lemma {:induction false} ReadAfterWrite(nums: seq<int>)
    requires forall k :: 0 <= k < |nums| ==> 0 <= nums[k] < 65536
    ensures Pairs(Encode(nums)) == nums
  {
    if nums != [] {
      var n := nums[0];
      var bytes := Encode(nums);
      assert bytes[2..] == Encode(nums[1..]);
      ReadAfterWrite(nums[1..]);
      WordRoundTrip(n);
    }
  }

  /** The two bytes write mode emits for a 16-bit number read back as that number. */
  lemma WordRoundTrip(n: int)
    requires 0 <= n < 65536
    ensures PairValue(ToSChar(High(n)), ToSChar(Low(n))) == n
  {
    assert ByteValue(ToSChar(High(n))) == n / 256;
    assert ByteValue(ToSChar(Low(n))) == n % 256;
  }
}
