/**
 * The arithmetic-logic unit (VC_alu) and the bit operations that the STD,
 * SSD and JBT instructions perform on the 16-bit registers.
 * Both copies of the engine have the same text for all of these.
 */
module Alu {
  import opened Words

  /** ALU modes (VC_ALU_ADD, VC_ALU_SUB, VC_ALU_OTHER). Mode 0 is the initial value of `aluOp`. */
  const AluAdd: int := 1
  const AluSub: int := 2
  const AluOther: int := 3

  /** What the ALU writes: register C, the zero flag (flag[0]) and the carry flag (flag[1]). */
  datatype AluOut = AluOut(c: Word, zero: bool, carry: bool)

  /**
   * One run of the ALU in mode `op` on registers A and B. `c` and `carry` are the
   * values of register C and the carry flag before the run: only the add and
   * subtract modes change them; every mode recomputes the zero flag from C.
   */
  function Alu(op: int, a: Word, b: Word, c: Word, carry: bool): (r: AluOut)
    ensures op == AluAdd ==> r.c == (a + b) % WordLimit && (r.carry <==> a + b >= WordLimit)
    ensures op == AluSub ==> r.c == (a - b) % WordLimit && (r.carry <==> a < b)
    ensures op != AluAdd && op != AluSub ==> r.c == c && r.carry == carry
    ensures r.zero <==> r.c == 0
  {
    var (c', carry') :=
      if op == AluAdd then
        var temp := a + b;
        if temp >= 65536 then (temp - 65536, true) else (temp, false)
      else if op == AluSub then
        var temp := a - b;
        if temp < 0 then (temp + 65536, true) else (temp, false)
      else
        (c, carry);
    AluOut(c', c' == 0, carry')
  }

  /** Bit i of n (bit 0 is the lowest). */
  function Bit(n: nat, i: nat): (r: nat)
    ensures r <= 1
  {
    if i == 0 then n % 2 else Bit(n / 2, i - 1)
  }

  /** C's `&` on non-negative ints, one bit at a time from the lowest. */
  function BitAnd(x: nat, y: nat): (r: nat)
    ensures r <= x && r <= y
  {
    if x == 0 || y == 0 then 0
    else 2 * BitAnd(x / 2, y / 2) + (if x % 2 == 1 && y % 2 == 1 then 1 else 0)
  }

  lemma {:induction false} BitOfZero(i: nat)
    ensures Bit(0, i) == 0
  {
    if i > 0 {
      BitOfZero(i - 1);
    }
  }

  /** Bit i of x & y is set exactly when bit i is set in both. */
  lemma {:induction false} BitAndBits(x: nat, y: nat, i: nat)
    ensures Bit(BitAnd(x, y), i) == Bit(x, i) * Bit(y, i)
  {
    if x == 0 || y == 0 {
      BitOfZero(i);
    } else {
      var low := if x % 2 == 1 && y % 2 == 1 then 1 else 0;
      var r := BitAnd(x, y);
      assert r == 2 * BitAnd(x / 2, y / 2) + low;
      DivModUnique(r, 2, BitAnd(x / 2, y / 2), low);
      if i > 0 {
        BitAndBits(x / 2, y / 2, i - 1);
      }
    }
  }

  /** Below 2^n, subtracting from 2^n - 1 flips each of the n low bits: it is `~` within n bits. */
  lemma {:induction false} ComplementBits(n: nat, b: nat, i: nat)
    requires b < Pow2(n) && i < n
    ensures Bit(Pow2(n) - 1 - b, i) == 1 - Bit(b, i)
  {
    if i > 0 {
      assert (Pow2(n) - 1 - b) / 2 == Pow2(n - 1) - 1 - b / 2;
      ComplementBits(n - 1, b / 2, i - 1);
    }
  }

  /**
   * STD: `~(~rA | rB)`, which by De Morgan's law is A and not B. The source
   * evaluates it on 32-bit ints; for 16-bit operands the upper half is zero
   * (StdWidth), so it is computed here on 16 bits, where `~rB` is 65535 - B.
   */
  function AndNot(a: Word, b: Word): Word {
    BitAnd(a, 65535 - b)
  }

  /** Bit i of STD's result is set exactly when it is set in A and clear in B. */
  lemma AndNotBits(a: Word, b: Word, i: nat)
    requires i < 16
    ensures Bit(AndNot(a, b), i) == (if Bit(a, i) == 1 && Bit(b, i) == 0 then 1 else 0)
  {
    Pow2Constants();
    BitAndBits(a, 65535 - b, i);
    ComplementBits(16, b, i);
  }

  /** On operands below 2^16 the 32-bit `~(~x | y)` is the 16-bit x and not y, zero-extended. */
  lemma StdWidth(x: bv32, y: bv32)
    requires x < 65536 && y < 65536
    ensures !(!x | y) == ((x as bv16) & !(y as bv16)) as bv32
  {
  }

  /** 2 to the power k. */
  function Pow2(k: nat): (r: nat)
    ensures r >= 1
  {
    if k == 0 then 1 else 2 * Pow2(k - 1)
  }

  lemma {:induction false} Pow2Add(i: nat, j: nat)
    ensures Pow2(i + j) == Pow2(i) * Pow2(j)
  {
    if i > 0 {
      Pow2Add(i - 1, j);
    }
  }

  /** `a == q * n + r` with `0 <= r < n` determines quotient and remainder. */
  lemma DivModUnique(a: int, n: int, q: int, r: int)
    requires n > 0 && 0 <= r < n && a == q * n + r
    ensures a / n == q && a % n == r
  {
    var q', r' := a / n, a % n;
    assert a == q' * n + r';
    if q' < q {
      MulMonotonic(q' + 1, q, n);
      assert false;
    } else if q' > q {
      MulMonotonic(q + 1, q', n);
      assert false;
    }
  }

  lemma MulMonotonic(x: int, y: int, n: int)
    requires x <= y && n >= 0
    ensures x * n <= y * n
  {
  }

  lemma Pow2Constants()
    ensures Pow2(15) == 32768 && Pow2(16) == 65536
  {
    assert Pow2(4) == 16;
    assert Pow2(8) == 256;
    assert Pow2(12) == 4096;
  }

  /** The low k bits of `a` moved above its other bits, with p = 2^k and q = 2^(16-k). */
  function Rotated(a: int, p: int, q: int): int
    requires p >= 1
  {
    a / p + (a % p) * q
  }

  /** The 16-bit word `a` rotated right by k positions, written out with powers of two. */
  function RotatedBy(a: Word, k: nat): int
    requires k <= 16
  {
    Rotated(a, Pow2(k), Pow2(16 - k))
  }

  /** One turn of the SSD loop: an odd value gets bit 16 set, then everything moves down one bit. */
  function Half(t: Word): (r: Word)
    ensures r == t / 2 + (t % 2) * 32768
  {
    (if t % 2 != 0 then t + 65536 else t) / 2
  }

  /** What k turns of the SSD loop make of `a`. */
  function RotR(a: Word, k: nat): Word {
    if k == 0 then a else Half(RotR(a, k - 1))
  }

  /** Shifting `t = d + m * 2h` down by one with the 17-bit trick. */
  lemma ShiftStep(d: int, m: int, h: int)
    requires d >= 0 && m >= 0 && h >= 1
    ensures var t := d + m * (2 * h);
            (if t % 2 != 0 then t + 65536 else t) / 2 == d / 2 + m * h + (d % 2) * 32768
  {
    var t := d + m * (2 * h);
    assert t == 2 * (d / 2 + m * h) + d % 2;
  }

  /** Dividing by 2p in terms of the quotient and remainder by p. */
  lemma HalveQuotient(a: int, p: int)
    requires a >= 0 && p >= 1
    ensures a / (2 * p) == (a / p) / 2 && a % (2 * p) == ((a / p) % 2) * p + a % p
  {
    var d, m := a / p, a % p;
    assert a == d * p + m;
    assert d == 2 * (d / 2) + d % 2;
    assert a == (d / 2) * (2 * p) + ((d % 2) * p + m);
    DivModUnique(a, 2 * p, d / 2, (d % 2) * p + m);
  }

  lemma Regroup(d: int, m: int, p: int, h: int)
    requires p * h == 32768
    ensures ((d % 2) * p + m) * h == m * h + (d % 2) * 32768
  {
    if d % 2 == 1 {
      assert (p + m) * h == p * h + m * h;
    }
  }

  /** One SSD loop turn on a rotation by k, with p = 2^k and 2h = 2^(16-k), is the rotation by k + 1. */
  lemma RotateStepArith(a: int, p: int, h: int)
    requires a >= 0 && p >= 1 && h >= 1 && p * h == 32768
    ensures var t := Rotated(a, p, 2 * h);
            Rotated(a, 2 * p, h) == (if t % 2 != 0 then t + 65536 else t) / 2
  {
    var d, m := a / p, a % p;
    ShiftStep(d, m, h);
    HalveQuotient(a, p);
    Regroup(d, m, p, h);
  }

  /** One turn of the SSD loop turns a rotation by k into a rotation by k + 1. */
  lemma RotatedByStep(a: Word, k: nat)
    requires k < 16
    ensures var t := RotatedBy(a, k);
            RotatedBy(a, k + 1) == (if t % 2 != 0 then t + 65536 else t) / 2
  {
    Pow2Add(k, 15 - k);
    Pow2Constants();
    RotateStepArith(a, Pow2(k), Pow2(15 - k));
  }

  /**
   * The SSD loop rotates: after k <= 16 turns, the low k bits of `a` sit on top
   * of its other bits.
   */
  lemma {:induction false} SsdRotates(a: Word, k: nat)
    requires k <= 16
    ensures RotR(a, k) == RotatedBy(a, k)
  {
    if k > 0 {
      SsdRotates(a, k - 1);
      RotatedByStep(a, k - 1);
    }
  }

  /** Sixteen turns bring every bit back: the rotation by 16 is the identity. */
  lemma FullTurn(a: Word)
    ensures RotR(a, 16) == a
  {
    SsdRotates(a, 16);
    Pow2Constants();
  }

  /**
   * The SSD loop: `rA_temp` is rotated right one position per turn, `rB % 16`
   * turns, by adding 65536 to an odd value before shifting it down by one.
   */
  method RotateRight(a: Word, b: Word) returns (r: Word)
    ensures r == RotR(a, b % 16)
  {
    var temp: int := a;
    var i := 0;
    while i < b % 16
      invariant 0 <= i <= b % 16
      invariant temp == RotR(a, i)
    {
      if temp % 2 != 0 {
        temp := temp + 65536;
      }
      temp := temp / 2;
      i := i + 1;
    }
    r := temp;
  }

  /**
   * The JBT jump condition as written, `rA & rB == rB`: C's `==` binds tighter
   * than `&`, so this is `rA & (rB == rB)`, that is `rA & 1`.
   */
  function JbtAsWritten(a: Word, b: Word): (taken: bool)
    ensures taken <==> a % 2 == 1
  {
    BitAnd(a, BoolToInt(b == b)) != 0
  }

  /** C's conversion of a comparison result to int. */
  function BoolToInt(c: bool): nat {
    if c then 1 else 0
  }

  /** The reading the instruction's log text describes: every bit set in B is set in A. */
  function JbtAllBitsSet(a: Word, b: Word): (taken: bool)
    ensures taken <==> forall i :: 0 <= i < 16 ==> (Bit(b, i) == 1 ==> Bit(a, i) == 1)
  {
    AllBitsSetMeans(a, b);
    BitAnd(a, b) == b
  }

  /** Two numbers below 2^n with the same n low bits are equal. */
  lemma {:induction false} SameBits(x: nat, y: nat, n: nat)
    requires x < Pow2(n) && y < Pow2(n)
    requires forall i :: 0 <= i < n ==> Bit(x, i) == Bit(y, i)
    ensures x == y
  {
    if n > 0 {
      assert Bit(x, 0) == Bit(y, 0);
      forall i | 0 <= i < n - 1
        ensures Bit(x / 2, i) == Bit(y / 2, i)
      {
        assert Bit(x, i + 1) == Bit(y, i + 1);
      }
      SameBits(x / 2, y / 2, n - 1);
    }
  }

  /** `a & b == b` exactly when every bit set in b is set in a. */
  lemma AllBitsSetMeans(a: Word, b: Word)
    ensures BitAnd(a, b) == b <==> forall i :: 0 <= i < 16 ==> (Bit(b, i) == 1 ==> Bit(a, i) == 1)
  {
    forall i | 0 <= i < 16
      ensures Bit(BitAnd(a, b), i) == Bit(a, i) * Bit(b, i)
    {
      BitAndBits(a, b, i);
    }
    if forall i :: 0 <= i < 16 ==> (Bit(b, i) == 1 ==> Bit(a, i) == 1) {
      forall i | 0 <= i < 16
        ensures Bit(BitAnd(a, b), i) == Bit(b, i)
      {
        assert Bit(b, i) == 1 ==> Bit(a, i) == 1;
      }
      Pow2Constants();
      SameBits(BitAnd(a, b), b, 16);
    } else {
      var i :| 0 <= i < 16 && Bit(b, i) == 1 && Bit(a, i) != 1;
      assert Bit(BitAnd(a, b), i) != Bit(b, i);
    }
  }

  /** The two readings differ in both directions. */
  lemma JbtReadingsDiffer()
    ensures !JbtAsWritten(2, 2) && JbtAllBitsSet(2, 2)
    ensures JbtAsWritten(1, 2) && !JbtAllBitsSet(1, 2)
  {
  }
}
