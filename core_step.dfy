/**
 * One fetch-decode-execute step of the CPU (VC_main), as a function of the
 * CPU state. Both copies of the engine run the same step; they differ only in
 * what the output handler does with a SOT instruction, so the step returns
 * the output request and leaves it to each copy to carry it out.
 */
module CoreStep {
  import opened Words
  import opened Alu
  import opened InputStack
  import opened OpLog

  /** Opcodes, the top 4 bits of an instruction word. */
  const OpLda: int := 0
  const OpLaa: int := 1
  const OpAdd: int := 2
  const OpSbd: int := 3
  const OpAda: int := 4
  const OpSba: int := 5
  const OpStr: int := 6
  const OpStd: int := 7
  const OpSsd: int := 8
  const OpJmp: int := 9
  const OpJiz: int := 10
  const OpJie: int := 11
  const OpJii: int := 12
  const OpJbt: int := 13
  const OpGin: int := 14
  const OpSot: int := 15

  /** `word >> 12`: the opcode. */
  function OpCode(word: Word): (op: int)
    ensures 0 <= op < 16
  {
    word / 4096
  }

  /** `word % 4096`: the operand, an address or a 12-bit immediate. */
  function Operand(word: Word): (x: Addr)
    ensures OpCode(word) * 4096 + x == word
  {
    word % 4096
  }

  /** Opcode and operand are the two fields of the word. */
  lemma DecodeSplitsWord(word: Word)
    ensures OpCode(word) * 4096 + Operand(word) == word
  {
  }

  /** Decoding an instruction made of an opcode and an operand gives them back. */
  lemma DecodeInstruction(op: int, operand: Addr)
    requires 0 <= op < 16
    ensures 0 <= op * 4096 + operand < WordLimit
    ensures OpCode(op * 4096 + operand) == op && Operand(op * 4096 + operand) == operand
  {
  }

  /**
   * The CPU state: RAM, registers A, B, C and the instruction address register,
   * the ALU mode, the flags (flag[0] zero, flag[1] carry, flag[2] input), the
   * input cache and the operation log with its counter.
   */
  datatype Core = Core(ram: seq<Word>, iar: Addr, a: Word, b: Word, c: Word, aluOp: int,
                       zero: bool, carry: bool, inputFlag: bool, input: InputCache,
                       log: seq<LogEntry>, opCount: Addr, opOverflow: bool)
  {
    predicate Valid() {
      |ram| == RamSize && input.Valid() && |log| == RamSize
    }
  }

  /** A state in which every global starts: all zero, all flags false. */
  function InitialCore(): (s: Core)
    ensures s.Valid()
  {
    Core(seq(RamSize, _ => 0), 0, 0, 0, 0, 0, false, false, false, EmptyCache(), EmptyLog(), 0, false)
  }

  /** What a SOT instruction hands to the output handler: the device id in A and the operand. */
  datatype Request = NoRequest | Send(device: Word, payload: Addr)

  /** The instruction address after a step that does not jump: 4095 wraps to 0. */
  function NextIar(iar: Addr): (r: Addr)
    ensures r == (iar + 1) % RamSize
  {
    if iar + 1 >= RamSize then 0 else iar + 1
  }

  /** VC_alu(op) applied to the state. */
  function RunAlu(s: Core, op: int): Core {
    var r := Alu.Alu(op, s.a, s.b, s.c, s.carry);
    s.(c := r.c, zero := r.zero, carry := r.carry)
  }

  /** The part of a step that depends on the opcode. */
  datatype Effect = Effect(core: Core, entry: LogEntry, jump: bool, request: Request)

  /**
   * The switch of VC_main: the state after the instruction's own effect, the
   * log slot with the fields this opcode writes, whether it jumps, and its
   * output request.
   */
  function Dispatch(s: Core, op: int, x: Addr, slot: LogEntry): (e: Effect)
    requires s.Valid() && 0 <= op < 16
    ensures e.core.Valid()
    ensures e.core.log == s.log && e.core.iar == s.iar
    ensures e.core.opCount == s.opCount && e.core.opOverflow == s.opOverflow
  {
    if op == OpLda then
      var t := RunAlu(s.(a := x), s.aluOp);
      Effect(t, slot.(field2 := t.a), false, NoRequest)
    else if op == OpLaa then
      var t := RunAlu(s.(a := s.ram[x]), s.aluOp);
      Effect(t, slot.(field2 := t.a, field3 := x), false, NoRequest)
    else if op == OpAdd then
      var t := RunAlu(s.(b := x, aluOp := AluAdd), AluAdd);
      Effect(t, slot.(field2 := t.b), false, NoRequest)
    else if op == OpSbd then
      var t := RunAlu(s.(b := x, aluOp := AluSub), AluSub);
      Effect(t, slot.(field2 := t.b), false, NoRequest)
    else if op == OpAda then
      var t := RunAlu(s.(b := s.ram[x], aluOp := AluAdd), AluAdd);
      Effect(t, slot.(field2 := t.b, field3 := x), false, NoRequest)
    else if op == OpSba then
      var t := RunAlu(s.(b := s.ram[x], aluOp := AluSub), AluSub);
      Effect(t, slot.(field2 := t.b, field3 := x), false, NoRequest)
    else if op == OpStr then
      Effect(s.(ram := s.ram[x := s.c]), slot.(field2 := s.c, field3 := x), false, NoRequest)
    else if op == OpStd then
      var v := AndNot(s.a, s.b);
      var t := RunAlu(s.(c := v, ram := s.ram[x := v], aluOp := AluOther), AluOther);
      Effect(t, slot.(field2 := t.c, field3 := x), false, NoRequest)
    else if op == OpSsd then
      var v := RotR(s.a, s.b % 16);
      var t := RunAlu(s.(c := v, aluOp := AluOther), AluOther);
      Effect(t, slot.(field2 := t.c, field3 := x), false, NoRequest)
    else if op == OpJmp then
      Effect(s, slot.(field2 := x), true, NoRequest)
    else if op == OpJiz || op == OpJie || op == OpJii || op == OpJbt then
      var taken :=
        if op == OpJiz then s.zero
        else if op == OpJie then s.carry
        else if op == OpJii then s.inputFlag
        else JbtAsWritten(s.a, s.b);
      if taken then Effect(s, slot.(field2 := 1, field3 := x), true, NoRequest)
      else Effect(s, slot.(field2 := 0), false, NoRequest)
    else if op == OpGin then
      var (v, input) := Pop(s.input);
      Effect(s.(ram := s.ram[x := v], input := input), slot.(field2 := x, field3 := v), false, NoRequest)
    else
      Effect(s, slot.(field2 := s.a, field3 := x), false, Send(s.a, x))
  }

  /** Log slot opCount once the step has written iar and the opcode into it. */
  function Slot(s: Core): LogEntry
    requires s.Valid()
  {
    s.log[s.opCount].(iar := s.iar, opcode := Fetched(s))
  }

  /** The state after `opLog[opCount][0] = iar; opLog[opCount][1] = opCode;`. */
  function Logged(s: Core): (r: Core)
    requires s.Valid()
    ensures r.Valid()
  {
    s.(log := s.log[s.opCount := Slot(s)])
  }

  /** The end of VC_main: store the slot, advance iar unless the instruction jumped, advance the counter. */
  function Finish(s: Core, e: Effect): (r: (Core, Request))
    requires s.Valid() && e.core.Valid()
    ensures r.0.Valid()
  {
    var (count, overflow) := NextCount(s.opCount, s.opOverflow);
    (e.core.(iar := if e.jump then FetchedOperand(s) else NextIar(s.iar),
             log := e.core.log[s.opCount := e.entry],
             opCount := count, opOverflow := overflow),
     e.request)
  }

  /**
   * One step of VC_main: fetch ram[iar], decode it, record iar and opcode in
   * log slot opCount, run the instruction, advance iar unless it jumped, and
   * advance the log counter.
   */
  function Execute(s: Core): (r: (Core, Request))
    requires s.Valid()
    ensures r.0.Valid()
  {
    Finish(s, Dispatch(Logged(s), Fetched(s), FetchedOperand(s), Slot(s)))
  }

  /** The opcode of the instruction at iar. */
  function Fetched(s: Core): (op: int)
    requires s.Valid()
    ensures 0 <= op < 16 && op * 4096 <= s.ram[s.iar] < (op + 1) * 4096
  {
    OpCode(s.ram[s.iar])
  }

  /** The operand of the instruction at iar. */
  function FetchedOperand(s: Core): (x: Addr)
    requires s.Valid()
    ensures Fetched(s) * 4096 + x == s.ram[s.iar]
  {
    Operand(s.ram[s.iar])
  }

  /** When a step takes a jump: JMP always, JIZ/JIE/JII on their flag, JBT when A is odd. */
  predicate Jumps(s: Core)
    requires s.Valid()
  {
    var op := Fetched(s);
    || op == OpJmp
    || (op == OpJiz && s.zero)
    || (op == OpJie && s.carry)
    || (op == OpJii && s.inputFlag)
    || (op == OpJbt && s.a % 2 == 1)
  }

  /** A step jumps to the operand, or advances iar by one, wrapping 4095 to 0. */
  lemma StepAdvancesIar(s: Core)
    requires s.Valid()
    ensures Execute(s).0.iar == if Jumps(s) then FetchedOperand(s) else (s.iar + 1) % RamSize
  {
  }

  /** A step records iar and opcode in slot opCount, touches no other slot, and advances the counter. */
  lemma StepLogsInstruction(s: Core)
    requires s.Valid()
    ensures var r := Execute(s).0;
            && r.log[s.opCount].iar == s.iar && r.log[s.opCount].opcode == Fetched(s)
            && (forall k :: 0 <= k < RamSize && k != s.opCount ==> r.log[k] == s.log[k])
            && r.opCount == (s.opCount + 1) % RamSize
            && (r.opOverflow <==> s.opOverflow || s.opCount == RamSize - 1)
  {
  }

  /**
   * What each opcode writes into fields 2 and 3 of its log slot. A field the
   * opcode does not write keeps what an earlier step left in the slot.
   */
  lemma StepLogsOperands(s: Core)
    requires s.Valid()
    ensures var r := Execute(s).0;
            var e := r.log[s.opCount];
            var stale := s.log[s.opCount].field3;
            var op := Fetched(s);
            var x := FetchedOperand(s);
            && (op == OpLda ==> e.field2 == r.a && e.field3 == stale)
            && (op == OpLaa ==> e.field2 == r.a && e.field3 == x)
            && (op in {OpAdd, OpSbd} ==> e.field2 == r.b && e.field3 == stale)
            && (op in {OpAda, OpSba} ==> e.field2 == r.b && e.field3 == x)
            && (op == OpStr ==> e.field2 == s.c && e.field3 == x)
            && (op in {OpStd, OpSsd} ==> e.field2 == r.c && e.field3 == x)
            && (op == OpJmp ==> e.field2 == x && e.field3 == stale)
            && (OpJiz <= op <= OpJbt && Jumps(s) ==> e.field2 == 1 && e.field3 == x)
            && (OpJiz <= op <= OpJbt && !Jumps(s) ==> e.field2 == 0 && e.field3 == stale)
            && (op == OpGin ==> e.field2 == x && e.field3 == Pop(s.input).0)
            && (op == OpSot ==> e.field2 == s.a && e.field3 == x)
  {
  }

  /** Every instruction that runs the ALU leaves the zero flag equal to (C == 0). */
  lemma ZeroFlagTracksC(s: Core)
    requires s.Valid()
    requires Fetched(s) in {OpLda, OpLaa, OpAdd, OpSbd, OpAda, OpSba, OpStd, OpSsd}
    ensures Execute(s).0.zero <==> Execute(s).0.c == 0
  {
  }

  /** ADD and ADA: C is the 16-bit sum of A and the new B, and the carry says whether the sum overflowed. */
  lemma AddInstructions(s: Core)
    requires s.Valid() && Fetched(s) in {OpAdd, OpAda}
    ensures var r := Execute(s).0;
            && r.b == (if Fetched(s) == OpAdd then FetchedOperand(s) else s.ram[FetchedOperand(s)])
            && r.aluOp == AluAdd && r.c == (s.a + r.b) % WordLimit && (r.carry <==> s.a + r.b >= WordLimit)
            && r.a == s.a && r.ram == s.ram && r.inputFlag == s.inputFlag && r.input == s.input
  {
  }

  /** SBD and SBA: C is the 16-bit difference of A and the new B, and the carry says whether it borrowed. */
  lemma SubtractInstructions(s: Core)
    requires s.Valid() && Fetched(s) in {OpSbd, OpSba}
    ensures var r := Execute(s).0;
            && r.b == (if Fetched(s) == OpSbd then FetchedOperand(s) else s.ram[FetchedOperand(s)])
            && r.aluOp == AluSub && r.c == (s.a - r.b) % WordLimit && (r.carry <==> s.a < r.b)
            && r.a == s.a && r.ram == s.ram && r.inputFlag == s.inputFlag && r.input == s.input
  {
  }

  /**
   * LDA and LAA load A and rerun the ALU in its current mode: in add or
   * subtract mode C and the carry are recomputed from the new A and the old B,
   * in any other mode they are kept; the zero flag follows C in every mode.
   */
  lemma LoadInstructions(s: Core)
    requires s.Valid()
    requires Fetched(s) in {OpLda, OpLaa}
    ensures var r := Execute(s).0;
            && r.a == (if Fetched(s) == OpLda then FetchedOperand(s) else s.ram[FetchedOperand(s)])
            && r.aluOp == s.aluOp && r.b == s.b
            && (s.aluOp == AluAdd ==> r.c == (r.a + s.b) % WordLimit && (r.carry <==> r.a + s.b >= WordLimit))
            && (s.aluOp == AluSub ==> r.c == (r.a - s.b) % WordLimit && (r.carry <==> r.a < s.b))
            && (s.aluOp != AluAdd && s.aluOp != AluSub ==> r.c == s.c && r.carry == s.carry)
            && (r.zero <==> r.c == 0)
            && r.ram == s.ram && r.inputFlag == s.inputFlag && r.input == s.input
  {
  }

  /** STR stores C at the operand and changes no register and no flag. */
  lemma StoreInstruction(s: Core)
    requires s.Valid() && Fetched(s) == OpStr
    ensures var r := Execute(s).0;
            && r.ram == s.ram[FetchedOperand(s) := s.c]
            && r.a == s.a && r.b == s.b && r.c == s.c && r.aluOp == s.aluOp
            && r.zero == s.zero && r.carry == s.carry && r.inputFlag == s.inputFlag
  {
  }

  /** STD: each bit of C is set when it is set in A and clear in B; C is also stored at the operand; the ALU (mode OTHER) only updates the zero flag. */
  lemma AndNotInstruction(s: Core)
    requires s.Valid() && Fetched(s) == OpStd
    ensures var r := Execute(s).0;
            && (forall i :: 0 <= i < 16 ==> Bit(r.c, i) == (if Bit(s.a, i) == 1 && Bit(s.b, i) == 0 then 1 else 0))
            && r.ram == s.ram[FetchedOperand(s) := r.c]
            && r.aluOp == AluOther && r.carry == s.carry && (r.zero <==> r.c == 0)
            && r.a == s.a && r.b == s.b && r.inputFlag == s.inputFlag && r.input == s.input
  {
    var r := Execute(s).0;
    assert r.c == AndNot(s.a, s.b);
    forall i | 0 <= i < 16
      ensures Bit(r.c, i) == (if Bit(s.a, i) == 1 && Bit(s.b, i) == 0 then 1 else 0)
    {
      AndNotBits(s.a, s.b, i);
    }
  }

  /** SSD: C := A rotated right by k = B mod 16 (its low k bits moved to the top); the ALU (mode OTHER) only updates the zero flag. */
  lemma RotateInstruction(s: Core)
    requires s.Valid() && Fetched(s) == OpSsd
    ensures var r := Execute(s).0;
            var k := s.b % 16;
            && r.c == s.a / Pow2(k) + (s.a % Pow2(k)) * Pow2(16 - k) && r.ram == s.ram
            && r.aluOp == AluOther && r.carry == s.carry && (r.zero <==> r.c == 0)
            && r.a == s.a && r.b == s.b && r.inputFlag == s.inputFlag && r.input == s.input
  {
    SsdRotates(s.a, s.b % 16);
  }

  /**
   * GIN stores the word the input handler yields (0 when it is empty) at the
   * operand; besides RAM and the input cache it changes only the log, iar and
   * the counter.
   */
  lemma InputInstruction(s: Core)
    requires s.Valid() && Fetched(s) == OpGin
    ensures var r := Execute(s).0;
            && r.ram == s.ram[FetchedOperand(s) := Pop(s.input).0]
            && r.input == Pop(s.input).1
            && (s.input.stored == 0 ==> r.ram[FetchedOperand(s)] == 0 && r.input == s.input)
            && r == s.(ram := r.ram, input := r.input, log := r.log, iar := r.iar,
                       opCount := r.opCount, opOverflow := r.opOverflow)
  {
  }

  /**
   * JMP, JIZ, JIE, JII and JBT change no register, flag, RAM word or input
   * cache word: only the log, iar and the counter.
   */
  lemma JumpInstructions(s: Core)
    requires s.Valid() && OpJmp <= Fetched(s) <= OpJbt
    ensures var r := Execute(s).0;
            r == s.(log := r.log, iar := r.iar, opCount := r.opCount, opOverflow := r.opOverflow)
  {
  }

  /** Only SOT makes an output request, with A as the device and the operand as the payload. */
  lemma OutputRequest(s: Core)
    requires s.Valid()
    ensures Execute(s).1 == if Fetched(s) == OpSot then Send(s.a, FetchedOperand(s)) else NoRequest
  {
  }

  /** No instruction writes the input flag (flag[2]). */
  lemma InputFlagUnchanged(s: Core)
    requires s.Valid()
    ensures Execute(s).0.inputFlag == s.inputFlag
  {
  }

  /** With the input flag clear, JII falls through to the next address. */
  lemma JiiFallsThrough(s: Core)
    requires s.Valid() && !s.inputFlag && Fetched(s) == OpJii
    ensures Execute(s).0.iar == NextIar(s.iar)
  {
  }

  /** Only GIN (reading) changes the input cache in the step itself. */
  lemma InputCacheUntouched(s: Core)
    requires s.Valid() && Fetched(s) != OpGin
    ensures Execute(s).0.input == s.input
  {
  }
}
