/**
 * The CPU as the engine holds it: global arrays and registers updated in
 * place. Both copies of the engine share this state and these routines
 * (VC_alu, the input handler, the body of VC_main); each method is proved
 * against the pure step in CoreStep through View().
 */
module Processor {
  import opened Words
  import opened Alu
  import opened InputStack
  import opened OpLog
  import opened CoreStep
  import opened RomLoader

  class Cpu {
    const ram: array<Word>
    var iar: Addr
    var rA: Word
    var rB: Word
    var rC: Word
    var aluOp: int
    /** flag[0] zero, flag[1] carry, flag[2] input. */
    const flag: array<bool>
    /** VC_IH_cache, VC_IH_cache_stored and VC_IH_cache_pos. */
    const ihCache: array<Word>
    var ihStored: nat
    var ihPos: Addr
    /** opLog[4096][4], opCount and opOverflow. */
    const opLog: array2<int>
    var opCount: Addr
    var opOverflow: bool

    ghost predicate Valid() {
      && ram.Length == RamSize && flag.Length == 3 && ihCache.Length == RamSize
      && opLog.Length0 == RamSize && opLog.Length1 == 4 && ram != ihCache
    }

    ghost function InputView(): InputCache
      reads this`ihStored, this`ihPos, ihCache
    {
      InputCache(ihCache[..], ihPos, ihStored)
    }

    ghost function LogView(): (log: seq<LogEntry>)
      requires Valid()
      reads opLog
      ensures |log| == RamSize
    {
      seq(RamSize, k requires 0 <= k < RamSize reads opLog =>
                     LogEntry(opLog[k, 0], opLog[k, 1], opLog[k, 2], opLog[k, 3]))
    }

    /** The CPU state as a value. */
    ghost function View(): (s: Core)
      requires Valid()
      reads this, ram, flag, ihCache, opLog
      ensures s.Valid()
    {
      Core(ram[..], iar, rA, rB, rC, aluOp, flag[0], flag[1], flag[2], InputView(), LogView(),
           opCount, opOverflow)
    }

    /** The globals at start-up, with the ROM loaded into RAM. */
    constructor (rom: seq<SChar>)
      ensures Valid() && View() == InitialCore().(ram := RomImage(rom))
      ensures fresh(ram) && fresh(flag) && fresh(ihCache) && fresh(opLog)
    {
      ram := new Word[RamSize](_ => 0);
      iar, rA, rB, rC, aluOp := 0, 0, 0, 0, 0;
      flag := new bool[3](_ => false);
      ihCache := new Word[RamSize](_ => 0);
      ihStored, ihPos := 0, 0;
      opLog := new int[RamSize, 4]((_, _) => 0);
      opCount, opOverflow := 0, false;
      new;
      LoadRom(ram, rom);
      assert ram[..] == RomImage(rom);
      assert ihCache[..] == EmptyCache().slots;
      assert LogView() == EmptyLog();
    }

    /** VC_alu(op): add or subtract A and B into C with the carry, then set the zero flag from C. */
    method Alu(op: int)
      requires Valid()
      modifies this`rC, flag
      ensures View() == RunAlu(old(View()), op)
    {
      var temp: int;
      if op == AluAdd {
        temp := rA + rB;
        if temp >= 65536 {
          rC := temp - 65536;
          flag[1] := true;
        } else {
          rC := temp;
          flag[1] := false;
        }
      } else if op == AluSub {
        temp := rA - rB;
        if temp < 0 {
          rC := temp + 65536;
          flag[1] := true;
        } else {
          rC := temp;
          flag[1] := false;
        }
      } else if op == AluOther {
        // nothing but the zero flag below
      }
      if rC == 0 {
        flag[0] := true;
      } else {
        flag[0] := false;
      }
    }

    /** VC_inputHandler(operation, word): a write pushes `word` and returns 0; a read pops. */
    method InputHandler(write: bool, word: Word) returns (r: Word)
      requires Valid()
      modifies this`ihStored, this`ihPos, ihCache
      ensures write ==> r == 0 && InputView() == Push(old(InputView()), word)
      ensures !write ==> (r, InputView()) == Pop(old(InputView()))
    {
      if write {
        var pos := ihPos + 1;
        if pos >= 4096 {
          pos := 0;
        }
        ihPos := pos;
        ihCache[ihPos] := word;
        ihStored := ihStored + 1;
        return 0;
      } else {
        if ihStored != 0 {
          var oldPos := ihPos;
          var pos := ihPos - 1;
          if pos < 0 {
            pos := 4095;
          }
          ihPos := pos;
          ihStored := ihStored - 1;
          return ihCache[oldPos];
        } else {
          return 0;
        }
      }
    }

    /** `opLog[opCount][field] = value`. */
    method Record(field: int, value: int)
      requires Valid() && 0 <= field < 4
      modifies opLog
      ensures LogView() == old(LogView())[opCount := SetField(old(LogView())[opCount], field, value)]
    {
      opLog[opCount, field] := value;
    }

    /**
     * The LDA case of VC_main's switch: A := operand, then the ALU runs in its
     * current mode. Here and below, slot opCount of the log already holds iar
     * and the opcode, and each method states its effect as Dispatch's.
     */
    method ExecuteLda(x: Addr)
      requires Valid()
      modifies this`rA, this`rC, flag, opLog
      ensures var e := Dispatch(old(View()), OpLda, x, old(LogView())[opCount]);
              && !e.jump && e.request == NoRequest
              && View() == e.core.(log := old(LogView())[opCount := e.entry])
    {
      ghost var s := View();
      rA := x;
      Alu(aluOp);
      assert View() == RunAlu(s.(a := x), s.aluOp);
      Record(2, rA);
    }

    /** The LAA case: A := ram[operand], then the ALU runs in its current mode. */
    method ExecuteLaa(x: Addr)
      requires Valid()
      modifies this`rA, this`rC, flag, opLog
      ensures var e := Dispatch(old(View()), OpLaa, x, old(LogView())[opCount]);
              && !e.jump && e.request == NoRequest
              && View() == e.core.(log := old(LogView())[opCount := e.entry])
    {
      ghost var s := View();
      rA := ram[x];
      Alu(aluOp);
      assert View() == RunAlu(s.(a := s.ram[x]), s.aluOp);
      Record(2, rA);
      Record(3, x);
    }

    /** The ADD case: B := operand, then add. */
    method ExecuteAdd(x: Addr)
      requires Valid()
      modifies this`rB, this`rC, this`aluOp, flag, opLog
      ensures var e := Dispatch(old(View()), OpAdd, x, old(LogView())[opCount]);
              && !e.jump && e.request == NoRequest
              && View() == e.core.(log := old(LogView())[opCount := e.entry])
    {
      ghost var s := View();
      rB := x;
      aluOp := AluAdd;
      Alu(aluOp);
      assert View() == RunAlu(s.(b := x, aluOp := AluAdd), AluAdd);
      Record(2, rB);
    }

    /** The SBD case: B := operand, then subtract. */
    method ExecuteSbd(x: Addr)
      requires Valid()
      modifies this`rB, this`rC, this`aluOp, flag, opLog
      ensures var e := Dispatch(old(View()), OpSbd, x, old(LogView())[opCount]);
              && !e.jump && e.request == NoRequest
              && View() == e.core.(log := old(LogView())[opCount := e.entry])
    {
      ghost var s := View();
      rB := x;
      aluOp := AluSub;
      Alu(aluOp);
      assert View() == RunAlu(s.(b := x, aluOp := AluSub), AluSub);
      Record(2, rB);
    }

    /** The ADA case: B := ram[operand], then add. */
    method ExecuteAda(x: Addr)
      requires Valid()
      modifies this`rB, this`rC, this`aluOp, flag, opLog
      ensures var e := Dispatch(old(View()), OpAda, x, old(LogView())[opCount]);
              && !e.jump && e.request == NoRequest
              && View() == e.core.(log := old(LogView())[opCount := e.entry])
    {
      ghost var s := View();
      rB := ram[x];
      aluOp := AluAdd;
      Alu(aluOp);
      assert View() == RunAlu(s.(b := s.ram[x], aluOp := AluAdd), AluAdd);
      Record(2, rB);
      Record(3, x);
    }

    /** The SBA case: B := ram[operand], then subtract. */
    method ExecuteSba(x: Addr)
      requires Valid()
      modifies this`rB, this`rC, this`aluOp, flag, opLog
      ensures var e := Dispatch(old(View()), OpSba, x, old(LogView())[opCount]);
              && !e.jump && e.request == NoRequest
              && View() == e.core.(log := old(LogView())[opCount := e.entry])
    {
      ghost var s := View();
      rB := ram[x];
      aluOp := AluSub;
      Alu(aluOp);
      assert View() == RunAlu(s.(b := s.ram[x], aluOp := AluSub), AluSub);
      Record(2, rB);
      Record(3, x);
    }

    /** The STR case: ram[operand] := C. */
    method ExecuteStr(x: Addr)
      requires Valid()
      modifies ram, opLog
      ensures var e := Dispatch(old(View()), OpStr, x, old(LogView())[opCount]);
              && !e.jump && e.request == NoRequest
              && View() == e.core.(log := old(LogView())[opCount := e.entry])
    {
      ram[x] := rC;
      Record(2, rC);
      Record(3, x);
    }

    /** The STD case: C := A and not B, also stored at the operand; the ALU only sets the zero flag. */
    method ExecuteStd(x: Addr)
      requires Valid()
      modifies this`rC, this`aluOp, ram, flag, opLog
      ensures var e := Dispatch(old(View()), OpStd, x, old(LogView())[opCount]);
              && !e.jump && e.request == NoRequest
              && View() == e.core.(log := old(LogView())[opCount := e.entry])
    {
      ghost var s := View();
      rC := AndNot(rA, rB);
      ram[x] := rC;
      aluOp := AluOther;
      Alu(aluOp);
      ghost var v := AndNot(s.a, s.b);
      assert View() == RunAlu(s.(c := v, ram := s.ram[x := v], aluOp := AluOther), AluOther);
      Record(2, rC);
      Record(3, x);
    }

    /** The SSD case: C := A rotated right by B mod 16; the ALU only sets the zero flag. */
    method ExecuteSsd(x: Addr)
      requires Valid()
      modifies this`rC, this`aluOp, flag, opLog
      ensures var e := Dispatch(old(View()), OpSsd, x, old(LogView())[opCount]);
              && !e.jump && e.request == NoRequest
              && View() == e.core.(log := old(LogView())[opCount := e.entry])
    {
      ghost var s := View();
      rC := RotateRight(rA, rB);
      aluOp := AluOther;
      Alu(aluOp);
      assert View() == RunAlu(s.(c := RotR(s.a, s.b % 16), aluOp := AluOther), AluOther);
      Record(2, rC);
      Record(3, x);
    }

    /** The JMP case: iar := operand. */
    method ExecuteJmp(x: Addr)
      requires Valid()
      modifies this`iar, opLog
      ensures var e := Dispatch(old(View()), OpJmp, x, old(LogView())[opCount]);
              && e.jump && e.request == NoRequest
              && View() == e.core.(log := old(LogView())[opCount := e.entry], iar := x)
    {
      iar := x;
      Record(2, x);
    }

    /**
     * The JIZ, JIE, JII and JBT cases: when the zero, carry or input flag is
     * set, or the JBT test holds, iar := operand.
     */
    method ExecuteBranch(op: int, x: Addr) returns (jump: bool)
      requires Valid() && OpJiz <= op <= OpJbt
      modifies this`iar, opLog
      ensures var e := Dispatch(old(View()), op, x, old(LogView())[opCount]);
              && jump == e.jump && e.request == NoRequest
              && View() == e.core.(log := old(LogView())[opCount := e.entry], iar := if jump then x else old(iar))
    {
      var taken :=
        if op == OpJiz then flag[0]
        else if op == OpJie then flag[1]
        else if op == OpJii then flag[2]
        else JbtAsWritten(rA, rB);
      if taken {
        iar := x;
        jump := true;
        Record(2, 1);
        Record(3, x);
      } else {
        jump := false;
        Record(2, 0);
      }
    }

    /** The GIN case: ram[operand] := what a read of the input handler yields. */
    method ExecuteGin(x: Addr)
      requires Valid()
      modifies this`ihStored, this`ihPos, ram, ihCache, opLog
      ensures var e := Dispatch(old(View()), OpGin, x, old(LogView())[opCount]);
              && !e.jump && e.request == NoRequest
              && View() == e.core.(log := old(LogView())[opCount := e.entry])
    {
      var v := InputHandler(false, 0);
      ram[x] := v;
      Record(2, x);
      Record(3, ram[x]);
    }

    /** The SOT case: the output handler is to be called with device A and the operand. */
    method ExecuteSot(x: Addr) returns (request: Request)
      requires Valid()
      modifies opLog
      ensures var e := Dispatch(old(View()), OpSot, x, old(LogView())[opCount]);
              && !e.jump && request == e.request
              && View() == e.core.(log := old(LogView())[opCount := e.entry])
    {
      request := Send(rA, x);
      Record(2, rA);
      Record(3, x);
    }

    /**
     * VC_main's switch on the opcode: the instruction's own effect, whether it
     * jumped, and its output request.
     */
    method ExecuteInstruction(op: int, x: Addr) returns (jump: bool, request: Request)
      requires Valid() && 0 <= op < 16
      modifies this, ram, flag, ihCache, opLog
      ensures var e := Dispatch(old(View()), op, x, old(LogView())[opCount]);
              && jump == e.jump && request == e.request
              && View() == e.core.(log := old(LogView())[opCount := e.entry], iar := if jump then x else old(iar))
    {
      jump, request := false, NoRequest;
      if op == OpLda {
        ExecuteLda(x);
      } else if op == OpLaa {
        ExecuteLaa(x);
      } else if op == OpAdd {
        ExecuteAdd(x);
      } else if op == OpSbd {
        ExecuteSbd(x);
      } else if op == OpAda {
        ExecuteAda(x);
      } else if op == OpSba {
        ExecuteSba(x);
      } else if op == OpStr {
        ExecuteStr(x);
      } else if op == OpStd {
        ExecuteStd(x);
      } else if op == OpSsd {
        ExecuteSsd(x);
      } else if op == OpJmp {
        ExecuteJmp(x);
        jump := true;
      } else if op <= OpJbt {
        jump := ExecuteBranch(op, x);
      } else if op == OpGin {
        ExecuteGin(x);
      } else {
        request := ExecuteSot(x);
      }
    }

    /**
     * The end of VC_main: unless the instruction jumped, iar moves to the next
     * address (4095 wraps to 0); the log counter moves on, and reaching 4096
     * resets it to 0 and sets opOverflow.
     */
    method Advance(incIar: bool)
      requires Valid()
      modifies this`iar, this`opCount, this`opOverflow
      ensures View() == old(View()).(iar := if incIar then NextIar(old(iar)) else old(iar),
                                     opCount := NextCount(old(opCount), old(opOverflow)).0,
                                     opOverflow := NextCount(old(opCount), old(opOverflow)).1)
    {
      if incIar {
        var next := iar + 1;
        if next >= RamSize {
          next := 0;
        }
        iar := next;
      }

      var count := opCount + 1;
      if count >= RamSize {
        count := 0;
        opOverflow := true;
      }
      opCount := count;
    }

    /**
     * The body of VC_main: fetch, decode, log, execute, advance iar and the log
     * counter. A SOT instruction's call of the output handler is returned as a
     * request for the engine to carry out.
     */
    method Step() returns (request: Request)
      requires Valid()
      modifies this, ram, flag, ihCache, opLog
      ensures (View(), request) == Execute(old(View()))
    {
      ghost var s := View();
      var opCode := ram[iar] / 4096;
      var operand := ram[iar] % 4096;
      var incIar := true;

      Record(0, iar);
      Record(1, opCode);
      assert opCode == Fetched(s) && operand == FetchedOperand(s);
      assert View() == Logged(s);
      var jump;
      jump, request := ExecuteInstruction(opCode, operand);
      incIar := !jump;
      Advance(incIar);
    }
  }
}
