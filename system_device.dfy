/**
 * The engine in source/: the CPU step together with the output handler's
 * system device (device id 1), which answers clock-speed queries through the
 * input handler, sets the clock speed in two phases and requests a shutdown.
 */
module SystemDevice {
  import opened Words
  import opened InputStack
  import opened OpLog
  import opened CoreStep

  /** The output device id of the system device; the other ids take no output. */
  const SysDevice: int := 1

  /** The clock speed the machine starts with, in instructions per second. */
  const InitialClockSpeed: int := 1001

  /**
   * The whole machine: the CPU, the clock speed, the system device's staged
   * command (VC_OH_SYS_cache and VC_OH_SYS_cache_stored) and whether a
   * shutdown was requested (the window destroyed).
   */
  datatype Machine = Machine(core: Core, clockSpeed: Word, sysCache: Addr, sysCacheStored: bool,
                             shutdownRequested: bool)
  {
    predicate Valid() {
      core.Valid()
    }
  }

  /** The machine after `main` loaded `ram`: every other global at its initial value. */
  function InitialMachine(ram: seq<Word>): (m: Machine)
    requires |ram| == RamSize
    ensures m.Valid() && m.core == InitialCore().(ram := ram)
  {
    Machine(InitialCore().(ram := ram), InitialClockSpeed, 0, false, false)
  }

  /**
   * VC_outputHandler(device, operand). Only device 1 does anything. Idle, it
   * takes operand 0 as "report the clock speed" (push 1, then the clock
   * speed, to the input handler), operand 1 as "stage command 1", and operand 3
   * as "shut down"; operand 2 (restart) and any other operand do nothing. With
   * a command staged, the next operand is that command's argument: command 1
   * sets the clock speed to it; the stage is cleared either way.
   */
  function OutputHandler(m: Machine, device: int, operand: Addr): (r: Machine)
    requires m.Valid()
    ensures r.Valid()
    ensures r.core == m.core.(input := r.core.input)
    ensures device != SysDevice ==> r == m
  {
    if device != SysDevice then m
    else if !m.sysCacheStored then
      if operand == 0 then
        m.(core := m.core.(input := Push(Push(m.core.input, SysDevice), m.clockSpeed)))
      else if operand == 1 then
        m.(sysCache := operand, sysCacheStored := true)
      else if operand == 3 then
        m.(shutdownRequested := true)
      else
        m
    else
      (if m.sysCache == 1 then m.(clockSpeed := operand) else m).(sysCacheStored := false)
  }

  /** VC_main: one CPU step, with a SOT instruction's request carried out by the output handler. */
  function Next(m: Machine): (r: Machine)
    requires m.Valid()
    ensures r.Valid()
  {
    var (core, request) := Execute(m.core);
    match request
    case NoRequest => m.(core := core)
    case Send(device, payload) => OutputHandler(m.(core := core), device, payload)
  }

  /** The machine after n steps. */
  function Run(m: Machine, n: nat): (r: Machine)
    requires m.Valid()
    ensures r.Valid()
  {
    if n == 0 then m else Next(Run(m, n - 1))
  }

  /** The output handler changes nothing but the input cache, the clock speed and the device state. */
  lemma StepIsCoreStepPlusOutput(m: Machine)
    requires m.Valid()
    ensures Next(m).core == Execute(m.core).0.(input := Next(m).core.input)
    ensures Fetched(m.core) != OpSot ==> Next(m) == m.(core := Execute(m.core).0)
  {
    OutputRequest(m.core);
  }

  /**
   * Idle device 1 given operand 0 pushes 1 and then the clock speed: the
   * next read yields the clock speed, the one after it yields 1, and the
   * cursor and the count are back where they were. The two slots above the
   * cursor keep the pushed words; while at most 4094 words are held, those
   * slots are not readable, so the readable words are as they were. The
   * clock speed, the stage and the shutdown flag are kept.
   */
  lemma QueryClockSpeed(m: Machine)
    requires m.Valid() && !m.sysCacheStored
    ensures var (x, c1) := Pop(OutputHandler(m, SysDevice, 0).core.input);
            var (y, c2) := Pop(c1);
            && x == m.clockSpeed && y == SysDevice
            && c2.pos == m.core.input.pos && c2.stored == m.core.input.stored
            && c2.slots[(c2.pos + 1) % RamSize] == SysDevice
            && c2.slots[(c2.pos + 2) % RamSize] == m.clockSpeed
            && (m.core.input.stored <= RamSize - 2 ==> StackView(c2) == StackView(m.core.input))
            && OutputHandler(m, SysDevice, 0) == m.(core := OutputHandler(m, SysDevice, 0).core)
  {
    var c := m.core.input;
    var c1 := Push(c, SysDevice);
    PushThenPop(c1, m.clockSpeed);
    PushThenPop(c, SysDevice);
    if c.stored <= RamSize - 2 {
      PushTwicePopTwice(c, SysDevice, m.clockSpeed);
    }
  }

  /**
   * A program that sends operand 0 to device 1 (SOT 0 with A = 1) and then
   * reads the input handler (GIN x) stores the clock speed at x, provided no
   * keyboard or mouse event pushes to the input cache between the two steps
   * (the machine's steps follow one another with no such event).
   */
  lemma QueryThenReadGivesClockSpeed(m: Machine)
    requires m.Valid() && !m.sysCacheStored
    requires Fetched(m.core) == OpSot && FetchedOperand(m.core) == 0 && m.core.a == SysDevice
    requires OpCode(m.core.ram[NextIar(m.core.iar)]) == OpGin
    ensures Next(Next(m)).core.ram[Operand(m.core.ram[NextIar(m.core.iar)])] == m.clockSpeed
  {
    var m1 := Next(m);
    OutputRequest(m.core);
    StepAdvancesIar(m.core);
    assert m1 == OutputHandler(m.(core := Execute(m.core).0), SysDevice, 0);
    assert m1.core.iar == NextIar(m.core.iar) && m1.core.ram == m.core.ram;
    QueryClockSpeed(m.(core := Execute(m.core).0));
    InputInstruction(m1.core);
    StepIsCoreStepPlusOutput(m1);
  }

  /** Operand 1 then a value, both to idle device 1: the clock speed becomes the value and the device is idle again. */
  lemma SetClockSpeed(m: Machine, speed: Addr)
    requires m.Valid() && !m.sysCacheStored
    ensures OutputHandler(m, SysDevice, 1).sysCacheStored
    ensures OutputHandler(OutputHandler(m, SysDevice, 1), SysDevice, speed) == m.(clockSpeed := speed, sysCache := 1)
  {
  }

  /** Any operand sent to device 1 while a command is staged is consumed as its argument and clears the stage. */
  lemma StagedOperandIsConsumed(m: Machine, operand: Addr)
    requires m.Valid() && m.sysCacheStored
    ensures var r := OutputHandler(m, SysDevice, operand);
            && !r.sysCacheStored && r.core == m.core && r.shutdownRequested == m.shutdownRequested
            && r.clockSpeed == (if m.sysCache == 1 then operand else m.clockSpeed)
  {
  }

  /** Idle device 1: operand 3 requests a shutdown; operand 2 and operands above 3 change nothing. */
  lemma IdleCommands(m: Machine, operand: Addr)
    requires m.Valid() && !m.sysCacheStored
    ensures var r := OutputHandler(m, SysDevice, operand);
            && (operand == 3 ==> r == m.(shutdownRequested := true))
            && (operand == 2 || operand > 3 ==> r == m)
  {
  }

  /** Only command 1 is ever staged. */
  predicate StageHoldsCommand(m: Machine) {
    m.sysCacheStored ==> m.sysCache == 1
  }

  lemma NextKeepsStage(m: Machine)
    requires m.Valid() && StageHoldsCommand(m)
    ensures StageHoldsCommand(Next(m))
  {
  }

  /** A machine step leaves the input flag as it was. */
  lemma NextKeepsInputFlag(m: Machine)
    requires m.Valid()
    ensures Next(m).core.inputFlag == m.core.inputFlag
  {
    StepIsCoreStepPlusOutput(m);
    InputFlagUnchanged(m.core);
  }

  /** Nothing in the machine ever sets the input flag, so JII never jumps in a run from the start. */
  lemma {:induction false} InputFlagStaysClear(m: Machine, n: nat)
    requires m.Valid() && !m.core.inputFlag
    ensures !Run(m, n).core.inputFlag
  {
    if n > 0 {
      InputFlagStaysClear(m, n - 1);
      var p := Run(m, n - 1);
      NextKeepsInputFlag(p);
      assert Run(m, n) == Next(p);
    }
  }

  /** A machine step advances the log counter as VC_main's last lines do. */
  lemma NextAdvancesCount(m: Machine)
    requires m.Valid()
    ensures (Next(m).core.opCount, Next(m).core.opOverflow) == NextCount(m.core.opCount, m.core.opOverflow)
  {
    StepIsCoreStepPlusOutput(m);
    StepLogsInstruction(m.core);
  }

  /** After n steps from a fresh counter, opCount is n mod 4096 and opOverflow says whether n reached 4096. */
  lemma {:induction false} RunCountsSteps(m: Machine, n: nat)
    requires m.Valid() && m.core.opCount == 0 && !m.core.opOverflow
    ensures (Run(m, n).core.opCount, Run(m, n).core.opOverflow) == CountAfter(n)
  {
    if n > 0 {
      var p := Run(m, n - 1);
      RunCountsSteps(m, n - 1);
      NextAdvancesCount(p);
      assert Run(m, n) == Next(p);
    }
  }

  /**
   * After n steps from the start the log dump lists the slots of the last
   * min(n, 4096) steps, oldest first.
   */
  lemma DumpAfterRun(ram: seq<Word>, n: nat)
    requires |ram| == RamSize
    ensures var r := Run(InitialMachine(ram), n).core;
            var order := LogOrder(r.opCount, r.opOverflow);
            && |order| == (if n < RamSize then n else RamSize)
            && forall j :: 0 <= j < |order| ==> order[j] == (n - |order| + j) % RamSize
  {
    RunCountsSteps(InitialMachine(ram), n);
    DumpIsOldestFirst(n);
  }
}
