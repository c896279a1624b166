/**
 * The earlier copy of the engine (virtual_computer_source.cpp at the top of
 * the repository). Its step is the same switch as the later copy's, but its
 * output handler VC_OH is empty, VC_main always returns 0 (so WIN_main never
 * redraws), nothing ever writes to the input handler, and VC_updateLog dumps
 * slots 0 .. opCount - 1 with no regard for overflow.
 */
module EarlyEngine {
  import opened Words
  import opened InputStack
  import opened OpLog
  import opened CoreStep
  import opened RomLoader
  import opened Processor

  /** One step of the earlier VC_main: the CPU step with every output request dropped. */
  function EarlyNext(s: Core): (r: Core)
    requires s.Valid()
    ensures r.Valid()
  {
    Execute(s).0
  }

  /** The state after n steps of the earlier engine. */
  function EarlyRun(s: Core, n: nat): (r: Core)
    requires s.Valid()
    ensures r.Valid()
  {
    if n == 0 then s else EarlyNext(EarlyRun(s, n - 1))
  }

  /** With VC_OH empty, SOT only fills its log slot and moves iar and the log counter on. */
  lemma SotOnlyLogs(s: Core)
    requires s.Valid() && Fetched(s) == OpSot
    ensures var r := EarlyNext(s);
            && r == s.(log := r.log, iar := NextIar(s.iar), opCount := r.opCount, opOverflow := r.opOverflow)
            && r.log[s.opCount] == Slot(s).(field2 := s.a, field3 := FetchedOperand(s))
  {
  }

  /** Nothing pushes to the input handler, so an empty input cache stays empty. */
  lemma {:induction false} InputStaysEmpty(s: Core, n: nat)
    requires s.Valid() && s.input.stored == 0
    ensures EarlyRun(s, n).input == s.input
  {
    if n > 0 {
      InputStaysEmpty(s, n - 1);
      var p := EarlyRun(s, n - 1);
      if Fetched(p) == OpGin {
        InputInstruction(p);
      } else {
        InputCacheUntouched(p);
      }
    }
  }

  /** In a run from the start, every GIN stores 0. */
  lemma GinStoresZero(ram: seq<Word>, n: nat)
    requires |ram| == RamSize
    ensures var s := EarlyRun(InitialCore().(ram := ram), n);
            Fetched(s) == OpGin ==> EarlyNext(s).ram[FetchedOperand(s)] == 0
  {
    var s := EarlyRun(InitialCore().(ram := ram), n);
    InputStaysEmpty(InitialCore().(ram := ram), n);
    if Fetched(s) == OpGin {
      InputInstruction(s);
    }
  }

  /** After n steps from a fresh counter, opCount is n mod 4096 and opOverflow says whether n reached 4096. */
  lemma {:induction false} EarlyRunCountsSteps(s: Core, n: nat)
    requires s.Valid() && s.opCount == 0 && !s.opOverflow
    ensures (EarlyRun(s, n).opCount, EarlyRun(s, n).opOverflow) == CountAfter(n)
  {
    if n > 0 {
      EarlyRunCountsSteps(s, n - 1);
      StepLogsInstruction(EarlyRun(s, n - 1));
    }
  }

  /**
   * The earlier dump lists only n mod 4096 slots after n steps: once the log
   * has wrapped it leaves out the older entries that the later copy's dump
   * still lists.
   */
  lemma EarlyDumpAfterRun(ram: seq<Word>, n: nat)
    requires |ram| == RamSize
    ensures var r := EarlyRun(InitialCore().(ram := ram), n);
            && Range(0, r.opCount) == Range(0, n % RamSize)
            && (n >= RamSize ==> |Range(0, r.opCount)| < |LogOrder(r.opCount, r.opOverflow)|)
  {
    EarlyRunCountsSteps(InitialCore().(ram := ram), n);
    CountAfterSteps(n);
  }

  class EarlyComputer {
    const cpu: Cpu

    ghost predicate Valid() {
      cpu.Valid()
    }

    /** `main` before the event loop: globals at their initial values, the ROM loaded. */
    constructor (rom: seq<SChar>)
      ensures Valid() && cpu.View() == InitialCore().(ram := RomImage(rom))
    {
      cpu := new Cpu(rom);
    }

    /**
     * The earlier VC_main: one CPU step; a SOT instruction reaches the empty
     * VC_OH and does nothing more. The result is VC_main's return value,
     * which WIN_main tests before redrawing.
     */
    method Step() returns (redraw: bool)
      requires Valid()
      modifies cpu, cpu.ram, cpu.flag, cpu.ihCache, cpu.opLog
      ensures !redraw && cpu.View() == EarlyNext(old(cpu.View()))
    {
      var request := cpu.Step();
      redraw := false;
    }

    /** The earlier VC_updateLog without its text: the entries of slots 0 .. opCount - 1. */
    method UpdateLog() returns (entries: seq<LogEntry>)
      requires Valid()
      ensures entries == Dump(cpu.LogView(), Range(0, cpu.opCount))
    {
      entries := [];
      var i := 0;
      while i < cpu.opCount
        invariant 0 <= i <= cpu.opCount
        invariant entries == Dump(cpu.LogView(), Range(0, i))
      {
        entries := entries + [LogEntry(cpu.opLog[i, 0], cpu.opLog[i, 1], cpu.opLog[i, 2], cpu.opLog[i, 3])];
        i := i + 1;
      }
    }
  }
}
