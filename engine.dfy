/**
 * The engine in source/ as a program over global state: the CPU, the clock
 * speed and the system device's staged command, stepped by VC_main, with
 * VC_outputHandler answering SOT instructions and VC_updateLog dumping the
 * operation log. Each method is proved against SystemDevice through View().
 */
module Engine {
  import opened Words
  import opened InputStack
  import opened OpLog
  import opened CoreStep
  import opened RomLoader
  import opened SystemDevice
  import opened Processor

  class Computer {
    const cpu: Cpu
    var clockSpeed: Word
    /** VC_OH_SYS_cache and VC_OH_SYS_cache_stored. */
    var sysCache: Addr
    var sysCacheStored: bool
    /** Set where the source destroys the window. */
    var shutdownRequested: bool

    ghost predicate Valid() {
      cpu.Valid()
    }

    /** The machine state as a value. */
    ghost function View(): (m: Machine)
      requires Valid()
      reads this, cpu, cpu.ram, cpu.flag, cpu.ihCache, cpu.opLog
      ensures m.Valid()
    {
      Machine(cpu.View(), clockSpeed, sysCache, sysCacheStored, shutdownRequested)
    }

    /** `main` before the event loop: globals at their initial values, the ROM loaded. */
    constructor (rom: seq<SChar>)
      ensures Valid() && View() == InitialMachine(RomImage(rom))
    {
      cpu := new Cpu(rom);
      clockSpeed := InitialClockSpeed;
      sysCache, sysCacheStored := 0, false;
      shutdownRequested := false;
    }

    /** VC_outputHandler(device, operand). */
    method OutputHandler(device: int, operand: Addr)
      requires Valid()
      modifies this, cpu`ihStored, cpu`ihPos, cpu.ihCache
      ensures View() == SystemDevice.OutputHandler(old(View()), device, operand)
    {
      if device == SysDevice {
        if !sysCacheStored {
          if operand == 0 {
            var ignored := cpu.InputHandler(true, SysDevice);
            ignored := cpu.InputHandler(true, clockSpeed);
          } else if operand == 1 {
            sysCache := operand;
            sysCacheStored := true;
          } else if operand == 2 {
            // restart: not supported
          } else if operand == 3 {
            shutdownRequested := true;
          }
        } else {
          if sysCache == 1 {
            clockSpeed := operand;
          }
          sysCacheStored := false;
        }
      }
      // the keyboard, the mouse and any other device take no output
    }

    /** VC_main: one CPU step; a SOT instruction's request goes to the output handler. */
    method Step()
      requires Valid()
      modifies this, cpu, cpu.ram, cpu.flag, cpu.ihCache, cpu.opLog
      ensures View() == Next(old(View()))
    {
      var request := cpu.Step();
      match request
      case NoRequest =>
      case Send(device, payload) =>
        OutputHandler(device, payload);
    }

    /**
     * VC_updateLog without the text it writes: the log entries in the order
     * the loop visits them. With overflow the index starts at opCount, is
     * set to -1 after slot 4095 so that it continues from 0, and the loop
     * stops after slot opCount - 1.
     */
    method UpdateLog() returns (entries: seq<LogEntry>)
      requires Valid()
      ensures entries == Dump(cpu.LogView(), LogOrder(cpu.opCount, cpu.opOverflow))
    {
      var opCount, opOverflow := cpu.opCount, cpu.opOverflow;
      ghost var log := cpu.LogView();
      ghost var order: seq<int> := [];
      entries := [];
      var i := if opOverflow then opCount else 0;
      while i < opCount + (if opOverflow then RamSize + 1 else 0)
        invariant opOverflow ==>
                    || (opCount <= i < RamSize && order == Range(opCount, i))
                    || (0 <= i < opCount && order == Range(opCount, RamSize) + Range(0, i))
        invariant !opOverflow ==> 0 <= i <= opCount && order == Range(0, i)
        invariant entries == Dump(log, order)
        decreases if opOverflow && i >= opCount then RamSize - i + opCount else opCount - i
      {
        entries := entries + [LogEntry(cpu.opLog[i, 0], cpu.opLog[i, 1], cpu.opLog[i, 2], cpu.opLog[i, 3])];
        order := order + [i];
        if opOverflow {
          if i == RamSize - 1 {
            i := -1;
          }
          if i == opCount - 1 {
            break;
          }
        }
        i := i + 1;
      }
    }
  }
}
