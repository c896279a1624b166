# A verified model of the virtual computer

The repository is a small 16-bit virtual computer. Its RAM holds 4096 words. Registers A, B and C, and
an instruction address register (iar), run sixteen instructions. Each word has the opcode in its top
four bits and an operand (an address or an immediate value) in the low twelve bits. The instructions are:

- load: LDA, LAA;
- add and subtract: ADD, SBD, ADA, SBA;
- store: STR, STD;
- rotate: SSD;
- jump: JMP, JIZ, JIE, JII, JBT;
- input and output: GIN, SOT.

An ALU sets a zero flag and a carry ("extra") flag. A last-in-first-out input cache of 4096 words
feeds GIN. An output handler serves SOT; its system device reports and sets the clock speed and
requests a shutdown. An operation log keeps one four-field entry for each of the last 4096 steps, and
is dumped when the program closes. At start-up a ROM file of big-endian byte pairs is copied into RAM.
A separate utility converts between such binary files and text numbers.

The model covers:

- `source/virtual_computer_source.cpp`, the later copy of the engine;
- `virtual_computer_source.cpp`, the earlier copy, which differs in its output handler, its return
  value and its log dump. It also has no keyboard or mouse callbacks, so nothing pushes to its input
  cache, and it does not compile as written (see "## Left out");
- the word conversions of `data/binary_read_and_write_source.cpp`.

Each module has one job:

- `Words`: word, address and signed-byte types, and the byte conversions.
- `Alu`: VC_alu, the AND-NOT of STD, the rotation of SSD and the JBT test, with their bit-level
  meaning.
- `InputStack`: the input cache as a ring used as a stack.
- `OpLog`: the log ring, its counter and the order in which the dump visits it.
- `CoreStep`: one step of VC_main as a pure function, `Execute`, on a `Core` value, with one lemma
  for each group of instructions.
- `BinaryCodec`: the utility's read and write loops, with the round trip.
- `RomLoader`: the ROM loop in `main`.
- `SystemDevice`: the later engine as a pure machine, `Next` and `Run`, with the output handler.
- `Processor`: class `Cpu`. It holds the global arrays and registers that both copies update in
  place, and its methods mirror the cases of the source. Each method is proved equal,
  through `View()`, to the pure step.
- `Engine`: class `Computer`, the later engine with its system device and log dump.
- `EarlyEngine`: the earlier engine as class `EarlyComputer`, with lemmas on how it differs.

The later copy calls the output handler in the middle of the SOT case, before SOT's two log writes,
the iar increment and the counter increment. The model has the CPU step return the SOT request, and
the engine carries it out after the step. The output handler touches only the input cache, the clock
speed and the system device's state. No later statement of the step reads or writes any of these, so
the two orders reach the same state.

The later copy's system device accepts any operand as a new clock speed, including 0 (see
`SystemDevice.SetClockSpeed`). Each VC_main first re-arms its timer with `1000 / clockSpeed`, so the
step after the clock speed is set to 0 divides by zero; the timer is not part of this model.

JBT is modelled as written. In C, `rA & rB == rB` parses as `rA & (rB == rB)`, which is `rA & 1`, so
JBT jumps exactly when A is odd. `Alu.JbtReadingsDiffer` shows inputs on which this differs from the
test "all bits of B are set in A".

## Model

| member | source | states |
|---|---|---|
| Words.ByteValue | data/binary_read_and_write_source.cpp:36-38 | a signed char read as a byte lies in 0..255 and is congruent to the char mod 256 |
| Words.ToSChar | data/binary_read_and_write_source.cpp:79 | `(char)x` keeps the low eight bits of x: its byte value is x mod 256 |
| Alu.Alu | source/virtual_computer_source.cpp:474-517 | add gives (A+B) mod 65536 with carry iff A+B ≥ 65536; subtract gives (A−B) mod 65536 with carry iff A < B; any other mode leaves C and carry unchanged; the zero flag is set iff C = 0 in every mode |
| Alu.AndNotBits | source/virtual_computer_source.cpp:364 | each of the 16 bits of STD's result is set iff it is set in A and clear in B |
| Alu.AndNot | source/virtual_computer_source.cpp:364 | STD's result on 16-bit operands, A AND (65535 − B); its meaning bit by bit is stated by Alu.AndNotBits |
| Alu.StdWidth | source/virtual_computer_source.cpp:364 | `~(~rA \| rB)` computed on 32 bits equals the 16-bit A AND NOT B, so the stored result is a 16-bit word |
| Alu.ComplementBits | source/virtual_computer_source.cpp:364 | for b < 2^n, bit i < n of 2^n − 1 − b is the complement of bit i of b |
| Alu.BitAnd | source/virtual_computer_source.cpp:364 | C's `&` on non-negative ints, as STD and JBT use it, is at most each operand; Alu.BitAndBits gives its bits |
| Alu.BitAndBits | source/virtual_computer_source.cpp:364 | bit i of x AND y is the product of bit i of x and bit i of y |
| Alu.RotateRight | source/virtual_computer_source.cpp:371-379 | the SSD loop returns A rotated right by B mod 16 places |
| Alu.Half | source/virtual_computer_source.cpp:376-378 | one loop turn moves the lowest bit of a word to bit 15 and the rest down one place: t / 2 + (t mod 2)·32768 |
| Alu.RotR | source/virtual_computer_source.cpp:374-379 | k turns of the SSD loop, one Half each; Alu.SsdRotates states what they compute |
| Alu.SsdRotates | source/virtual_computer_source.cpp:374-379 | k halving steps (an odd value first gains 65536) equal A / 2^k + (A mod 2^k)·2^(16−k): the low k bits move to the top |
| Alu.RotatedByStep | source/virtual_computer_source.cpp:376-378 | one more loop turn rotates the word by one more place |
| Alu.FullTurn | source/virtual_computer_source.cpp:374-379 | sixteen halving steps give back the original word |
| Alu.JbtAsWritten | source/virtual_computer_source.cpp:432 | the JBT condition as C parses it is true iff A is odd, whatever B is |
| Alu.JbtAllBitsSet | source/virtual_computer_source.cpp:687 | the "all selected bits were true" reading of JBT, `(A & B) == B`, holds exactly when every bit set among the 16 bits of B is set in A |
| Alu.AllBitsSetMeans | source/virtual_computer_source.cpp:687 | `A & B == B` holds exactly when every bit set in B is set in A |
| Alu.JbtReadingsDiffer | source/virtual_computer_source.cpp:432 | on A = 2, B = 2 all bits of B are set in A but JBT does not jump; on A = 1, B = 2 they are not but it jumps |
| InputStack.EmptyCache | source/virtual_computer_source.cpp:99-101 | the input cache starts valid and holding nothing |
| InputStack.Push | source/virtual_computer_source.cpp:522-534 | a write moves the position one forward (4095 wraps to 0), stores the word there, counts it, and changes no other slot |
| InputStack.Pop | source/virtual_computer_source.cpp:536-555 | a read of an empty cache yields 0 and changes nothing; otherwise it yields the word at the position, moves the position one back (0 wraps to 4095) and counts one fewer |
| InputStack.StackView | source/virtual_computer_source.cpp:520-557 | while at most 4096 words are held, the readable words, oldest first, number exactly as many as are held |
| InputStack.PushThenPop | source/virtual_computer_source.cpp:520-557 | a read right after a write yields the written word and restores position and count |
| InputStack.PushOntoStack | source/virtual_computer_source.cpp:522-534 | with fewer than 4096 words held, a write puts the word on top of the readable words and keeps the others |
| InputStack.PopOffStack | source/virtual_computer_source.cpp:536-555 | a read of a non-empty cache yields the top readable word and leaves the rest |
| InputStack.PushTwicePopTwice | source/virtual_computer_source.cpp:520-557 | while at most 4094 words are held, two writes then two reads leave the readable words as they were |
| InputStack.LastInFirstOut | source/virtual_computer_source.cpp:520-557 | on an empty cache, two writes then two reads yield the words in reverse order and restore position and count; a third read yields 0 and changes nothing |
| OpLog.SetField | source/virtual_computer_source.cpp:316-317 | `opLog[slot][field] = value` makes field `field` equal to value and keeps the other three fields |
| OpLog.EmptyLog | source/virtual_computer_source.cpp:107 | the log starts as 4096 zeroed slots |
| OpLog.NextCount | source/virtual_computer_source.cpp:465-470 | the counter advances mod 4096, and the overflow flag is raised when it wraps and stays raised |
| OpLog.CountAfter | source/virtual_computer_source.cpp:465-470 | the counter and overflow flag after n steps from (0, false), n applications of NextCount; OpLog.CountAfterSteps gives them in closed form |
| OpLog.CountAfterSteps | source/virtual_computer_source.cpp:465-470 | after n steps the counter is n mod 4096, and overflow is set iff n ≥ 4096 |
| OpLog.LogOrder | source/virtual_computer_source.cpp:627-708 | the slots the dump visits hold 4096 entries once the log has wrapped and opCount before, each a valid slot number |
| OpLog.Dump | source/virtual_computer_source.cpp:627-708 | the dump has one entry per visited slot, the j-th being the log entry of the j-th visited slot |
| OpLog.WrappedOrderVisitsEverySlotOnce | source/virtual_computer_source.cpp:627-708 | once the log has wrapped, the dump visits all 4096 slots, each exactly once |
| OpLog.DumpIsOldestFirst | source/virtual_computer_source.cpp:618-708 | after n steps the dump lists min(n, 4096) slots, and its j-th is where step n − count + j wrote: oldest first |
| CoreStep.Operand | source/virtual_computer_source.cpp:311 | `word % 4096` is the part of the word below the opcode: opcode·4096 + operand == word |
| CoreStep.Fetched | source/virtual_computer_source.cpp:310 | the opcode fetched at iar is in 0..15 and is the number of whole 4096s in ram[iar] |
| CoreStep.FetchedOperand | source/virtual_computer_source.cpp:311 | the operand fetched at iar completes the fetched opcode to ram[iar] |
| CoreStep.OpCode | source/virtual_computer_source.cpp:310 | the opcode of a word is one of the sixteen, 0..15 |
| CoreStep.DecodeSplitsWord | source/virtual_computer_source.cpp:310-311 | opcode·4096 + operand gives back the instruction word |
| CoreStep.DecodeInstruction | source/virtual_computer_source.cpp:310-311 | an instruction assembled from an opcode and an operand decodes to that opcode and operand |
| CoreStep.InitialCore | source/virtual_computer_source.cpp:86-113 | every CPU global starts at zero or false: a valid state |
| CoreStep.NextIar | source/virtual_computer_source.cpp:457-463 | without a jump the next address is iar + 1 mod 4096 |
| CoreStep.Dispatch | source/virtual_computer_source.cpp:319-455 | an instruction's own effect keeps the state valid and leaves log, iar and counter to the end of the step |
| CoreStep.RunAlu | source/virtual_computer_source.cpp:474-517 | VC_alu applied to the state: only C and the flags change, as Alu.Alu states |
| CoreStep.Slot | source/virtual_computer_source.cpp:316-317 | slot opCount with iar and the opcode written; fields 2 and 3 still hold what an earlier step left there |
| CoreStep.Logged | source/virtual_computer_source.cpp:316-317 | the state once iar and the opcode are recorded in slot opCount; it stays valid |
| CoreStep.Finish | source/virtual_computer_source.cpp:457-470 | the end of the step keeps the state valid; what it does to iar and the counter is stated by CoreStep.StepAdvancesIar and CoreStep.StepLogsInstruction |
| CoreStep.Execute | source/virtual_computer_source.cpp:301-471 | one whole VC_main step keeps the state valid; its effects are stated by the lemmas that follow |
| CoreStep.StepAdvancesIar | source/virtual_computer_source.cpp:387-463 | a step goes to the operand when it jumps (JMP always; JIZ, JIE, JII on their flag; JBT when A is odd), else to iar + 1 mod 4096 |
| CoreStep.StepLogsOperands | source/virtual_computer_source.cpp:319-454 | fields 2 and 3 of the step's slot: LDA and LAA log the new A, with the address for LAA; ADD and SBD log the new B, ADA and SBA the new B and the address; STR logs C and the address; STD and SSD the new C and the address; JMP the target; a conditional jump logs 1 and the target when it jumps and 0 when it does not; GIN logs the address and the word it read; SOT logs A and the operand; field 3, where not written, keeps the slot's earlier value |
| CoreStep.StepLogsInstruction | source/virtual_computer_source.cpp:316-317 | a step records iar and opcode in slot opCount, changes no other slot, and advances the counter mod 4096 with the overflow flag |
| CoreStep.ZeroFlagTracksC | source/virtual_computer_source.cpp:513-516 | after every instruction that runs the ALU, the zero flag holds iff C = 0 |
| CoreStep.AddInstructions | source/virtual_computer_source.cpp:332-350 | ADD (B := operand) and ADA (B := ram[operand]) set mode add, C = (A+B) mod 65536 and carry iff A+B ≥ 65536; A, RAM, the input flag and the input cache are unchanged |
| CoreStep.SubtractInstructions | source/virtual_computer_source.cpp:338-357 | SBD and SBA set mode subtract, C = (A−B) mod 65536 and carry iff A < B; A, RAM, the input flag and the input cache are unchanged |
| CoreStep.LoadInstructions | source/virtual_computer_source.cpp:321-331 | LDA and LAA load A from the operand or from RAM and rerun the ALU in its current mode: in add mode C = (A+B) mod 65536 with carry iff A+B ≥ 65536, in subtract mode C = (A−B) mod 65536 with carry iff A < B, in any other mode C and carry are kept; the zero flag holds iff C = 0; B, the mode, RAM, the input flag and the input cache are unchanged |
| CoreStep.StoreInstruction | source/virtual_computer_source.cpp:358-362 | STR writes C to ram[operand] and changes no register or flag |
| CoreStep.AndNotInstruction | source/virtual_computer_source.cpp:363-370 | STD stores the same A AND NOT B in C and in ram[operand], bit by bit, sets mode OTHER and keeps the carry; A, B, the input flag and the input cache are unchanged |
| CoreStep.RotateInstruction | source/virtual_computer_source.cpp:371-386 | SSD sets C to A rotated right by B mod 16, sets mode OTHER and keeps the carry; A, B, RAM, the input flag and the input cache are unchanged |
| CoreStep.InputInstruction | source/virtual_computer_source.cpp:444-448 | GIN stores what a read of the input cache yields at the operand (0 when it is empty) and leaves every register, the mode and the flags unchanged |
| CoreStep.JumpInstructions | source/virtual_computer_source.cpp:387-443 | JMP, JIZ, JIE, JII and JBT change no register, flag, RAM word or input cache word: only the log, iar and the counter |
| CoreStep.OutputRequest | source/virtual_computer_source.cpp:449-453 | only SOT addresses the output handler, with A as device and the operand as payload |
| CoreStep.InputFlagUnchanged | source/virtual_computer_source.cpp:319-455 | no instruction writes the input flag |
| CoreStep.JiiFallsThrough | source/virtual_computer_source.cpp:418-430 | with the input flag clear, JII goes to the next address |
| CoreStep.InputCacheUntouched | source/virtual_computer_source.cpp:319-455 | only GIN touches the input cache during the step |
| BinaryCodec.PairValue | data/binary_read_and_write_source.cpp:36-43 | a byte pair's number has the high byte as its quotient by 256 and the low byte as its remainder |
| BinaryCodec.Pairs | data/binary_read_and_write_source.cpp:34-45 | a stream of n bytes yields n / 2 numbers |
| BinaryCodec.PairsAt | data/binary_read_and_write_source.cpp:34-45 | number k is made from bytes 2k and 2k + 1 |
| BinaryCodec.TrailingByteIgnored | data/binary_read_and_write_source.cpp:34-45 | an unpaired last byte adds nothing |
| BinaryCodec.ReadWords | data/binary_read_and_write_source.cpp:34-45 | the read loop emits exactly the pairs' numbers, in order |
| BinaryCodec.TruncDivAtLeastOne | data/binary_read_and_write_source.cpp:73 | `numLow / d >= 1` holds iff numLow ≥ d, also for negative numLow with C's truncating division |
| BinaryCodec.TruncDiv | data/binary_read_and_write_source.cpp:73 | C's integer division of positive divisors, rounding toward zero; BinaryCodec.TruncDivAtLeastOne states the test the loop makes with it |
| BinaryCodec.High | data/binary_read_and_write_source.cpp:70-78 | the high byte the split produces; BinaryCodec.SplitWord states its value |
| BinaryCodec.Low | data/binary_read_and_write_source.cpp:70-78 | what remains of the number once the high byte's share is taken away; BinaryCodec.SplitWord states its value |
| BinaryCodec.SplitWord | data/binary_read_and_write_source.cpp:70-78 | after the eight turns, high·256 + low = n with high in 0..255; for 0 ≤ n < 65536 high = n / 256 and low = n mod 256 |
| BinaryCodec.Encode | data/binary_read_and_write_source.cpp:68-80 | write mode emits two bytes for each number |
| BinaryCodec.EncodeAppend | data/binary_read_and_write_source.cpp:68-80 | one more number appends its two bytes to the output |
| BinaryCodec.WriteWords | data/binary_read_and_write_source.cpp:68-80 | the write loop emits exactly the encoding of the numbers |
| BinaryCodec.WordRoundTrip | data/binary_read_and_write_source.cpp:68-80 | the two bytes written for a number in 0..65535 read back as that number |
| BinaryCodec.ReadAfterWrite | data/binary_read_and_write_source.cpp:34-80 | reading what write mode wrote for numbers in 0..65535 gives the numbers back |
| RomLoader.ConsumedBytes | source/virtual_computer_source.cpp:167-170 | the loop reads at most 8191 bytes of the ROM |
| RomLoader.LoadedWords | source/virtual_computer_source.cpp:167-182 | at most 4095 words are loaded |
| RomLoader.RomImage | source/virtual_computer_source.cpp:163-182 | after loading, RAM holds the loaded words from address 0 and zero everywhere else |
| RomLoader.LoadRom | source/virtual_computer_source.cpp:163-182 | the ROM loop writes word k, made of bytes 2k and 2k + 1, to ram[k] and leaves the rest of RAM as it was |
| RomLoader.LastWordNeverLoaded | source/virtual_computer_source.cpp:167 | ram[4095] is never loaded from the ROM; a shorter ROM fills exactly its length / 2 words |
| SystemDevice.InitialMachine | source/virtual_computer_source.cpp:86-113 | the machine starts valid, with the loaded RAM and every CPU global at its initial value |
| SystemDevice.OutputHandler | source/virtual_computer_source.cpp:560-615 | the output handler changes no CPU state but the input cache, and a device other than 1 changes nothing |
| SystemDevice.Next | source/virtual_computer_source.cpp:301-471 | a step of the machine keeps it valid |
| SystemDevice.Run | source/virtual_computer_source.cpp:301-471 | any number of steps keeps the machine valid |
| SystemDevice.StepIsCoreStepPlusOutput | source/virtual_computer_source.cpp:449-453 | the machine step is the CPU step plus, for SOT only, the output handler's change to the input cache |
| SystemDevice.QueryClockSpeed | source/virtual_computer_source.cpp:570-573 | operand 0 to idle device 1 makes the next read yield the clock speed and the one after it yield 1; the cursor and the count are restored, the two slots above the cursor keep the pushed words, and while at most 4094 words are held the readable words are restored too; the clock speed, the stage and the shutdown flag are kept |
| SystemDevice.QueryThenReadGivesClockSpeed | source/virtual_computer_source.cpp:444-453 | SOT 0 with A = 1 followed directly by GIN x stores the clock speed at x, when no keyboard or mouse event arrives between the two steps |
| SystemDevice.SetClockSpeed | source/virtual_computer_source.cpp:574-598 | operand 1 stages command 1; the next operand becomes the clock speed and clears the stage |
| SystemDevice.StagedOperandIsConsumed | source/virtual_computer_source.cpp:590-603 | with a command staged, any operand is its argument: it sets the clock speed only for command 1, and always clears the stage |
| SystemDevice.IdleCommands | source/virtual_computer_source.cpp:578-587 | idle, operand 3 requests a shutdown; operand 2 (restart) and operands above 3 change nothing |
| SystemDevice.NextKeepsStage | source/virtual_computer_source.cpp:574-578 | only command 1 is ever staged |
| SystemDevice.NextKeepsInputFlag | source/virtual_computer_source.cpp:301-471 | a machine step, output handler included, leaves the input flag as it was |
| SystemDevice.InputFlagStaysClear | source/virtual_computer_source.cpp:418-430 | the input flag is never set in a run, so JII never jumps |
| SystemDevice.NextAdvancesCount | source/virtual_computer_source.cpp:465-470 | a machine step advances the counter and overflow flag as NextCount does |
| SystemDevice.RunCountsSteps | source/virtual_computer_source.cpp:465-470 | after n machine steps the counter and overflow flag are n mod 4096 and n ≥ 4096 |
| SystemDevice.DumpAfterRun | source/virtual_computer_source.cpp:618-708 | after n steps from start-up the dump lists the last min(n, 4096) steps' slots, oldest first |
| Processor.Cpu.constructor | source/virtual_computer_source.cpp:86-182 | the globals start at their initial values, with the ROM image in RAM |
| Processor.Cpu.Alu | source/virtual_computer_source.cpp:474-517 | VC_alu's update of C and the flags is the pure ALU applied to the state |
| Processor.Cpu.InputHandler | source/virtual_computer_source.cpp:520-557 | a write is Push and returns 0; a read is Pop |
| Processor.Cpu.Record | source/virtual_computer_source.cpp:316-317 | writing one log field changes that field of slot opCount only |
| Processor.Cpu.ExecuteLda | source/virtual_computer_source.cpp:321-325 | LDA sets A to the operand and reruns the ALU in its current mode, filling log field 2 with A, as the pure step does |
| Processor.Cpu.ExecuteLaa | source/virtual_computer_source.cpp:326-331 | LAA sets A to ram[operand] and reruns the ALU, logging A and the address, as the pure step does |
| Processor.Cpu.ExecuteAdd | source/virtual_computer_source.cpp:332-337 | ADD sets B to the operand and the mode to add, then runs the ALU, as the pure step does |
| Processor.Cpu.ExecuteSbd | source/virtual_computer_source.cpp:338-343 | SBD sets B to the operand and the mode to subtract, then runs the ALU, as the pure step does |
| Processor.Cpu.ExecuteAda | source/virtual_computer_source.cpp:344-350 | ADA sets B to ram[operand] and the mode to add, then runs the ALU, as the pure step does |
| Processor.Cpu.ExecuteSba | source/virtual_computer_source.cpp:351-357 | SBA sets B to ram[operand] and the mode to subtract, then runs the ALU, as the pure step does |
| Processor.Cpu.ExecuteStr | source/virtual_computer_source.cpp:358-362 | STR writes C to ram[operand] and logs C and the address, as the pure step does |
| Processor.Cpu.ExecuteStd | source/virtual_computer_source.cpp:363-370 | STD writes A AND NOT B to C and ram[operand], sets mode OTHER and runs the ALU, as the pure step does |
| Processor.Cpu.ExecuteSsd | source/virtual_computer_source.cpp:371-386 | the SSD loop leaves C as the pure step's rotation of A by B mod 16, sets mode OTHER and runs the ALU |
| Processor.Cpu.ExecuteJmp | source/virtual_computer_source.cpp:387-391 | JMP sets iar to the operand and reports a jump, as the pure step does |
| Processor.Cpu.ExecuteBranch | source/virtual_computer_source.cpp:392-443 | JIZ, JIE, JII and JBT jump to the operand exactly when the pure step does, logging 1 and the address, or 0 |
| Processor.Cpu.ExecuteGin | source/virtual_computer_source.cpp:444-448 | GIN stores what a read of the input cache yields at the operand, as the pure step does |
| Processor.Cpu.ExecuteSot | source/virtual_computer_source.cpp:449-453 | SOT returns the request for device A with the operand and logs both, as the pure step does |
| Processor.Cpu.ExecuteInstruction | source/virtual_computer_source.cpp:319-455 | the switch agrees with the pure step for every opcode |
| Processor.Cpu.Advance | source/virtual_computer_source.cpp:456-470 | iar advances mod 4096 unless the step jumped; the counter advances with the overflow flag |
| Processor.Cpu.Step | source/virtual_computer_source.cpp:301-471 | one VC_main step in place yields exactly the pure step's state and output request |
| Engine.Computer.constructor | source/virtual_computer_source.cpp:86-182 | the machine starts as the initial machine with the ROM image in RAM |
| Engine.Computer.OutputHandler | source/virtual_computer_source.cpp:560-615 | the handler's in-place update equals the pure output handler |
| Engine.Computer.Step | source/virtual_computer_source.cpp:301-471 | one step with its output handling equals the pure machine step |
| Engine.Computer.UpdateLog | source/virtual_computer_source.cpp:618-713 | the dump lists the log entries in the order the loop visits them: 0..opCount − 1, or after overflow opCount..4095 then 0..opCount − 1 |
| EarlyEngine.EarlyNext | virtual_computer_source.cpp:238-408 | a step of the earlier engine keeps the state valid |
| EarlyEngine.EarlyRun | virtual_computer_source.cpp:238-408 | any number of steps of the earlier engine keeps the state valid |
| EarlyEngine.SotOnlyLogs | virtual_computer_source.cpp:384-388 | with the empty output handler, SOT changes nothing but its log slot (A and the operand), iar and the counter |
| EarlyEngine.InputStaysEmpty | virtual_computer_source.cpp:455-492 | nothing writes to the input cache, so an empty cache stays empty through any run |
| EarlyEngine.GinStoresZero | virtual_computer_source.cpp:379-383 | in any run from start-up, GIN stores 0 |
| EarlyEngine.EarlyRunCountsSteps | virtual_computer_source.cpp:398-405 | after n steps the counter and overflow flag are n mod 4096 and n ≥ 4096 |
| EarlyEngine.EarlyDumpAfterRun | virtual_computer_source.cpp:503 | after n steps the earlier dump lists slots 0..(n mod 4096) − 1, fewer than the later dump once the log has wrapped |
| EarlyEngine.EarlyComputer.constructor | virtual_computer_source.cpp:142-161 | the globals start at their initial values, with the ROM image in RAM |
| EarlyEngine.EarlyComputer.Step | virtual_computer_source.cpp:186-194 | VC_main returns 0, so WIN_main never redraws; the state becomes the earlier engine's step |
| EarlyEngine.EarlyComputer.UpdateLog | virtual_computer_source.cpp:499-579 | the earlier dump lists slots 0..opCount − 1 in order, whether or not the log wrapped |

## Left out

- The window, drawing, display test and icon (GLUT and Windows calls) are not modelled. Neither are the keyboard and mouse callbacks, which only push to the input cache.
- The timers are not modelled: the delay `1000 / clockSpeed` between steps and the instructions-per-second counter. Time is a sequence of `Next` steps.
- File input and output are not modelled, and the ROM is given as a byte sequence. Also left out: the message and early return when the ROM file fails to open, the log file, the text each log line carries, and the utility's argument checks and file opening.
- glutDestroyWindow for operand 3 is modelled as the flag `shutdownRequested`, and the machine keeps stepping after it. In the source it ends the GLUT loop. The close callback VC_updateLog, registered at source/virtual_computer_source.cpp:152, may then run inside that call, in the middle of SOT: before the slot's third field is written and before opCount advances. That dump is not modelled.
- SystemDevice.QueryThenReadGivesClockSpeed: `Next` and `Run` describe runs in which no keyboard or mouse event arrives between steps. In the source, GLUT can run WIN_keyboard or WIN_mouse (source/virtual_computer_source.cpp:273-296) between two VC_main calls. Each pushes several words to the input cache, and a GIN after such an event reads the event's last word, not the clock speed.
- SystemDevice.Run: after SOT sets the clock speed to 0, the next VC_main divides 1000 by zero at source/virtual_computer_source.cpp:304 before it fetches. So the steps Run takes after that are not steps the program takes.
- Alu.AndNot: computes STD on integers, as A AND (65535 − B). Alu.StdWidth proves on bit vectors that the 32-bit `~(~rA | rB)` is the 16-bit A AND NOT B. Alu.AndNotBits proves the same bit by bit on integers. The conversion between bit vectors and integers that would join the two is not proved.
- VC_OH_MBK_cache and its stored flag in the later copy, and VC_OH_cache and VC_OH_stored in the earlier copy, are declared but never used, so they are not modelled.
- InputStack.Push: takes a 16-bit word. The source stores any C `int` in the cache, and only the mouse and keyboard callbacks (left out) can push values outside 0..65535.
- Processor.Cpu.Step: the later copy calls the output handler inside the SOT case, before SOT's log writes and the iar and counter updates. The model returns the request and carries it out after the step; the two touch disjoint state, so this order reaches the same state.
- C's 32-bit `int` overflow is not modelled: the counters (the input cache's stored count in particular) are unbounded integers.
- The earlier copy does not compile as written: a `;` is missing at virtual_computer_source.cpp:485, and GIN calls `VC_IH()` (declared at :102 with no parameters) where the definition at :455 takes a bool. EarlyEngine models GIN as the read `VC_IH(false)` that the definition provides.
- `programs/assembler/assembler_source.cpp` holds only a commented-out assembly listing, with no code to model.
