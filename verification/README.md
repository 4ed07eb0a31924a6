# A verified model of the KOSMOS CP1 emulator core

The project models the logic of the CP1 emulator, one module or group of modules per source component,
and proves properties that span its functions and whole runs.

* **Chips, bus and panel** (`Bits`, `DataPorts`, `Pid8155`, `Panel`, `Board`, `MemoryMap`). The byte ports with their per-bit
  notifications, the two Intel 8155s with their edge-triggered ALE, /RD, /WR, CE, IO and RESET slots, the wiring of
  `main()`, and the panel's slots, which write the ports in the middle of an instruction: the switches to P1 whenever
  somebody writes it, the keys of the selected row to the low half of P2 on the falling edge of PROG. `MemoryMap` reads an abstract byte map off the history of bus operations alone and proves that
  the pin-level protocol refines it.
* **Processor** (`Cpu`, `CpuFrames`, `InstructionSet`, `InstructionFrames`, `Processor`, `TimerRuns`, `Interrupts`, `CallStack`, `Handlers`, `BusRuns`,
  `PanelRuns`, `MultiByte`). `Cpu.Step` is the instruction step as a function on machine values; `Processor.Intel8049` is the object,
  whose methods update fields in place and are proved equal to it. `InstructionSet` and `InstructionFrames` say what the step
  does for each of the 256 opcode bytes, in terms of registers, flags, bits and cells alone: the effect, the length, the cycles,
  what stays, and exactly when it fails. The other modules prove laws of runs: timer
  conservation, accounting of timer requests, separation of interrupt entries, the circular call stack as a LIFO,
  transparency of interrupt handlers, what a program reads of keys and switches, and exact multi-byte and decimal addition.
  A machine carries the list of what the user still is going to do, one `Input` for an instruction, and every law of runs
  holds for every such list, the empty one being a machine without a panel. A `Log` inside the machine value counts ticks,
  overflows and vector entries; nothing in the machine reads it.
* **Assembler** (`Assembly`, `AssemblerObject`, `Mnemonics`, `TwoPass`, `AssemblerFacts`). The one-pass assembler with back-patching,
  as functions and as an object with mutable tables, against an independent two-pass assembler; `Mnemonics` says
  what a line of each of the 28 operations does, with its code and its parameters. `OnAssembleClicked` goes from the source to
  the words in the chips.
* **Disassembler** (`Disassembly`, `Listing`). Its own 256-way switch, proved opcode by opcode against the processor's decoder;
  `Listing` says what is listed for each opcode byte.
* **Executor** (`ExecutorModel`, `ExecutorObject`, `ExecutorLaws`, `Breakpoints`). Command queue, run state and breakpoints as atomic events
  (a post, or one turn of the worker's loop); every theorem is over all interleavings. `ExecutorLaws` carries the laws of
  the processor over to every state the executor can reach, resets and loaded states included; `Breakpoints` says what each command does and exactly when free running stops, in terms of
  the commands processed.
* **Save files** (`SaveFile`, `SaveStreams`, `FileLayout`). Printers and parsers on streams with a sticky fail bit; `FileLayout`
  gives the place of every field in the file.
* **Number formatting** (`BigArith`, `BigLemmas`, `BigSteps`, `BigInts`, `Rounding`, `DragonSteps`, `DragonScale`,
  `ShortestSteps`, `Dragon`, `DragonFormats`, `DragonEstimate`, `Decimal`). The arbitrary-length integer, the whole Dragon4
  printer from set-up through fixup to both its fixed-precision and its shortest branch, and the two-digits-at-a-time
  decimal writer of the vendored fmt library.

Where the source can abort or index out of range, the model returns a failure (`Stuck`, `ok == false`, `wild`) instead of
excluding the input. A key scan with row 6 or 7 selected reads beyond the six rows of the key matrix and is such a failure.

Places where the code does something other than its comments or the data sheet say; the model follows the code:

* `IN A,P2` and `OUTL P2,A` mask the port number to one bit and reach BUS (`Disassembly.PortsAgree`).
* `DataPort::write` does not mask the written value, so a bit outside the mask can rise without a notification; no
  instruction does this (`DataPorts.MirrorKeptIff` says exactly when).
* A `.EQU` or `.ORG` whose operand is not yet known leaves a patch entry behind that later overwrites the operand
  of an unrelated word (`AssemblerFacts.UnknownEquCorrupts`, `AssemblerFacts.UnknownOrgCorrupts`).
* A backward `.ORG` that cuts off a word waiting for its label leaves its index in the list. What follows depends on what
  stands there when the label is defined: the patch leaves the memory (`AssemblerFacts.BackwardOrgWritesWild`), silently
  changes another word (`AssemblerFacts.BackwardOrgCorrupts`), hits a word that refers to the same label and is right
  (`AssemblerFacts.BackwardOrgReused`), or never happens and the program is refused (`AssemblerFacts.BackwardOrgRefused`).
  `TwoPass.Damaged` computes the wrong words from the layout and the lists alone, and the words are those of the two-pass
  assembler exactly when there are none; `TwoPass.OwnPatches` is the missing guard of the patch.
* The disassembler takes a jump's page from the opcode, the processor from the operand byte
  (`Disassembly.NearTargetAgrees`).
* `compare` of two equal bigints with different exponents is not 0, and a zero with a high exponent compares as larger
  (`BigInts.BigInt.Compare` states the answer for all inputs). This has two consequences in `format_dragon`.
  With a precision, `divmod_assign` returns 0 for equal values when the dividend has the higher exponent, and the character
  after '9' is printed for a value that is a power of ten: `DragonScale.PowerSkipped` is the exact condition. No significand
  of 24, 53, 64 or 113 bits meets it (`DragonFormats.NeverSkipped`); only a direct call with another significand does, such as
  the 72 bits of `DragonFormats.SkipWitness`.
  Without one, a tie with the lower midpoint or a zero remainder can be misjudged. `ShortestSteps.Misjudged` is the exact
  condition on significand, exponent and estimate under which the result does not read back or is not shortest. Significands
  of all four widths meet it with the estimates `format_float` makes: a lower midpoint that reads back is passed over
  (`DragonFormats.EvenTieOfFloat`, `EvenTieOfDouble` and `EvenTieMisjudged` for 24, 53 and 64 bits), or one that does not is
  taken (`DragonFormats.OddTieMisjudged` for 113 bits). Numbers of 24 and 53 bits come this way in constant evaluation only. A direct call with a
  lower estimate can also fail to recognise a zero remainder (`DragonFormats.ZeroRemainderMisjudged`). Where the exponents
  of the big integers agree the condition never holds (`ShortestSteps.NotMisjudged`). In every case the printed decimal lies
  between the midpoints or on one of them.
* `JNI` jumps while the /INT pin is high; it is modelled as written.
* `DA A` forgets the carry out of the addition and the one out of its own low digit: after an addition of packed decimal
  bytes it gives the decimal sum exactly when the raw sum is below 250 (`MultiByte.DecimalSumIff`; 99 + 99 and 99 + 61 fail,
  `MultiByte.DecimalSumFails`).

## Model

| member | source | states |
|---|---|---|
| DataPorts.DataPort.Write | src/emulation/dataport.cpp:44-55 | on a port that no listener writes in turn: the stored value, and one notification per mask bit in ascending order carrying the new level |
| DataPorts.BitOfWritten | src/emulation/dataport.cpp:45 | every bit of the port after any masked write, for all old values, values and masks |
| DataPorts.SignalledExactly | src/emulation/dataport.cpp:49-54 | a bit is notified if and only if the mask contains it, with the level the port then has |
| DataPorts.SignalsAscend | src/emulation/dataport.cpp:49-54 | in ascending order, one for a bit |
| DataPorts.MirrorKeptIff | src/emulation/dataport.cpp:44-55 | a listener that mirrored a bit still does after a write, if and only if the write does not raise a bit its own mask excludes |
| DataPorts.WrittenFull | src/emulation/dataport.cpp:45 | a full-width write stores the value whatever was there |
| Pid8155.Intel8155.constructor | src/emulation/intel8155.cpp:28-47 | the chip's initial state; the uninitialised address latch may hold any byte |
| Pid8155.Intel8155.InitFromState | src/emulation/intel8155.cpp:49-72 | the whole state becomes the loaded one |
| Pid8155.Intel8155.SaveToState | src/emulation/intel8155.cpp:74-97 | the saved state is the whole state, so loading it back restores the chip |
| Pid8155.Intel8155.DoReset | src/emulation/intel8155.cpp:99-112 | modes, interrupt enables, port registers and RAM cleared, pins and latch kept |
| Pid8155.Intel8155.OnPinALEWritten | src/emulation/intel8155.cpp:114-122 | the latch takes the bus on the falling edge only |
| Pid8155.Intel8155.OnPinRDLowActiveWritten | src/emulation/intel8155.cpp:124-159 | a selected chip drives the addressed cell on the rising edge; otherwise the bus is untouched |
| Pid8155.Intel8155.OnPinWRLowActiveWritten | src/emulation/intel8155.cpp:161-218 | a selected chip stores the bus into the addressed RAM cell, port register or command register on the rising edge, and changes nothing else |
| Pid8155.Intel8155.OnPinResetWritten | src/emulation/intel8155.cpp:220-224 | level 1 resets, level 0 does nothing |
| Pid8155.Intel8155.OnPinCELowActiveWritten | src/emulation/intel8155.cpp:226-229 | only the CE pin follows |
| Pid8155.Intel8155.OnPinIOWritten | src/emulation/intel8155.cpp:231-234 | only the IO pin follows |
| Board.Wiring.constructor | src/main.cpp:55-61 | separate ports and chips sharing one bus |
| Board.Wiring.PortP1 | src/emulation/dataport.cpp:44-55 | a write of P1 with its listener: unless the write is the panel's own, P1 then holds the switches, whatever was written |
| Board.Wiring.OnPort1ValueWritten | src/ui/panel/panelwindow.cpp:137-147 | the panel answers a write of P1 with the switches, once: its own write is not answered, and the recursion ends |
| Board.Wiring.OnPinProgWritten | src/ui/panel/panelwindow.cpp:112-135 | only on the falling edge of PROG the low half of P2 takes the keys of the selected row, bits 4 to 7 and the chips notified as by any write; fails exactly for the rows 6 and 7 |
| Board.Wiring.UserActs | src/ui/panel/panelwindow.cpp:154-156 | operating the switches puts them on P1 |
| Board.Wiring.ConnectPanel | src/ui/panel/panelwindow.cpp:42-93 | the window starts with the switches on P1 |
| Panel.PanelWindow.SelectedRow | src/ui/panel/panelwindow.cpp:126-132 | the row that `Panel.RowIsLowest` shows to be the lowest 0 of the mask |
| Panel.RowIsLowest | src/ui/panel/panelwindow.cpp:126-132 | the selected row is the lowest bit that is 0 |
| Board.Wiring.PinAle | src/main.cpp:64-72 | an ALE edge reaches both chips with the bus as it is |
| Board.Wiring.PinRd | src/main.cpp:65-73 | both chips see /RD in connection order, so the extension drives over the main chip |
| Board.Wiring.PinWr | src/main.cpp:66-74 | both chips see /WR and the same bus byte |
| Board.Wiring.PortP2 | src/main.cpp:67-78 | a P2 write delivers its bit notifications in order to CE, RESET and IO of the chips |
| Board.Wiring.Slot | src/main.cpp:67-78 | bit 4 is CE of the main chip, 5 CE of the extension, 6 RESET and 7 IO of both, the rest reach nobody |
| MemoryMap.P2FullEffect | src/main.cpp:67-78 | a full P2 write sets both chips' CE and IO to bits 4, 5 and 7 of the value and clears both when bit 6 is set |
| MemoryMap.P2LowEffect | src/emulation/intel8049.cpp:286-301 | an expander operation on the low nibble keeps bits 4 to 7 and reaches neither chip |
| MemoryMap.ReadEffect | src/emulation/intel8049.cpp:473-486 | one MOVX read latches the address in both chips, delivers the selected chip's byte and moves nothing else |
| MemoryMap.StoreEffect | src/emulation/intel8049.cpp:545-556 | one MOVX write stores in every selected chip; an unselected chip changes only its latch |
| MemoryMap.StoredContent | src/emulation/intel8155.cpp:168-217 | a stored byte lands in the addressed cell and in no other |
| MemoryMap.BusRefinesMap | src/main.cpp:63-81 | over any run of MOVX and port writes after a reset, from any board, CE and IO equal the P2 bits and every cell of either chip holds the byte the history last wrote to it |
| MemoryMap.ReadsLastWritten | src/emulation/intel8049.cpp:473-486 | a MOVX read at the end of any run delivers the last byte written to (chip, cell), the command register reads 0, with no chip selected the address comes back |
| MemoryMap.StoreThenRead | src/emulation/intel8049.cpp:473-556 | a store survives any later operations that neither store to its cell nor reset, however the chips are switched between |
| BusRuns.ProgramsSeeByteMap | src/emulation/intel8049.cpp:473-556 | for every program and every use of keys and switches: in any run from a reset both chips hold what the bus history says |
| BusRuns.MovxReadsLastWritten | src/emulation/intel8049.cpp:473-486 | for every program and every use of keys and switches: MOVX A,@R leaves in A the byte last written to the addressed cell |
| BusRuns.StepFollows | src/emulation/intel8049.cpp:58-869 | an instruction, with what the panel does meanwhile, changes the board only through the bus operations it performs, in order |
| PanelRuns.MovdStep | src/emulation/intel8049.cpp:115-129 | MOVD A,Pp leaves in A the keys of the row that port C of the main chip selects |
| PanelRuns.KeysSeen | src/ui/panel/panelwindow.cpp:112-135 | for every program and every user: in any run from a reset a key scan reads the keys held in the row that is the lowest 0 of the byte the program last wrote to port C |
| PanelRuns.SwitchesSeen | src/ui/panel/panelwindow.cpp:137-156 | for every program and every user: from a reset on P1 shows the switches whatever the program writes to it, and IN A,P1 reads them |
| BusRuns.ResetBoard | src/emulation/intel8049.cpp:49-51 | a processor reset leaves the board in the state the map starts from |
| Cpu.Decode | src/emulation/intel8049.cpp:62-864 | every opcode yields an instruction whose register, bit and port numbers exist |
| InstructionSet.MovSource | src/emulation/intel8049.cpp:797-802 | 0x23, 0xF0-0xF1, 0xF8-0xFF: A takes the second byte, the cell a register points at, or a register; nothing else changes |
| InstructionSet.AddSource | src/emulation/intel8049.cpp:73-79 | 0x03, 0x13, 0x60-0x61, 0x68-0x71, 0x78-0x7F: A + 256 CY is the exact sum, with CY added by ADDC alone; AC is the carry out of bit 3, the rest of the PSW stays |
| InstructionSet.OrSource | src/emulation/intel8049.cpp:303-307 | 0x40-0x41, 0x43, 0x48-0x4F: a bit of A is 1 exactly when it was 1 in A or in the source |
| InstructionSet.AndSource | src/emulation/intel8049.cpp:353-357 | 0x50-0x51, 0x53, 0x58-0x5F: a bit of A is 1 exactly when it was 1 in A and in the source |
| InstructionSet.XorSource | src/emulation/intel8049.cpp:721-726 | 0xD0-0xD1, 0xD3, 0xD8-0xDF: a bit of A is 1 exactly when A and the source differed in it |
| InstructionSet.Counting | src/emulation/intel8049.cpp:95-98 | 0x07, 0x17, 0x27, 0x37: A less or more 1 modulo 256, 0, and 255 - A, the flags untouched |
| InstructionSet.Moving | src/emulation/intel8049.cpp:339-344 | 0x47 exchanges the nibbles of A; 0x42 and 0xC7 copy T and the PSW to A |
| InstructionSet.Turning | src/emulation/intel8049.cpp:777-780 | 0xE7 and 0x77 turn the eight bits of A by one place, the one undoing the other |
| InstructionSet.TurningThroughCarry | src/emulation/intel8049.cpp:820-828 | 0xF7: 256 CY' + A' = 2 A + CY; 0x67: 2 A' + CY' = A + 256 CY; the rest of the PSW stays |
| InstructionSet.Adjusting | src/emulation/intel8049.cpp:385-396 | 0x57 for every A and PSW: which digits get 6 added, that the low digit's carry reaches the high digit, and that CY is the carry of the second addition alone |
| InstructionSet.SettingPsw | src/emulation/intel8049.cpp:495-498 | 0x97, 0xA7, 0x85, 0x95, 0xC5, 0xD5: clears, flips or sets CY, F0 or the bank bit, every other bit of the PSW kept |
| InstructionSet.SettingOthers | src/emulation/intel8049.cpp:635-643 | 0xA5, 0xB5, 0xE5, 0xF5, 0xD7: F1, the memory bank and the PSW as a whole |
| InstructionSet.CountingRegister | src/emulation/intel8049.cpp:192-197 | 0x18-0x1F and 0xC8-0xCF: the register of the selected bank counts by 1 modulo 256, no other cell changes |
| InstructionSet.LoadingRegister | src/emulation/intel8049.cpp:645-649 | 0xA8-0xAF and 0xB8-0xBF: the register takes A or the second byte |
| InstructionSet.ExchangingRegister | src/emulation/intel8049.cpp:236-243 | 0x28-0x2F exchange A and the register |
| InstructionSet.CountingCell | src/emulation/intel8049.cpp:131-136 | 0x10-0x11: the cell R0 or R1 points at, taken modulo 128, counts by 1 |
| InstructionSet.StoringA | src/emulation/intel8049.cpp:620-625 | 0xA0-0xA1: that cell takes A |
| InstructionSet.StoringData | src/emulation/intel8049.cpp:651-658 | 0xB0-0xB1: the cell takes the second byte; the register is not masked and has to be below 128 |
| InstructionSet.ExchangingCell | src/emulation/intel8049.cpp:199-205 | 0x20-0x21 exchange A and the cell, again without mask |
| InstructionSet.ExchangingNibble | src/emulation/intel8049.cpp:245-252 | 0x30-0x31 exchange the low nibbles of A and the cell |
| InstructionSet.ReadingRom | src/emulation/intel8049.cpp:627-633 | 0xA3 reads the ROM on the page of the next instruction, 0xE3 on page 3 |
| InstructionSet.Jumping | src/emulation/intel8049.cpp:81-88 | 0x04, 0x24 to 0xE4: the target is made of three opcode bits, the second byte and the memory bank |
| InstructionSet.Calling | src/emulation/intel8049.cpp:160-168 | 0x14, 0x34 to 0xF4: the same target, the return address and the upper half of the PSW in two cells, SP one further |
| InstructionSet.Returning | src/emulation/intel8049.cpp:488-493 | 0x83 and 0x93: PC from the two cells below SP, SP one back; only 0x93 takes the upper half of the PSW and ends the handler |
| InstructionSet.JumpingOnBit | src/emulation/intel8049.cpp:138-149 | 0x12, 0x32 to 0xF2 jump exactly when bit b of A is 1 |
| InstructionSet.JumpingOnFlags | src/emulation/intel8049.cpp:570-579 | 0xC6 jumps exactly when A is 0, 0x96 when it is not; 0xF6 and 0xE6 by CY, 0xB6 by F0, 0x76 by F1 |
| InstructionSet.JumpingOnPins | src/emulation/intel8049.cpp:261-270 | 0x36, 0x26, 0x56, 0x46 jump by T0 and T1, 0x86 while the interrupt pin is high |
| InstructionSet.JumpingOnTimer | src/emulation/intel8049.cpp:175-185 | 0x16 jumps exactly when the flag was set or this instruction's own ticks overflow T, and clears it |
| InstructionSet.CountingLoop | src/emulation/intel8049.cpp:782-795 | 0xE8-0xEF: the register counts down and the jump is taken unless it was 1 |
| InstructionSet.JumpingIndirect | src/emulation/intel8049.cpp:660-665 | 0xB3: the second half of the target stands in the ROM on this page at A |
| InstructionSet.Enabling | src/emulation/intel8049.cpp:90-93 | 0x05, 0x15, 0x25, 0x35 each turn one interrupt enable on or off and leave the other and the timer; 0x35 forgets a request |
| InstructionSet.Starting | src/emulation/intel8049.cpp:322-326 | 0x45 starts the counter and stops the timer, 0x55 the other way round with a whole period of 32 cycles, 0x65 stops both |
| InstructionSet.LoadingTimer | src/emulation/intel8049.cpp:411-414 | 0x62 loads T with A |
| InstructionSet.Writing | src/emulation/intel8049.cpp:278-284 | 0x02 and 0x3A write A to BUS, 0x39 to P1, where the panel's switches answer |
| InstructionSet.ReadingPort | src/emulation/intel8049.cpp:107-113 | 0x08 and 0x0A read BUS, 0x09 P1 |
| InstructionSet.OrPort | src/emulation/intel8049.cpp:520-527 | 0x88-0x8A write to BUS, P1 or P2 the bits that are 1 there or in the second byte |
| InstructionSet.AndPort | src/emulation/intel8049.cpp:595-602 | 0x98-0x9A the bits that are 1 in both |
| InstructionSet.ReadingExpander | src/emulation/intel8049.cpp:115-129 | 0x0C-0x0F: the port number on the low half of P2, the panel's keys behind the pulse on PROG, and A takes that half |
| InstructionSet.WritingExpander | src/emulation/intel8049.cpp:604-618 | 0x3C-0x3F, 0x8C-0x8F, 0x9C-0x9F: the code 4, 8 or 12 plus the port number, the keys, then the low half of A |
| InstructionSet.MovingExternal | src/emulation/intel8049.cpp:473-486 | 0x80-0x81 and 0x90-0x91: one read or one store on the bus at the address in R0 or R1 |
| InstructionFrames.AllListed | src/emulation/intel8049.cpp:62-864 | for all 256 opcodes: length, cycles and kind of the decoded instruction are those of the lists of opcodes |
| InstructionFrames.GoingOn | src/emulation/intel8049.cpp:887-893 | every opcode that is no jump, call or return goes on 1 or 2 bytes further, by the list of two-byte opcodes |
| InstructionFrames.LeavingAlone | src/emulation/intel8049.cpp:62-864 | no instruction touches the pins or the ROM; only eight opcodes touch the interrupt enables and the timer, only the port opcodes the board |
| InstructionFrames.Idling | src/emulation/intel8049.cpp:836-864 | NOP, ENT0 CLK and the 26 undefined opcodes change neither A, PSW nor RAM |
| InstructionFrames.Timing | src/emulation/intel8049.cpp:58-869 | an instruction takes two cycles exactly for the opcodes listed |
| InstructionFrames.StuckIff | src/emulation/intel8049.cpp:887-893 | for every machine: the step fails if and only if PC or the second byte leaves the ROM, an unmasked register points beyond the RAM, a table lies beyond the ROM, or a key scan selects row 6 or 7 |
| InstructionFrames.StepIs | src/emulation/intel8049.cpp:962-978 | the step is the instruction's effect, then an interrupt entry at 3 or 7 exactly when one is enabled, requested and none is served, then the user's switches |
| InstructionFrames.ResetIs | src/emulation/intel8049.cpp:29-56 | every field of the processor after a reset |
| Processor.Intel8049.constructor | src/emulation/intel8049.h:84-89 | the processor as built and reset by main(), with the ports driven |
| Processor.Intel8049.Fetch | src/emulation/intel8049.cpp:887-893 | fails exactly beyond the ROM; otherwise the byte at PC and PC advanced |
| Processor.Intel8049.DoTick | src/emulation/intel8049.cpp:919-928 | one cycle of the prescaled timer, the tick law of `TimerRuns` |
| Processor.Intel8049.CountUp | src/emulation/intel8049.cpp:913-917 | T wraps, and only an overflow sets the flag and the request |
| Processor.Intel8049.PushPc | src/emulation/intel8049.cpp:895-900 | the push that `CallStack.PushRefines` shows to be a LIFO push |
| Processor.Intel8049.PopPc | src/emulation/intel8049.cpp:902-911 | the pop that `CallStack.PopRefines` shows to be a LIFO pop |
| Processor.Intel8049.ServeInterrupts | src/emulation/intel8049.cpp:962-978 | the interrupt logic characterised by `Interrupts.HandleEntry` |
| Processor.Intel8049.WriteReg | src/emulation/intel8049.cpp:882-885 | exactly one RAM cell of the selected bank changes |
| Processor.Intel8049.AccAdd | src/emulation/intel8049.cpp:950-960 | the addition that `MultiByte.AddToAccExact` shows to be exact |
| Processor.Intel8049.DecimalAdjustAcc | src/emulation/intel8049.cpp:385-396 | the adjustment that `MultiByte.DecimalSumIff` shows to give the decimal sum exactly below a raw sum of 250 |
| Processor.Intel8049.ModifyAcc | src/emulation/intel8049.cpp:187-190 | the one-operand accumulator instructions on A and the PSW |
| Processor.Intel8049.ModifyFlags | src/emulation/intel8049.cpp:495-498 | flag, bank and memory-bank instructions and MOV PSW,A |
| Processor.Intel8049.LookUp | src/emulation/intel8049.cpp:627-633 | MOVP and MOVP3 read the ROM byte on the current page or page 3 and fail beyond the ROM |
| Processor.Intel8049.ModifyMemory | src/emulation/intel8049.cpp:651-658 | the indirect RAM instructions, failing exactly where an unmasked register points beyond the RAM |
| Processor.Intel8049.ApplyData | src/emulation/intel8049.cpp:62-864 | every data instruction does to the object what the step function does to the value |
| Processor.Intel8049.JumpIf | src/emulation/intel8049.cpp:175-185 | the conditional jumps; JTF clears the timer flag when it jumps |
| Processor.Intel8049.ApplyFlow | src/emulation/intel8049.cpp:160-168 | calls, returns and jumps on the object equal the step function |
| Processor.Intel8049.ApplyControl | src/emulation/intel8049.cpp:367-372 | timer and interrupt-enable instructions; DIS TCNTI drops a pending request |
| Processor.Intel8049.ReadExternal | src/emulation/intel8049.cpp:473-486 | the pin sequence of MOVX A,@R performed on the wired chips |
| Processor.Intel8049.WriteExternal | src/emulation/intel8049.cpp:545-556 | the pin sequence of MOVX @R,A performed on the wired chips |
| Processor.Intel8049.Strobe | src/emulation/intel8049.cpp:120-127 | the address on P2 and the pulse on PROG, with the keys the panel puts on P2 in between; fails exactly for the rows 6 and 7 |
| Processor.Intel8049.ApplyPort | src/emulation/intel8049.cpp:278-301 | every port and expander instruction on the object, with what the panel writes in the course of it, equals the step function, the board included |
| Processor.Intel8049.ExecuteSingleInstr | src/emulation/intel8049.cpp:58-869 | one instruction of the object, the panel's writes within it included, is one `Cpu.Step` of the value, with its cycle count; false exactly where the source aborts or leaves a vector or the key matrix |
| Processor.Intel8049.Execute | src/emulation/intel8049.cpp:871-875 | terminates for every budget; a positive budget of n spends n or n + 1 cycles, a non-positive one changes nothing |
| Processor.Intel8049.ResetCpu | src/emulation/intel8049.cpp:29-56 | the reset state and the driven ports; T and the ROM survive |
| Processor.Intel8049.InitFromState | src/emulation/intel8049.h:91-107 | every field becomes the loaded one, the ports are not touched |
| CpuFrames.ExecFrame | src/emulation/intel8049.cpp:62-864 | which state each class of instruction can change at all |
| CpuFrames.PreparedFrame | src/emulation/intel8049.cpp:58-62 | fetching and ticking leave everything but PC and the timer alone |
| TimerRuns.StepTicks | src/emulation/intel8049.cpp:58-869 | the returned cycle count equals the number of ticks, for every instruction |
| TimerRuns.StepPhase | src/emulation/intel8049.cpp:919-928 | one instruction advances a running, untouched timer by exactly its own cycles |
| TimerRuns.RunPrescaled | src/emulation/intel8049.cpp:919-928 | in every machine a run of instructions reaches a running timer is 1 to 32 cycles from its next count |
| TimerRuns.ResetPrescaled | src/emulation/intel8049.cpp:29-56 | runs from a reset satisfy the start condition of the timer laws |
| TimerRuns.TimerConservation | src/emulation/intel8049.cpp:913-928 | over any run without T writes, starts or stops, 32 * (256 * overflows + T) + (32 - prescaler) grows by exactly the ticks |
| TimerRuns.RequestAccounting | src/emulation/intel8049.cpp:913-978 | over any run every overflow is an entry at vector 7, still pending, merged into a pending request, or dropped by DIS TCNTI |
| TimerRuns.StepDropped | src/emulation/intel8049.cpp:254-259 | only DIS TCNTI ever drops a request |
| TimerRuns.NothingDropped | src/emulation/intel8049.cpp:254-259 | a run without DIS TCNTI loses no timer request |
| Interrupts.HandleEntry | src/emulation/intel8049.cpp:962-978 | an interrupt is taken if and only if one is due and none is being served; external wins; only a timer entry consumes the request |
| Interrupts.StepFlag | src/emulation/intel8049.cpp:558-563 | the in-interrupt flip-flop over one instruction: RETR clears it before interrupts are looked at |
| Interrupts.EntriesSeparated | src/emulation/intel8049.cpp:962-978 | between two vector entries of any run of instructions there is a RETR |
| CallStack.PushRefines | src/emulation/intel8049.cpp:895-900 | the RAM push refines a LIFO of at most eight frames, the ninth forgetting the oldest |
| CallStack.PopRefines | src/emulation/intel8049.cpp:902-911 | the pop takes the newest frame; RETR restores its PSW half, RET keeps the current one |
| CallStack.DataStack | src/emulation/intel8049.cpp:877-885 | no data instruction that does not aim at cells 8 to 23 or SP disturbs a frame, in either register bank |
| CallStack.StackRefines | src/emulation/intel8049.cpp:877-911 | over any run of calls, returns, interrupt entries and other instructions the RAM holds the abstract stack |
| CallStack.ReturnsToTop | src/emulation/intel8049.cpp:488-493 | a return at the end of any such run goes to the newest frame not yet returned from |
| Handlers.BottomStays | src/emulation/intel8049.cpp:895-911 | while nesting stays within the eight slots the first frame stays at the bottom |
| Handlers.RunSp | src/emulation/intel8049.cpp:895-911 | over any run SP counts the net pushes modulo eight |
| Handlers.HandlerTransparent | src/emulation/intel8049.cpp:558-563 | a balanced handler of any length returns by RETR with the interrupted PC, PSW upper half and SP |
| Handlers.SmallestHandler | src/emulation/intel8049.cpp:962-978 | with /INT low behind a NOP and a lone RETR at vector 3 the handler runs and execution resumes behind the NOP |
| MultiByte.AddToAccExact | src/emulation/intel8049.cpp:950-960 | A and CY hold the exact sum, AC the carry out of bit 3, the rest of the PSW is unchanged |
| MultiByte.ChainExact | src/emulation/intel8049.cpp:151-158 | chained ADDC over byte strings of any length is exact addition with carry in and carry out |
| MultiByte.AddStep | src/emulation/intel8049.cpp:950-960 | one processor step through ADD or ADDC, an interrupt entry behind it included, leaves the exact sum in A and the flags; the RAM changes only by that entry |
| MultiByte.StepCarry | src/emulation/intel8049.cpp:58-869 | no instruction but ADD, ADDC, DA, RLC, RRC, CLR C, CPL C, MOV PSW,A and RETR changes CY |
| MultiByte.AddcRunExact | src/emulation/intel8049.cpp:151-158 | any run of the processor that takes two numbers of any length through ADDC, touching CY nowhere in between, has added them exactly |
| MultiByte.DecimalSumIff | src/emulation/intel8049.cpp:385-396 | for packed decimal operands and any carry, addition and DA A leave the decimal sum in A and CY if and only if the raw sum is below 250 |
| MultiByte.DecimalSumFails | src/emulation/intel8049.cpp:385-396 | 99 + 99 gives 98 and 99 + 61 gives 00, both without CY |
| MultiByte.DecimalSteps | src/emulation/intel8049.cpp:385-396 | the same for two consecutive steps of the processor |
| AssemblerObject.Assembler.constructor | src/assembler.cpp:28-63 | empty tables over the given lines |
| AssemblerObject.Assembler.AddTheLabel | src/assembler.cpp:99-109 | label defined, duplicates reported, every waiting word patched in its low byte and the waiting list removed |
| AssemblerObject.Assembler.PatchWords | src/assembler.cpp:105-107 | exactly the listed words change, in the low byte; records an index outside the memory |
| AssemblerObject.Assembler.AddPendingReference | src/assembler.cpp:111-115 | the address joins the end of the name's list |
| AssemblerObject.Assembler.CheckParamSize | src/assembler.cpp:203-209 | an error is recorded if and only if the count differs |
| AssemblerObject.Assembler.ParseOperand | src/assembler.cpp:219-255 | numbers in range, '?', constants, labels, in that order; otherwise a forward reference at the current address |
| AssemblerObject.Assembler.OrgHandler | src/assembler.cpp:257-263 | address and memory size follow the operand |
| AssemblerObject.Assembler.DataHandler | src/assembler.cpp:265-271 | one word per parameter, left to right |
| AssemblerObject.Assembler.EquHandler | src/assembler.cpp:273-284 | a constant may be defined once |
| AssemblerObject.Assembler.RawHandler | src/assembler.cpp:286-303 | valid raw values placed, others reported and skipped |
| AssemblerObject.Assembler.NullHandler | src/assembler.cpp:305-311 | a word is placed even when superfluous parameters are reported |
| AssemblerObject.Assembler.OperandHandler | src/assembler.cpp:313-330 | one word with the operand in the low byte, nothing on a wrong count |
| AssemblerObject.Assembler.OptConstHandler | src/assembler.cpp:332-342 | the operand is optional |
| AssemblerObject.Assembler.HandleLine | src/assembler.cpp:153-193 | the label is defined before the operation is looked at; unknown mnemonics are reported |
| AssemblerObject.Assembler.Assemble | src/assembler.cpp:66-87 | the tables after all lines, exactly one error per unresolved name, and no error if and only if the program is accepted |
| AssemblerObject.Assembler.Code | src/assembler.cpp:89-97 | big-endian words, zeros elsewhere, two chips' worth beyond 127 words |
| Mnemonics.OneOperandLine | src/assembler.cpp:37-55 | VZG 3, AKO 4, LDA 5, ABS 6, ADD 7, SUB 8, SPU 9, VGL 10, SPB 11, VGR 12, VKL 13, UND 15, LIA 19, AIS 20, SIU 21: with one parameter the word 256 * code + operand, with any other number an error and no word |
| Mnemonics.NoOperandLine | src/assembler.cpp:35-36 | HLT 1, ANZ 2, NEG 14: the word 256 * code, with an error when there are parameters |
| Mnemonics.OptionalLine | src/assembler.cpp:50-58 | P1E 16, P1A 17, P2A 18, P3E 22, P4A 23, P5A 24: the operand may be left out |
| Mnemonics.OrgLine | src/assembler.cpp:257-263 | .ORG n: address n and n words of memory, cut off or filled with zeros |
| Mnemonics.DbLine | src/assembler.cpp:265-271 | .DB places its parameters one by one, '?' as 0 |
| Mnemonics.RawLine | src/assembler.cpp:286-303 | .RAW places 256 * first + second for each pair below 256 and reports the others |
| Mnemonics.EquLine | src/assembler.cpp:273-284 | .EQU takes two parameters and defines a name that is no constant yet |
| Mnemonics.UnknownLine | src/assembler.cpp:185-193 | these 28 names are known and no others |
| Mnemonics.UnknownAlways | src/assembler.cpp:185-193 | an unknown name is reported whatever its parameters |
| Mnemonics.LabelledLine | src/assembler.cpp:99-109 | a label is defined first: duplicates reported, waiting words patched in the low byte, the waiting list gone |
| TwoPass.LabelSimulates | src/assembler.cpp:99-109 | back-patching on definition is the same as looking the label up afterwards, except in the words it leaves wrong |
| TwoPass.ParseSimulates | src/assembler.cpp:219-255 | a parsed operand and its patch entry stand for the symbolic operand |
| TwoPass.RunSimulates | src/assembler.cpp:66-193 | after every line of any program the two-pass assembler can lay out, memory, tables and lists stand for the symbolic layout, with a wrong operand exactly in the damaged words |
| TwoPass.OnePassIsTwoPass | src/assembler.cpp:66-342 | for every program: accepted with every .ORG and .EQU operand known at its line if and only if the two-pass assembler accepts it and nothing is left waiting; and then all words are equal if and only if no operand is damaged |
| TwoPass.LeftWaiting | src/assembler.cpp:78-82 | a reference left waiting in a program the two-pass assembler accepts belongs to no word any more, and is still reported |
| TwoPass.WildIff | src/assembler.cpp:99-109 | for every program: a patch goes outside the memory if and only if some label is defined while its list holds an index not below the memory size |
| TwoPass.OwnPatchesHarmless | src/assembler.cpp:104-107 | when every patched word exists and refers to the label, nothing is damaged and no patch leaves the memory |
| TwoPass.StrayPatch | src/assembler.cpp:104-107 | otherwise the patch goes outside the memory or gives a word that does not refer to the label the label's address for an operand |
| TwoPass.GuardedIsTwoPass | src/assembler.cpp:66-342 | under that guard an accepted program with known operands has the words of the two-pass assembler |
| TwoPass.NothingCutOwns | src/assembler.cpp:257-263 | the guard holds in every program in which no .ORG cuts off a waiting word |
| AssemblerFacts.BooksAlways | src/assembler.cpp:83-116 | after every line of any program, faulty ones included, memory size equals the address and no name is both defined and waiting |
| AssemblerFacts.ForwardCutsNothing | src/assembler.cpp:246-271 | without backward .ORG every waiting index stays below the address, so no waiting word is cut off |
| AssemblerFacts.ForwardIsTwoPass | src/assembler.cpp:66-342 | so an accepted program with known operands and without backward .ORG has the words of the two-pass assembler |
| AssemblerFacts.UnknownEquCorrupts | src/assembler.cpp:273-284 | an accepted program whose word is overwritten because of an unknown .EQU operand |
| AssemblerFacts.UnknownOrgCorrupts | src/assembler.cpp:257-263 | an accepted program whose word is overwritten because of an unknown .ORG operand |
| AssemblerFacts.BackwardOrgWritesWild | src/assembler.cpp:99-109 | an accepted program whose patch goes outside the memory after a backward .ORG |
| AssemblerFacts.BackwardOrgCorrupts | src/assembler.cpp:99-109 | an accepted program whose patch stays inside the memory and makes LDA 7 an LDA 1 |
| AssemblerFacts.BackwardOrgReused | src/assembler.cpp:99-109 | an accepted program that cuts off a waiting word and is assembled correctly all the same |
| AssemblerFacts.BackwardOrgRefused | src/assembler.cpp:78-82 | a program refused for a label to which no word refers |
| AssemblerFacts.Upload | src/ui/assembler/assemblerwindow.cpp:134-148 | the two chips' RAMs receive the two halves of the image |
| AssemblerFacts.OnAssembleClicked | src/ui/assembler/assemblerwindow.cpp:121-152 | for every source: errors and untouched chips exactly when it is not accepted; otherwise place i of the chips holds word i of the program, zero beyond it, and a program of at most 127 words leaves the extension alone; under the guard of the patch and with known operands these are the words of the two-pass assembler |
| AssemblerFacts.WordPlacement | src/assembler.cpp:89-97 | word i lies on chip i / 128 at address 2 * (i mod 128) and decodes to itself; beyond the words there are zeros |
| Disassembly.Disassembler.Switch | src/util/disassembler.cpp:62-551 | for all 256 opcodes the listed mnemonic, arguments and length are those of the processor's decoder |
| Listing.Combining | src/util/disassembler.cpp:71-74 | ADD, ADDC, ORL, ANL, XRL and MOV to A with a register, a cell or a constant, for all their opcodes |
| Listing.Registers | src/util/disassembler.cpp:139-142 | INC, DEC, MOV, XCH and DJNZ on registers |
| Listing.Cells | src/util/disassembler.cpp:103-106 | INC, XCH, XCHD, MOV and MOVX on cells |
| Listing.Accumulator | src/util/disassembler.cpp:85-87 | DEC, INC, CLR, CPL, SWAP and DA |
| Listing.Rotations | src/util/disassembler.cpp:277-279 | RRC, RR, RL and RLC |
| Listing.Flags | src/util/disassembler.cpp:319-321 | CLR and CPL on C, F0 and F1 |
| Listing.Banks | src/util/disassembler.cpp:432-434 | SEL RB0, RB1, MB0, MB1 |
| Listing.WholePsw | src/util/disassembler.cpp:442-444 | MOV A,PSW and MOV PSW,A |
| Listing.Controls | src/util/disassembler.cpp:81-83 | EN, DIS, STRT and STOP |
| Listing.PinJumps | src/util/disassembler.cpp:158-162 | JTF, JT0, JNT0, JT1, JNT1 and JNI |
| Listing.CarryJumps | src/util/disassembler.cpp:358-362 | JNZ, JZ, JNC and JC |
| Listing.FlagJumps | src/util/disassembler.cpp:420-424 | JF0 and JF1 |
| Listing.Tables | src/util/disassembler.cpp:389-391 | RET, RETR, JMPP, MOVP and MOVP3 |
| Listing.FarJumps | src/util/disassembler.cpp:76-79 | JMP, CALL and JBb with the three bits of the opcode |
| Listing.Ports | src/util/disassembler.cpp:93-96 | OUTL, INS, IN, ORL and ANL on ports |
| Listing.Expander | src/util/disassembler.cpp:98-101 | MOVD, ORLD and ANLD on ports 4 to 7 |
| Listing.Others | src/util/disassembler.cpp:523-551 | NOP, ENT0, the moves between A and T, and DB for each undefined opcode |
| Disassembly.Disassembler.Disassemble | src/util/disassembler.cpp:51-554 | for ROMs of any size, succeeds exactly when the sweep stays inside the ROM and its 16-bit position does not wrap, and lists what the processor would fetch |
| Disassembly.Disassembler.DisassembleAll | src/util/disassembler.cpp:47-49 | for ROMs of any size, the listing of the first bytes that the 16-bit size leaves: below 65536 bytes exactly the ROM's bytes without gaps, at 65536 bytes nothing |
| Disassembly.SweepPartitions | src/util/disassembler.cpp:54-554 | lines are contiguous and their bytes are the ROM's bytes, nothing skipped or repeated |
| Disassembly.WholeRomListed | src/util/disassembler.cpp:47-49 | a ROM whose sweep ends on its last byte is listed completely |
| Disassembly.LengthIsFetchCount | src/emulation/intel8049.cpp:58-62 | a line's length is the number of bytes the processor fetches |
| Disassembly.NearTargetAgrees | src/util/disassembler.cpp:108-113 | listed and executed jump targets agree if and only if the opcode is not the last byte of a page |
| Disassembly.FarTargetAgrees | src/emulation/intel8049.cpp:81-88 | listed and executed JMP and CALL targets agree if and only if the memory bank contributes nothing |
| Disassembly.PortsAgree | src/emulation/intel8049.cpp:107-113 | both decoders name the same port except for two opcodes |
| ExecutorObject.ExecutorThread.constructor | src/executorthread.cpp:37-42 | stopped, with an empty queue and no breakpoints |
| ExecutorObject.ExecutorThread.PostCommand | src/executorthread.cpp:104-108 | the post event of the model |
| ExecutorObject.ExecutorThread.FetchCommand | src/executorthread.cpp:205-221 | the oldest command whether running or not; none only when running with an empty queue |
| ExecutorObject.ExecutorThread.DoExecuteInstr | src/executorthread.cpp:223-239 | one processor step, stopping at a breakpoint or before MOVX |
| ExecutorObject.ExecutorThread.DoStartExecution | src/executorthread.cpp:181-187 | starting twice does not reset the interrupt count |
| ExecutorObject.ExecutorThread.DoReset | src/executorthread.cpp:196-203 | stops and resets the processor and both chips |
| ExecutorObject.ExecutorThread.DoLoadState | src/executorthread.cpp:158-163 | machine replaced but for the port latches, then the caller released |
| ExecutorObject.ExecutorThread.DoSaveState | src/executorthread.cpp:164-169 | the caller released with the machine's state, nothing else changed |
| ExecutorObject.ExecutorThread.RunFreely | src/executorthread.cpp:114-134 | a free-running instruction, counting interrupt entries modulo two |
| ExecutorObject.ExecutorThread.Perform | src/executorthread.cpp:135-171 | every command does to the object what the model's event does |
| ExecutorObject.ExecutorThread.RunOnce | src/executorthread.cpp:110-174 | one turn of the loop is the turn event of the model |
| ExecutorModel.FirstInFirstOut | src/executorthread.cpp:104-108 | for every interleaving the processed commands followed by the queued ones are the posted ones in order: none lost, repeated or reordered |
| ExecutorModel.StoppedIsStill | src/executorthread.cpp:176-194 | a stopped worker runs an instruction only for SINGLE_STEP, and only START makes it run |
| ExecutorModel.TurnReleases | src/executorthread.cpp:158-169 | a caller is released in the turn that processes its command, with no instruction in between |
| ExecutorModel.ReleasedExactlyOnce | src/executorthread.cpp:82-102 | for every interleaving a saving or loading caller is released exactly once if its command was processed, and not at all otherwise |
| ExecutorModel.ReleasedAtAMoment | src/executorthread.cpp:92-102 | the released state is the machine's state at a moment between two instructions |
| ExecutorModel.ProcessedWithin | src/executorthread.cpp:205-221 | with k commands ahead and no QUIT among them, a command is processed within k + 1 turns, whatever is posted meanwhile |
| ExecutorModel.CallerReleasedWithin | src/executorthread.cpp:82-102 | so a waiting caller is released within k + 1 turns |
| ExecutorModel.FreeRunClears | src/executorthread.cpp:223-239 | after a free-running instruction the worker is still running only away from every breakpoint |
| ExecutorModel.BreakpointSafety | src/executorthread.cpp:110-134 | in one running stretch without ADD_BP and LOAD_STATE only the first free-running instruction can begin at a breakpoint, over any interleaving |
| Breakpoints.CommandSets | src/executorthread.cpp:149-157 | ADD_BP, REMOVE_BP and BREAK_ON_MOVX change their setting and nothing else does |
| Breakpoints.CommandRuns | src/executorthread.cpp:176-203 | START leaves the worker running; STOP, RESET and SINGLE_STEP leave it stopped; only QUIT ends it in order |
| Breakpoints.CommandMachine | src/executorthread.cpp:135-171 | SINGLE_STEP runs one instruction, LOAD_STATE exchanges processor and chips, RESET resets the three; no other command touches the machine |
| Breakpoints.CommandReleases | src/executorthread.cpp:158-169 | SAVE_STATE releases its caller with processor and chips as they are, LOAD_STATE with its state, no other command anybody |
| Breakpoints.ResetBoardIs | src/emulation/intel8049.cpp:49-51 | the board after a processor reset: BUS 0, P2 all ones, both chips cleared and deselected, the switches on P1 |
| Breakpoints.SettingsFollow | src/executorthread.cpp:149-157 | over any interleaving an address is a breakpoint if and only if the last ADD_BP or REMOVE_BP of it processed is an ADD_BP, and the MOVX switch is the last one processed |
| Breakpoints.FreeTurn | src/executorthread.cpp:110-134 | one free-running turn: when it ends the worker, its machine, whether it goes on running, and the count of interrupt entries |
| Breakpoints.MovxOpcodes | src/executorthread.cpp:226-232 | the four opcodes looked for are exactly those that decode to MOVX |
| Breakpoints.StopsExactly | src/executorthread.cpp:223-239 | over any interleaving, after a free-running instruction the worker goes on running if and only if PC is no address added last and, with the switch on, no MOVX comes next |
| ExecutorLaws.AlwaysPrescaled | src/executorthread.cpp:110-174 | in every state the executor reaches, through any posts, resets and loads of prescaled states, a running timer is 1 to 32 cycles from its next count |
| ExecutorLaws.StaysInHandler | src/emulation/intel8049.cpp:962-978 | inside a handler no turn enters a vector, and only one that runs RETR, resets or loads a state leaves it |
| ExecutorLaws.EntriesApart | src/executorthread.cpp:110-174 | in every history of the executor a RETR, a reset or a loaded state lies between two vector entries |
| SaveStreams.OutStream.WriteU16 | src/emulation/emulatorstate.cpp:39-42 | low byte first |
| SaveStreams.OutStream.WriteU8v | src/emulation/emulatorstate.cpp:44-53 | refuses vectors over 65535 bytes with nothing written, else length and bytes |
| SaveStreams.OutStream.WriteCpu | src/emulation/emulatorstate.cpp:75-101 | the bytes that `SaveFile.CpuBack` inverts; stopped by a vector that is too long, exactly the bytes before it |
| SaveStreams.OutStream.WritePid | src/emulation/emulatorstate.cpp:103-125 | the bytes that `SaveFile.PidBack` inverts; stopped by RAM that is too long, exactly the bytes before it |
| SaveStreams.OutStream.WriteState | src/emulation/emulatorstate.cpp:127-130 | processor, chip, extension chip; fails exactly when a vector is too long |
| SaveStreams.OutStream.WriteHeader | src/ui/basewindow.cpp:36-43 | the six header bytes |
| SaveStreams.OutStream.Save | src/ui/basewindow.cpp:152-153 | header and state behind what is there, succeeding exactly when every vector fits; otherwise the header and the bytes before the vector that does not |
| SaveStreams.InStream.Get | src/emulation/emulatorstate.cpp:55-57 | 255 and a sticky fail bit at the end of the data |
| SaveStreams.InStream.ReadU16 | src/emulation/emulatorstate.cpp:59-63 | low byte first |
| SaveStreams.InStream.ReadU8v | src/emulation/emulatorstate.cpp:65-73 | as many bytes as the length says, failed reads included |
| SaveStreams.InStream.ReadCpu | src/emulation/emulatorstate.cpp:132-158 | parses the fields in order into the state the parser function gives |
| SaveStreams.InStream.ReadPid | src/emulation/emulatorstate.cpp:160-183 | parses the fields in order into the state the parser function gives |
| SaveStreams.InStream.ReadState | src/emulation/emulatorstate.cpp:185-188 | processor, chip, extension chip |
| SaveStreams.InStream.ReadHeader | src/ui/basewindow.cpp:45-59 | accepts if and only if the six bytes are there and are the header |
| SaveStreams.HeaderMatches | src/ui/basewindow.cpp:52-58 | the comparison of the assembled magic and version holds for one byte string only |
| SaveStreams.InStream.Load | src/ui/basewindow.cpp:123-132 | a state results if and only if the header is right and the stream is still good at the end |
| FileLayout.Layout | src/emulation/emulatorstate.cpp:75-130 | for every state: the six header bytes, T at 11, A at 12, PC at 13 and 14 and every other field at its place, a length and the bytes for each memory, the chips behind the processor's memories, and nothing more |
| FileLayout.EmulatorLayout | src/emulation/emulatorstate.cpp:75-130 | the same for the emulator's own states, whose chips stand at 156 and 428 plus the ROM's size |
| FileLayout.Reading | src/emulation/emulatorstate.cpp:132-188 | for all accepted data, whoever wrote it: every field is read from that place, any byte but 0 as true |
| FileLayout.StoredIs | src/emulation/intel8049.h:109-129 | saving keeps every field under its name |
| FileLayout.RestoredIs | src/emulation/intel8049.h:91-107 | loading keeps every field under its name |
| FileLayout.CpuRefused | src/emulation/emulatorstate.cpp:44-53 | what a processor with a vector that is too long leaves in the file |
| FileLayout.PidRefused | src/emulation/emulatorstate.cpp:44-53 | the same for a chip |
| SaveFile.CpuBack | src/emulation/emulatorstate.cpp:132-158 | parsing undoes printing for every processor state, wherever it stands in the stream |
| SaveFile.PidBack | src/emulation/emulatorstate.cpp:160-183 | parsing undoes printing for every chip state |
| SaveFile.FileRoundTrip | src/emulation/emulatorstate.cpp:35-188 | a saved file with any suffix decodes to the saved state and consumes exactly its own bytes, for all memories up to 65535 bytes |
| SaveFile.FileLonger | src/emulation/emulatorstate.cpp:185-188 | appending data to an accepted file changes neither the state nor the consumption |
| SaveFile.PrefixRejected | src/ui/basewindow.cpp:123-132 | every strict prefix of a saved file is rejected |
| SaveFile.AcceptedFits | src/ui/basewindow.cpp:123-132 | whatever is accepted starts with the header and can be saved again |
| SaveFile.FileDetermines | src/emulation/emulatorstate.cpp:75-130 | two emulator states with the same file are equal |
| SaveFile.SaveThenLoad | src/emulation/intel8049.h:91-129 | saving in one executor, writing the file, reading it back whatever follows it, and loading it in the same or another executor revives the machine, up to the port latches, which keep their values; it is the saved machine if and only if they agree |
| BigInts.BigInt.Assign | deps/fmt/include/fmt/format.h:2759-2769 | the value, with no superfluous top bigit |
| BigInts.BigInt.Multiply32 | deps/fmt/include/fmt/format.h:2727-2736 | the bigits `BigArith.MulAddValue` shows to denote the product, no carry overflowing |
| BigInts.BigInt.MultiplyWide | deps/fmt/include/fmt/format.h:2738-2757 | the same bigits in both instantiations, although the 64-bit or 128-bit factor is split in halves and every step wraps modulo 2^64 or 2^128 |
| BigInts.BigInt.TimesSmall | deps/fmt/include/fmt/format.h:2810-2814 | the value times the operand |
| BigInts.BigInt.TimesWide | deps/fmt/include/fmt/format.h:2810-2814 | the value times the 64-bit or 128-bit operand |
| BigInts.BigInt.ShiftLeft | deps/fmt/include/fmt/format.h:2795-2808 | the value times 2^shift, the exponent taking the whole bigits |
| BigInts.BigInt.RemoveLeadingZeros | deps/fmt/include/fmt/format.h:2708-2712 | same value, no superfluous top bigit |
| BigInts.BigInt.Align | deps/fmt/include/fmt/format.h:2897-2908 | same value, exponent not above the other's |
| BigInts.BigInt.Square | deps/fmt/include/fmt/format.h:2869-2895 | the exact square for any number of bigits, the final carry being zero |
| BigInts.BigInt.AddCrossProducts | deps/fmt/include/fmt/format.h:2878-2889 | the sum of the cross products of one weight, below 2^128 |
| BigInts.BigInt.AssignPow10 | deps/fmt/include/fmt/format.h:2851-2867 | exactly 10^e for every e, by squaring and multiplying along the bits of e |
| BigInts.BigInt.Compare | deps/fmt/include/fmt/format.h:2816-2829 | the sign of the difference of the values, but for equal values the sign of the difference of the exponents, and a zero with more bigits and zeros counts as larger |
| BigInts.BigInt.AddCompare | deps/fmt/include/fmt/format.h:2831-2849 | the exact sign of lhs1 + lhs2 - rhs for any lengths and exponents despite the early exits |
| BigInts.BigInt.SubtractBigits | deps/fmt/include/fmt/format.h:2702-2706 | the bigit difference and the borrow out of 64-bit wrap-around |
| BigInts.BigInt.SubtractAligned | deps/fmt/include/fmt/format.h:2714-2725 | the difference of the values; one extra bigit is enough for the borrow |
| BigInts.BigInt.DivmodAssign | deps/fmt/include/fmt/format.h:2912-2923 | floor quotient and remainder for quotients below 2^31, with the one exception stated exactly |
| BigArith.MulAddValue | deps/fmt/include/fmt/format.h:2727-2736 | one pass with carries computes s * v + carry for any length |
| BigLemmas.SumConvIsProduct | deps/fmt/include/fmt/format.h:2869-2895 | the cross products grouped by weight add up to the product |
| BigSteps.DecidedByHi | deps/fmt/include/fmt/format.h:2840-2847 | a difference of the upper parts that the lower parts cannot make up decides the comparison |
| BigSteps.Borrowed | deps/fmt/include/fmt/format.h:2718-2723 | after the loop nothing is borrowed, or the single bigit above pays for it |
| Rounding.Rounds | deps/fmt/include/fmt/format.h:3045-3047 | quotient, remainder and parity test give a value at most half a unit away, even on a tie |
| Rounding.OneRounding | deps/fmt/include/fmt/format.h:3045-3047 | and there is only one such value |
| Rounding.RoundRatio | deps/fmt/include/fmt/format.h:2999-3047 | rounding depends on the ratio only, not on how it is scaled |
| DragonSteps.NextDigit | deps/fmt/include/fmt/format.h:3040-3044 | one digit keeps numerator * 10^i = 10 * denominator * digits + remainder |
| DragonSteps.FinalDigit | deps/fmt/include/fmt/format.h:3045-3047 | the last digit with its rounding test is half-to-even rounding of the whole number |
| DragonSteps.CarryKeeps | deps/fmt/include/fmt/format.h:3051-3055 | moving an overflowed digit's carry left keeps the denoted number |
| Dragon.PropagateCarry | deps/fmt/include/fmt/format.h:3049-3063 | only digits remain and number and exponent denote the same; the digit added or exponent bumped exactly when the carry leaves the top digit |
| Dragon.LeadingDigits | deps/fmt/include/fmt/format.h:3040-3044 | all digits but the last, under the loop invariant above |
| Dragon.FixedDigits | deps/fmt/include/fmt/format.h:3039-3067 | the characters and the exponent denote numerator / denominator rounded half to even to the given digits; every character is a digit if and only if no division before the last is skipped |
| Dragon.NoDigits | deps/fmt/include/fmt/format.h:3030-3038 | with no digit left the one character is the half-to-even rounding of the fraction below one unit |
| Dragon.SetUp | deps/fmt/include/fmt/format.h:2939-2984 | numerator / denominator is the value, lower and upper its half gaps, and where the implicit zeros lie |
| Dragon.SetUpIntegral | deps/fmt/include/fmt/format.h:2950-2961 | numerator / denominator is the value, lower and upper are its half gaps |
| Dragon.SetUpTiny | deps/fmt/include/fmt/format.h:2962-2973 | the same for a negative decimal exponent |
| Dragon.SetUpFraction | deps/fmt/include/fmt/format.h:2974-2984 | the same for a negative binary exponent only |
| Dragon.PrintDigits | deps/fmt/include/fmt/format.h:3028-3067 | both digit branches print the value rounded at the unit of the last place |
| Dragon.FormatDragon | deps/fmt/include/fmt/format.h:2936-3067 | with a precision: in fixed notation the exponent is minus the precision and the characters denote f * 2^e rounded half to even at that place, in both branches; otherwise precision characters, rounded at the unit of the last; for every significand and exponent, with digits only if and only if no power of ten is skipped; without one, the decimal reads back and no shorter one does if and only if the call is not misjudged; the overflow error exactly when the adjusted precision exceeds int |
| ShortestSteps.GoOn | deps/fmt/include/fmt/format.h:3004-3026 | when the upper test fails one more digit keeps the loop invariant |
| ShortestSteps.NextShorter | deps/fmt/include/fmt/format.h:3004-3026 | and then a decimal of this length lies between the midpoints if and only if the lower test holds |
| ShortestSteps.Chosen | deps/fmt/include/fmt/format.h:3009-3020 | the digit rounded up or down lies between the midpoints if and only if the upper or lower test holds |
| ShortestSteps.Level | deps/fmt/include/fmt/format.h:3004-3020 | one turn of the loop, tests as compare() answers them, goes wrong if and only if its length is bad |
| ShortestSteps.Verdict | deps/fmt/include/fmt/format.h:3000-3027 | the decimal the loop stops with is inside and shortest if and only if no length at all is bad |
| ShortestSteps.BadIsMisjudged | deps/fmt/include/fmt/format.h:2936-3027 | some length is bad if and only if significand, exponents and estimate meet `Misjudged` |
| ShortestSteps.InsideIsReadable | deps/fmt/include/fmt/format.h:2941-2947 | the loop's scaled gaps are the midpoints around f * 2^e, the lower one nearer when the predecessor is closer |
| ShortestSteps.Started | deps/fmt/include/fmt/format.h:2985-2999 | after the fixup the loop starts below ten and no decimal with fewer digits lies between the midpoints |
| Dragon.BelowLow | deps/fmt/include/fmt/format.h:3006 | the answer of the lower test for all values and exponents: a tie goes by the exponents, and a zero that reaches higher than lower is not below it |
| Dragon.AboveHigh | deps/fmt/include/fmt/format.h:3008 | the upper test is exact |
| Dragon.LastShortest | deps/fmt/include/fmt/format.h:3010-3018 | up when only that is inside, to the nearer side when both are, half to even |
| Dragon.TakeDigit | deps/fmt/include/fmt/format.h:3002-3008 | one division and both tests: quotient and remainder at this length, and how the tests are answered |
| Dragon.ShortestDigits | deps/fmt/include/fmt/format.h:3000-3027 | terminates with digits only, between the midpoints or on one; the decimal is inside and no shorter one is if and only if no length is bad |
| Dragon.PrintShortest | deps/fmt/include/fmt/format.h:3000-3027 | the decimal reads back as the value and no shorter one does, if and only if the call is not misjudged |
| DragonScale.AfterFixup | deps/fmt/include/fmt/format.h:2988-2998 | the exponent is lowered exactly when the value plus half a unit in the last place stays below 10^x, and the fraction is then below ten |
| DragonScale.RoundedAtUnit | deps/fmt/include/fmt/format.h:2999-3029 | rounding the scaled fraction is rounding the value |
| DragonScale.SkipIsPower | deps/fmt/include/fmt/format.h:2912-2914 | a division is skipped only for a value that is a power of ten |
| DragonFormats.EvenTieOfFloat | deps/fmt/include/fmt/format.h:2816-2829 | a callable 24-bit significand with the estimate of format_float that meets `Misjudged`: an even one whose lower midpoint is a shorter decimal |
| DragonFormats.EvenTieOfDouble | deps/fmt/include/fmt/format.h:2816-2829 | the same with 53 bits |
| DragonFormats.EvenTieMisjudged | deps/fmt/include/fmt/format.h:2816-2829 | the same with 64 bits |
| DragonFormats.OddTieMisjudged | deps/fmt/include/fmt/format.h:2816-2829 | a callable 113-bit significand with the estimate of format_float that meets it: an odd one whose lower midpoint is taken for readable |
| DragonFormats.ZeroRemainderMisjudged | deps/fmt/include/fmt/format.h:2816-2829 | a callable 113-bit significand that meets it: a value of one digit whose zero remainder is not recognised |
| DragonFormats.NeverSkipped | deps/fmt/include/fmt/format.h:2912-2914 | no normalised significand of 24, 53, 64 or 113 bits ever meets the skipped division, for any exponent, estimate and precision |
| DragonFormats.SkipWitness | deps/fmt/include/fmt/format.h:2912-2914 | the 72-bit significand 5^31 times 2^31 is callable and meets it |
| DragonEstimate.NotTooLow | deps/fmt/include/fmt/format.h:3195-3201 | for every binary exponent of the formats, 2^(n + 1) is at most 10^(est + 1) |
| DragonEstimate.EstimateCallable | deps/fmt/include/fmt/format.h:3189-3202 | for every significand and exponent of the formats, the estimate format_float makes meets everything the printer asks of its caller |
| Decimal.DigitsDenote | deps/fmt/include/fmt/format.h:1225-1230 | the specified digits are a numeral of the value without leading zeros |
| Decimal.OnlyNumeral | deps/fmt/include/fmt/format.h:1225-1230 | and the only one |
| Decimal.PairTable | deps/fmt/include/fmt/format.h:1015-1027 | every table entry is its index in two digits |
| Decimal.FractionTable | deps/fmt/include/fmt/format.h:1029-1043 | every reachable fraction's entry is the remainder it stands for |
| Decimal.DividesBy100 | deps/fmt/include/fmt/format.h:1234-1238 | for every 32-bit value the wrapped product and the 2^25 correction give the exact quotient and the table entry of the remainder |
| Decimal.FirstFailure | deps/fmt/include/fmt/format.h:1234-1238 | the 32-bit bound is tight: 2^32 itself lands on a blank entry |
| Decimal.StorePair | deps/fmt/include/fmt/format.h:1232-1246 | both code paths store the same two digits and divide by 100 |
| Decimal.DoFormatDecimal | deps/fmt/include/fmt/format.h:1225-1254 | the decimal digits right-aligned in the field, no other character touched, for every value in both widths |

## Left out

- Widgets, painting, menus, file dialogs, display-only signals, `tools/generator`, `PerformanceMeasurer` and `Throttler`: user interface or wall-clock behaviour.
- Character-level parsing of assembler lines (comment stripping, identifiers, `QString::toInt`, the `.RAW` pattern): the model starts from tokens that carry what those functions return.
- Text formatting of disassembled lines: mnemonics and arguments are enumerated values.
- The C++ memory model: executor actions are atomic steps, and RAM writes from the user-interface thread are not interleaved with instructions.
- The other printers of fmt (grisu-style digits, hexfloat, locale, chrono, compile-time formats) and the Dragonbox tables.
- Operating the switches while an instruction executes: the model lets the user act between instructions, and keys and switches hold during one.
- The assembler window's stopping and restarting of the executor around the upload.
- File and stream errors other than the end of the data.
- Buffer growth that fails or is capped in fmt; buffers here grow as requested.
- Processor.Intel8049.ExecuteSingleInstr: chooses the instruction through the decoding function instead of a literal 256-way switch; the literal switch of the disassembler is proved against the same function.
- TwoPass.OnePassIsTwoPass: a patch outside the memory is recorded and otherwise ignored; what the source does after it is undefined, and `TwoPass.WildIff` says when it happens.
- AssemblerObject.Assembler.Code: requires at most 256 words, which `Assemble` reports as an error otherwise and the window then does not call it.
- Disassembly.Disassembler.Disassemble: a position that wraps from 65535 to 0 ends the model; the source starts its sweep over at address 0.
- ExecutorObject.ExecutorThread.RunOnce: the endless loop of `run()` is one method call per turn, and waiting for a command is the precondition that there is one.
- ExecutorObject.ExecutorThread.DoLoadState: loads states whose memories have the chips' own sizes; a file with other sizes decodes, but the machine it would make is not modelled.
- Processor.Intel8049.InitFromState: takes RAM of 128 bytes only; the source copies a vector of any length.
- Pid8155.Intel8155.InitFromState: takes RAM of 256 bytes only; the source copies a vector of any length.
- Dragon.FormatDragon: requires a significand that is not zero and an estimated exponent that is not too low; `DragonEstimate.EstimateCallable` shows that the estimate made with fixup is not. The exponent the fast path passes without fixup is not modelled.
- DragonEstimate.EstimateCallable: computes the estimate in exact arithmetic, with a margin of 10^-10 for the rounding of doubles.
- Port latches are not part of a saved state, so the pin-mirror property holds from a reset to the next load.
