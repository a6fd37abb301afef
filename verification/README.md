# Verified model of the Caravel management core, its flash, CSRs, UART and timer

The management SoC of this repository runs on a VexRiscv: a five-stage in-order
RV32I pipeline, delivered as RTL in a plain variant
(`rtl/soc/VexRiscv_MinDebug.v`) and a variant with an instruction cache
(`rtl/soc/VexRiscv_MinDebugCache.v`). This project models both clock by clock and
proves that, whatever the buses and interrupt lines do, each executes RV32I with
precise traps, one instruction after another. Beside the core it models the SPI
flash it boots from, the firmware's CSR accessors, the testbench UART and the
machine timer firmware.

## How the core is modelled

| file | content |
|---|---|
| `Words`, `Decoder`, `Execute` | 32-bit words, the minimised mask-and-compare decoder, operand selection, adder, comparator, shifter, branch unit, data-bus lanes and load formatting, as pure functions |
| `Machine` | a sequential machine over the same combinational logic: one instruction, trap or interrupt at a time |
| `Core` | the pipeline: registers (`State`), the wires sampled at a clock edge (`In`), and one rising edge (`Next`) |
| `Invariant`, `Facts`, `Advance`, `FrontProof`, `ChainProof`, `ValuesProof`, `TrapProof`, `BusProof`, `Refinement` | the invariant that ties a core state to the machine, its preservation part by part, and the theorem over every run |
| `CoreTheorems`, `Hazards` | precise traps, interrupt selection, hazards, fetch, data bus, shifter |
| `Countdown`, `Liveness`, `InterruptProgress` | measures along a run; absence of deadlock, and progress in time; a persistent interrupt is taken |
| `LatchedPins` | the interrupt pins that a CSR access sees are those latched as it leaves execute |
| `Isa`, `IsaEncode`, `IsaLaws` | RV32I with Zicsr and MRET written from the RISC-V manuals, with its own instruction fields, CSRs as words and trap entry; its encoder; what software relies on when it writes CSRs and returns from traps |
| `IsaMatch`, `Ram`, `IsaStep`, `IsaExtra`, `CoreIsa` | a little-endian byte memory, the encodings accepted beyond RV32I, and the proof that the machine, hence the core, is a hart |
| `Cpu` | the clocked blocks of the RTL as methods and a class, later assignments overriding earlier ones, each proved to compute its part of `Next` |
| `CachedFetch`, `CacheProof`, `CacheTheorems`, `CacheProgress`, `CacheUnit` | the cached fetch unit (three fetch stages, two lines of eight words, line loader, flush counter, Wishbone burst adapter): it delivers memory, in order, and always completes a miss |
| `CachedCore`, `CachedLiveness`, `CachedFlush`, `CachedRuns` | the whole cached core: it refines the same machine, never deadlocks, takes persistent interrupts, and FENCE.I flushes its cache |
| `SpiFlash`, `SpiReset`, `CsrBuffers`, `Uart`, `Timer` | the smaller components |

A run of a core is a sequence of `In` values, one for each clock: bus
acknowledgements, bus data and interrupt lines are unconstrained, except that the
instruction bus returns the contents of a constant instruction memory. Registers
without a reset value start arbitrary, as do the register file and the cache.
Each cycle stands for at most one sequential event: an instruction leaving
writeBack, an exception reaching the trap unit, or an interrupt. The refinement
theorems say that the core state after any run and the machine state after the
events of that run satisfy the invariant; what that means for each part of the core
is spelled out in `CoreTheorems`. `Related` and `HartRun` then replace the
machine by the instruction-set description, where memory is bytes, CSRs are words and
instructions are constructors rather than control bits. That description shares no
field, CSR or trap definition with the core: `IsaEncode` pins its decoder by an
encoder, `IsaLaws` its CSRs by what is read back and what is enabled, and
`IsaStep.FieldsAgree`, `PackRead`, `PackWrite`, `PackEntry` and `PackReturn` connect the
two. They cover every program: the hart also
says what the core makes of the encodings it accepts beyond RV32I, and a program
without them runs on the hart of the instruction set alone (`CoreRunsPrograms`).

Progress is counted in served cycles: those in which the request that the oldest
occupant of the pipeline may be waiting for, if there is one, is answered. An
acknowledge without a request plays no part, and the two buses need never
acknowledge together, which they cannot on the shared bus of the SoC
(`rtl/soc/mgmt_core.v`, lines 4820 and 4821). The theorems in time put a bound on the
bus instead: if no request stays unanswered for n cycles in a row, every so many
times n cycles bring an event.

The ISA description follows chapters 2 and 9 of the RISC-V Unprivileged ISA and
sections 3.1.6.1, 3.1.14 and 3.2.1 of the Privileged Architecture (20211203); the
burst theorem follows chapter 4 of Wishbone B4.

## Deviations found

Some promises do not hold for all inputs; each is proved with its exact condition.

* The legality masks accept words that are not RV32I instructions. `LegalExactly`
  gives the exact set: SRET, EBREAK, loads with `funct3` 6 (the unsigned word load of
  RV64I) and immediate shifts with bit 25 set. `EveryWordMatches` says what they do:
  SRET jumps to an unknown address, EBREAK does nothing, the load is LW, and bit 25 is
  ignored.
* The receiver `tbuart` gets a single frame right, at every phase, exactly for bit
  periods between 44/9 and 43/8 of its own clock periods (`BaudTolerance`), but it takes
  49 clocks for a frame. In a stream of n back-to-back frames it falls behind unless
  49 n - 5 <= (10 n - 1) T, that is from 44/9 clocks for one frame up to 4.9 clocks for
  streams of any length (`StreamTolerance`, `EveryStream`).
* `uart_get` waits `BTIME/2` twice for every bit, an integer division. It reads every
  byte right exactly for a positive even bit time or one of at least 15
  (`GetTolerance`), where a sample that falls on a change of the line is taken to see
  the new level. That race, which Verilog leaves open, happens at 15 and nowhere else in
  that range (`GetNoRace`). The value 2175 in use is fine.
* `simple_timer_handler` clears its interrupt exactly when the new comparator value
  does not wrap past 2^64 (`HandlerClears`); `WrapLeavesPending` is an instance.
* A mode-bit reset of the flash on four lines also completes a mode byte, which leaves
  eight dummy clocks behind that deselection does not clear (`ModeBitReset`), so the
  next command byte is lost (`CommandLost`). On two lines it works exactly when the
  reset counters are checked before they are cleared.

Where the core departs from the Privileged Architecture the description follows the
RTL: MRET leaves 0 in mstatus.MPP although only machine mode exists, ECALL leaves its
own word in mtval, mepc keeps its two low bits when written (a return ignores them),
and no CSR access is illegal.

## Model

| member | source | states |
|---|---|---|
| `CoreIsa.CoreRefinesIsa` | rtl/soc/VexRiscv_MinDebug.v:2016-2149 | from every reset state, for every constant program, acknowledge schedule and interrupt pattern, the retired instructions leave the registers, CSRs, program counter and byte memory of an RV32I hart that executes one instruction at a time and sees the interrupt pins the core latched |
| `CoreIsa.CoreRunsPrograms` | rtl/soc/VexRiscv_MinDebug.v:1972 | a program that executes none of the extra encodings runs on the core as on a hart that knows the instruction set alone |
| `CoreIsa.DefinedRun` | rtl/soc/VexRiscv_MinDebug.v:1972 | on such programs the hart with the extra encodings and the strict one agree |
| `Refinement.RunInv` | rtl/soc/VexRiscv_MinDebug.v:3325-3350 | along every run the stalled, flushed and bubbled pipeline stays tied to a sequential machine that takes the retired instructions, traps and interrupts in order |
| `Refinement.InvKept` | rtl/soc/VexRiscv_MinDebug.v:3501-3799 | one clock edge of the whole core is matched by zero or one step of the sequential machine, and every part of the invariant survives |
| `Refinement.BootInv` | rtl/soc/VexRiscv_MinDebug.v:3502-3541 | reset alone, with all other registers and the register file arbitrary, establishes the invariant |
| `Refinement.RunAppend` | rtl/soc/VexRiscv_MinDebug.v:3729-3746 | the machine's run over two event sequences, of any lengths, is the run over their concatenation |
| `CoreIsa.EveryScheduleRuns` | rtl/soc/VexRiscv_MinDebug.v:3446-3500 | no schedule is ruled out: for any order of acknowledgements and interrupts there is a run in which both memories answer |
| `CoreIsa.MachineIsHart` | rtl/soc/VexRiscv_MinDebug.v:2559-2741 | the sequential machine over decoder masks and shared data path and the hart over decoded instructions stay in step for every event sequence and every program |
| `CoreIsa.RetiredIsRam` | rtl/soc/VexRiscv_MinDebug.v:3492-3500 | if the bus traffic so far is that of a RAM, so is the traffic of the retired instructions, although a store retires before it is acknowledged |
| `CoreIsa.RamPrefix` | rtl/soc/VexRiscv_MinDebug.v:3492-3500 | every prefix of RAM traffic is RAM traffic |
| `CoreIsa.PostedIsRam` | rtl/soc/VexRiscv_MinDebug.v:3792-3797 | a store still waiting in the half-pipe register does not spoil it |
| `CoreTheorems.PreciseExceptions` | rtl/soc/VexRiscv_MinDebug.v:2965-3015 | when the exception traps, mepc is the address of the next instruction in program order, which itself faults with the cause and value saved; mstatus stacks the interrupt enable, every other CSR field is unchanged, the fetcher goes to mtvec; all older instructions have retired, and neither it nor anything younger has written a register or used the bus |
| `CoreTheorems.PreciseInterrupts` | rtl/soc/VexRiscv_MinDebug.v:3845-3863 | at every interrupt the later stages are empty, mepc is the first instruction not yet retired, which decode holds and drops without effect, mstatus stacks the interrupt enable, every other CSR field but mcause is unchanged, and the interrupt is enabled in that very cycle by its own bit of mie |
| `CoreTheorems.InterruptWasRequested` | rtl/soc/VexRiscv_MinDebug.v:3674-3704 | the interrupt taken is that of a line that was up, external ones three cycles before and through the mask, the others two, and enabled one cycle before; an enabled external one excludes the others |
| `CoreTheorems.InterruptPriority` | rtl/soc/VexRiscv_MinDebug.v:3838-3848 | the recorded cause is 11 if an external interrupt was pending and enabled, otherwise 3 if a software one was, otherwise 7, and some interrupt was |
| `CoreTheorems.PinsFollowLines` | rtl/soc/VexRiscv_MinDebug.v:3192-3193 | the pending bits follow the lines: timer and software through one register, external ones through two and the mask, and a write to mip stands in for the software line |
| `CoreIsa.InterruptsPermitted` | rtl/soc/VexRiscv_MinDebug.v:3686-3704 | every interrupt of a run is one that the hart, at that point of its own run, has enabled in mstatus and mie |
| `CoreIsa.HartReset` | rtl/soc/VexRiscv_MinDebug.v:3502-3541 | the hart starts with mstatus 0x1800, no interrupt enabled, the mask clear and an aligned program counter |
| `InterruptProgress.InterruptTaken` | rtl/soc/VexRiscv_MinDebug.v:3686-3704 | an interrupt that stays pending and enabled until it is taken is taken within 185 served cycles, whatever was in the pipeline |
| `InterruptProgress.InterruptWithin` | rtl/soc/VexRiscv_MinDebug.v:3686-3704 | if no bus request stays unanswered for n cycles, within 185 n cycles |
| `InterruptProgress.DrainStep` | rtl/soc/VexRiscv_MinDebug.v:3017-3033 | once the interrupt is recorded decode issues nothing, so the occupants ahead of it and their waits only drain |
| `LatchedPins.LatchedRun` | rtl/soc/VexRiscv_MinDebug.v:3373-3436 | the events of a run may carry, for each CSR access, the pins latched in the very cycle in which it leaves execute: the machine's run is the same |
| `LatchedPins.PinsAreRead` | rtl/soc/VexRiscv_MinDebug.v:3382-3388 | a CSR access in execute reads each pin at its own bit of mip, and at 0xfc0 the lines under the mask |
| `LatchedPins.ReadKept` | rtl/soc/VexRiscv_MinDebug.v:3818-3820 | the value a CSR access carries through memory and writeBack stays the one read with those pins |
| `LatchedPins.SameEffect` | rtl/soc/VexRiscv_MinDebug.v:3770-3788 | read value and CSR update of a retiring access are those of the latched pins |
| `CoreTheorems.ExceptionState` | rtl/soc/VexRiscv_MinDebug.v:3825-3863 | in any state that satisfies the invariant the exception context is the oldest instruction's, although younger faults may have been recorded before, and the CSR fields saved are those of that instruction |
| `CoreTheorems.InterruptState` | rtl/soc/VexRiscv_MinDebug.v:3686-3704 | in any state that satisfies the invariant the liberator's flags mean drained stages that carry decode's program counter, which is what the trap saves |
| `TrapProof.ContextKept` | rtl/soc/VexRiscv_MinDebug.v:3825-3836 | cause and value travel with the stage of the oldest fault, also when an older instruction overwrites a younger one's fault or a branch flushes it |
| `CoreTheorems.RetiresInOrder` | rtl/soc/VexRiscv_MinDebug.v:2586-2605 | what leaves writeBack is the next instruction in program order, does not trap, and writes the machine's value to the register file |
| `CoreTheorems.RegisterZero` | rtl/soc/VexRiscv_MinDebug.v:1225-1229 | after the first cycle register 0 holds 0 forever, although it is an ordinary register of the file |
| `CoreTheorems.HazardInterlock` | rtl/soc/VexRiscv_MinDebug.v:2743-2828 | whenever decode fires, each operand it uses, read a cycle early through the anticipated instruction, is the register's value after all older writes, and no older write is left in execute or memory |
| `Hazards.OperandsExactly` | rtl/soc/VexRiscv_MinDebug.v:2812-2828 | for every legal word the decoder marks as read and written exactly the registers of the instruction formats that the instruction reads and writes |
| `Hazards.WaitsExactly` | rtl/soc/VexRiscv_MinDebug.v:2743-2828 | decode holds a legal instruction back exactly while an older one, or the write of the cycle before, has still to write a register it reads, an interrupt is recorded, or an MRET or SRET is ahead |
| `CoreTheorems.FetchBookkeeping` | rtl/soc/VexRiscv_MinDebug.v:2365-2401 | pending counts bus register and FIFO, pending minus discard is the occupancy of stage 1, a response always finds room though the bus ignores back-pressure, no counter wraps, and a command is issued only when decode moves on |
| `CoreTheorems.FetchStream` | rtl/soc/VexRiscv_MinDebug.v:2379-2405 | what fetch hands over is memory at the delivered address, which is the successor of the youngest instruction in the pipeline |
| `CoreTheorems.JumpRestartsStream` | rtl/soc/VexRiscv_MinDebug.v:2257-2320 | after a jump the next address requested or held is its word-aligned target, decode is empty and every response still owed is to be discarded |
| `FrontProof.FetchBookKept` | rtl/soc/VexRiscv_MinDebug.v:3616-3620 | the counters, the FIFO and the bus register keep that relation at each edge |
| `ChainProof.ChainKept` | rtl/soc/VexRiscv_MinDebug.v:3866-3883 | each occupied stage keeps holding the successor of the next older one, through branches, traps and returns |
| `CoreTheorems.DataBusLog` | rtl/soc/VexRiscv_MinDebug.v:2407-2479 | completed transactions and a posted store are exactly those of the retired instructions in order, then of writeBack and memory: no load or store is lost, repeated or reordered, and a flushed or misaligned one issues none |
| `CoreTheorems.ResponseMatchesLoad` | rtl/soc/VexRiscv_MinDebug.v:3461-3500 | a read occupies the half-pipe register exactly while its own load waits in memory, so a response is never matched to another instruction |
| `CoreTheorems.ShiftLatency` | rtl/soc/VexRiscv_MinDebug.v:2725-2742 | a shift by n > 0 holds execute for n unstalled cycles, whatever stalls are interleaved, and then yields the mathematical shift |
| `CoreTheorems.ShiftRun` | rtl/soc/VexRiscv_MinDebug.v:3642-3652 | through any stalls the positions still to shift shrink by one for each unstalled cycle and the partial value in the memory stage's register stays valid |
| `ValuesProof.ShiftKept` | rtl/soc/VexRiscv_MinDebug.v:3811-3815 | an active shifter implies an empty memory stage, so the shared register never overwrites a live result, and the rest of the shift still gives the whole one |
| `Liveness.AlwaysProgresses` | rtl/soc/VexRiscv_MinDebug.v:2016-2069 | no deadlock: from every reachable state, 46 served cycles, in which the awaited request, if any, is answered, make an instruction retire or a trap or interrupt be taken |
| `Liveness.ProgressWhenAnswered` | rtl/soc/VexRiscv_MinDebug.v:2016-2069 | on buses that always acknowledge, 46 cycles from any reachable state bring such an event |
| `Liveness.ProgressWithin` | rtl/soc/VexRiscv_MinDebug.v:3446-3500 | if neither bus leaves a request unanswered for n cycles in a row, every 46 n cycles bring such an event; the two need never acknowledge together |
| `Liveness.WaitStep` | rtl/soc/VexRiscv_MinDebug.v:3329-3344 | the bound on the remaining wait never grows without an event and shrinks in every served cycle |
| `Liveness.QuietRun` | rtl/soc/VexRiscv_MinDebug.v:3329-3344 | over a run without events the served cycles are paid out of that bound |
| `IsaStep.WordMatchesIsa` | rtl/soc/VexRiscv_MinDebug.v:1101-1212 | for every word, every state and every operand, what the control word makes the data path do is what the ISA says the instruction does, illegal words included |
| `IsaEncode.DecodeEncode` | rtl/soc/VexRiscv_MinDebug.v:2700-2713 | every instruction whose immediates fit their fields has an encoding, built from shifted fields, that the ISA description decodes to it |
| `IsaEncode.EncodeDecode` | rtl/soc/VexRiscv_MinDebug.v:2700-2713 | every word that it decodes is the encoding of the result, FENCE's ignored fields aside, and the immediates fit |
| `IsaStep.FieldsAgree` | rtl/soc/VexRiscv_MinDebug.v:2581-2594 | the register and CSR fields that the core extracts are those of the instruction formats |
| `IsaStep.LegalExactly` | rtl/soc/VexRiscv_MinDebug.v:1083-1100 | the legality masks accept exactly the modelled instructions and the listed extra encodings |
| `IsaExtra.EveryWordMatches` | rtl/soc/VexRiscv_MinDebug.v:1083-1212 | every one of the 2^32 instruction words, in the instruction set or not, does on the machine what it does on the hart |
| `IsaExtra.StrictStep` | rtl/soc/VexRiscv_MinDebug.v:1083-1100 | words outside the exact set of extra encodings keep their meaning |
| `IsaStep.ResultMatches` | rtl/soc/VexRiscv_MinDebug.v:2607-2739 | for each of the ten operations the shared adder, comparator, bitwise unit and shifter give the ISA's result |
| `IsaStep.JumpMatches` | rtl/soc/VexRiscv_MinDebug.v:2848-2943 | JAL and JALR link and jump as the ISA says; a target that is not word aligned traps and leaves no link |
| `IsaStep.BranchMatches` | rtl/soc/VexRiscv_MinDebug.v:2829-2863 | each conditional branch is taken exactly when its condition holds and goes to its target |
| `IsaStep.LoadMatchesIsa` | rtl/soc/VexRiscv_MinDebug.v:2476-2556 | a load answered by a RAM returns the sign- or zero-extended little-endian value of the byte memory, or traps on misalignment |
| `IsaStep.StoreMatchesIsa` | rtl/soc/VexRiscv_MinDebug.v:2416-2429 | a store leaves the byte memory of the ISA, or traps on misalignment |
| `IsaStep.CsrMatchesIsa` | rtl/soc/VexRiscv_MinDebug.v:3169-3191 | the six CSR instructions read the old value and swap, set or clear CSRs that the ISA description keeps as words; set and clear by nothing do not write |
| `IsaStep.PackRead` | rtl/soc/VexRiscv_MinDebug.v:3373-3436 | each CSR reads as the word that the ISA description keeps, bit by bit |
| `IsaStep.PackWrite` | rtl/soc/VexRiscv_MinDebug.v:3767-3788 | a CSR write changes that word under the mask of its writable bits and no other CSR |
| `IsaStep.PackEntry` | rtl/soc/VexRiscv_MinDebug.v:3706-3716 | the fields set by a trap are the words of the ISA's trap entry, for exceptions and interrupts |
| `IsaStep.PackReturn` | rtl/soc/VexRiscv_MinDebug.v:3717-3727 | and those changed by MRET the words of its trap return |
| `IsaStep.EnabledMeans` | rtl/soc/VexRiscv_MinDebug.v:3675-3685 | the interrupts the core may take are those that mstatus and mie allow as words |
| `IsaLaws.ReadAfterWrite` | rtl/soc/VexRiscv_MinDebug.v:3767-3788 | 0x300 reads back what was written under 0x1888, 0x304 under 0x888, 0x341 and 0xbc0 all of it; every other CSR reads as before, except that 0xfc0 shows the new mask |
| `IsaLaws.EnablesExactly` | rtl/soc/VexRiscv_MinDebug.v:3778-3782 | after mie and mstatus have been written, exactly the interrupts whose bit was set can be taken, and none unless mstatus bit 3 was |
| `IsaLaws.VectorTaken` | rtl/soc/VexRiscv_MinDebug.v:4042-4047 | after mtvec has been written, exceptions and interrupts go to that address with its two low bits cleared |
| `IsaLaws.ExceptionReturns` | rtl/soc/VexRiscv_MinDebug.v:3706-3727 | an exception is entered with interrupts off, and MRET after a handler that keeps mepc and mstatus comes back to the faulting instruction with the interrupt enable restored and all else as the handler left it |
| `IsaLaws.InterruptReturns` | rtl/soc/VexRiscv_MinDebug.v:3706-3727 | an interrupt likewise, to the instruction it came before |
| `IsaStep.StoreApplies` | rtl/soc/VexRiscv_MinDebug.v:3485-3490 | the write on the bus and the ISA's store give the same memory |
| `IsaMatch.BorrowIsLess` | rtl/soc/VexRiscv_MinDebug.v:2717-2724 | for equal signs the top bit of the difference decides the unsigned order |
| `IsaMatch.LessMatches` | rtl/soc/VexRiscv_MinDebug.v:2724 | the less-than of the shared subtractor is the signed or unsigned order |
| `Ram.LoadMatches` | rtl/soc/VexRiscv_MinDebug.v:2476-2556 | shift and extension of an aligned response give the ISA's load value for LB, LBU, LH, LHU and LW |
| `Ram.StoreMatches` | rtl/soc/VexRiscv_MinDebug.v:3471-3490 | replicated data and shifted lane selects change exactly the bytes an aligned SB, SH or SW changes |
| `Ram.ByteStore` | rtl/soc/VexRiscv_MinDebug.v:2419-2421 | a byte store changes its byte and no other |
| `Ram.HalfStore` | rtl/soc/VexRiscv_MinDebug.v:2422-2424 | an aligned half-word store changes its two bytes and no other |
| `Ram.WordStore` | rtl/soc/VexRiscv_MinDebug.v:2425-2427 | an aligned word store changes its four bytes and no other |
| `Cpu.VexRiscv.Tick` | rtl/soc/VexRiscv_MinDebug.v:3501-4062 | the clocked blocks, with later assignments overriding earlier ones over the values from before the edge, compute the next state |
| `Cpu.VexRiscv.Run` | rtl/soc/VexRiscv_MinDebug.v:3501-4062 | clocking the registers from reset keeps the invariant with the sequential machine |
| `Cpu.VexRiscv.ResetEdge` | rtl/soc/VexRiscv_MinDebug.v:3502-3541 | a clock edge in reset leads to a reset state, whatever the registers held |
| `Cpu.ResetBlock` | rtl/soc/VexRiscv_MinDebug.v:3502-3541 | with the reset vector in the program counter, and the register file and the CSRs without a reset value as they were |
| `Cpu.Clock` | rtl/soc/VexRiscv_MinDebug.v:3501-4062 | the blocks together give the next state |
| `Cpu.PcBlock` | rtl/soc/VexRiscv_MinDebug.v:3549-3561 | program counter and increment flag, last assignment winning |
| `Cpu.CounterBlock` | rtl/soc/VexRiscv_MinDebug.v:3616-3620 | pending and discard counters |
| `Cpu.FifoBlock` | rtl/soc/VexRiscv_MinDebug.v:4256-4273 | occupancy and contents of the one-entry response FIFO |
| `Cpu.ExceptionContextBlock` | rtl/soc/VexRiscv_MinDebug.v:3825-3836 | the fault of the oldest stage overrides those of younger ones |
| `Cpu.InterruptBlock` | rtl/soc/VexRiscv_MinDebug.v:3838-3848 | the last assignment wins, so external interrupts override software ones and these the timer's, as `InterruptPriority` states |
| `Cpu.LiberatorBlock` | rtl/soc/VexRiscv_MinDebug.v:3686-3701 | the drained-stage flags fill one by one and are cleared together |
| `Cpu.CsrWriteBlock` | rtl/soc/VexRiscv_MinDebug.v:3770-3788 | a CSR write changes the writable fields of the CSR at its address and no other |
| `Cpu.CsrBlock` | rtl/soc/VexRiscv_MinDebug.v:3706-3727 | trap entry, then trap return, then a CSR write, each overriding what the one before assigned |
| `Cpu.ExecuteBlock` | rtl/soc/VexRiscv_MinDebug.v:3729-3734 | valid bit, operands and shifter registers of execute |
| `Cpu.ShifterBlock` | rtl/soc/VexRiscv_MinDebug.v:3642-3652 | a finished shift overrides a running one and the removal of the instruction both |
| `Cpu.DataBusBlock` | rtl/soc/VexRiscv_MinDebug.v:3792-3797 | the acknowledge of the waiting command overrides a new one's arrival |
| `CacheTheorems.DeliversMemory` | rtl/soc/VexRiscv_MinDebugCache.v:4416-4604 | from arbitrary cache contents and one reset, every instruction valid at stage 2 is the memory word at its address, without error, through refills, flushes, redone fetches and jumps |
| `CacheProof.InvKept` | rtl/soc/VexRiscv_MinDebugCache.v:4532-4604 | at each edge the read-port snapshot, stage 2, the line under refill and the lines stay in agreement with memory |
| `CacheProof.LinesKept` | rtl/soc/VexRiscv_MinDebugCache.v:4495-4502 | every valid line that is not being loaded holds its eight words of memory |
| `CacheTheorems.RunInv` | rtl/soc/VexRiscv_MinDebugCache.v:3703-3733 | so after every run |
| `CacheTheorems.OneBurstPerFill` | rtl/soc/VexRiscv_MinDebugCache.v:3595-3618 | each fill makes one incrementing burst of the eight words of its line, in order, with end-of-burst only on the eighth, and bursts of different fills do not mix |
| `CacheTheorems.FillsNeverOverlap` | rtl/soc/VexRiscv_MinDebugCache.v:4540-4548 | a miss finds the loader and the burst counter idle |
| `CacheTheorems.StreamRun` | rtl/soc/VexRiscv_MinDebugCache.v:2346-2392 | without flushes the deliveries of a run are consecutive instructions of memory, none lost, none repeated |
| `CacheTheorems.ExpectMoves` | rtl/soc/VexRiscv_MinDebugCache.v:2436-2449 | a delivery is followed by the next word; a refill or redone fetch leaves the next delivery as it was |
| `CacheTheorems.ExpectAfterJump` | rtl/soc/VexRiscv_MinDebugCache.v:2368-2378 | the first delivery after a jump is its word-aligned target |
| `CacheProgress.RedoneFetchHits` | rtl/soc/VexRiscv_MinDebugCache.v:2504-2519 | once the back end is quiet, 62 cycles in which the line loader's request, if any, is acknowledged are enough for the awaited instruction to be delivered: its line is refilled and the redone fetch hits |
| `CacheProgress.RefillsWithin` | rtl/soc/VexRiscv_MinDebugCache.v:3601-3618 | if no transfer stays unacknowledged for n cycles in a row, 62 n quiet cycles are enough |
| `CacheProgress.QuietRun` | rtl/soc/VexRiscv_MinDebugCache.v:4477-4503 | the remaining steps of a flush or refill are a termination measure in served cycles |
| `CacheProgress.StepsShrink` | rtl/soc/VexRiscv_MinDebugCache.v:4477-4503 | in each quiet cycle without delivery the measure does not grow, and it shrinks unless a requested transfer is left unacknowledged |
| `CacheProgress.FlushInvalidates` | rtl/soc/VexRiscv_MinDebugCache.v:4574-4580 | three cycles after a flush starts both lines are invalid and fetching is still halted |
| `CachedFlush.FenceRequests` | rtl/soc/VexRiscv_MinDebugCache.v:1238-1245 | FENCE.I in decode asks the cache for a flush, or one starts in that very cycle; no other legal instruction does, and a request stays until it is met |
| `CachedFlush.FlushComes` | rtl/soc/VexRiscv_MinDebugCache.v:4545-4556 | a requested flush starts within 432 cycles in which both buses answer, whatever the pipeline, the cache and the line loader are doing |
| `CachedFlush.FlushStep` | rtl/soc/VexRiscv_MinDebugCache.v:4477-4479 | stalls of decode, a miss and a running line load only bring it nearer |
| `CachedFlush.FlushClears` | rtl/soc/VexRiscv_MinDebugCache.v:4574-4580 | three cycles after the start both lines are invalid unless FENCE.I asks again in the first of them |
| `CachedFlush.FenceInvalidates` | rtl/soc/VexRiscv_MinDebugCache.v:2551 | after FENCE.I a flush starts, no instruction is fetched from the cache until three cycles later, and then both lines are invalid |
| `CachedFlush.NoneWhileFlushing` | rtl/soc/VexRiscv_MinDebugCache.v:4464-4475 | nothing is fetched while the flush counter passes the lines |
| `CacheUnit.FetchUnit.Tick` | rtl/soc/VexRiscv_MinDebugCache.v:4532-4604 | the clocked blocks of the fetch unit compute its next state |
| `CacheUnit.FetchUnit.Run` | rtl/soc/VexRiscv_MinDebugCache.v:3703-3733 | a run of the unit without flushes hands decode consecutive instructions of memory |
| `CacheUnit.LoaderBlock` | rtl/soc/VexRiscv_MinDebugCache.v:4540-4573 | a new fill overrides the completion of the last |
| `CacheUnit.FlushBlock` | rtl/soc/VexRiscv_MinDebugCache.v:4549-4580 | a starting flush overrides the request and restarts the counter |
| `CacheUnit.StageBlock` | rtl/soc/VexRiscv_MinDebugCache.v:4423-4439 | read ports and stage registers |
| `CachedCore.CachedCoreRefinesIsa` | rtl/soc/VexRiscv_MinDebugCache.v:2342-2551 | the cached core executes every program as the plain one does, from any cache contents |
| `CachedCore.CachedInterruptsPermitted` | rtl/soc/VexRiscv_MinDebugCache.v:3703-3960 | every interrupt of a run of the cached core is one that the hart has enabled |
| `CachedRuns.CachedScheduleRuns` | rtl/soc/VexRiscv_MinDebugCache.v:3595-3618 | for any order of acknowledgements and interrupts there is a run in which both memories answer |
| `CachedCore.CachedRunInv` | rtl/soc/VexRiscv_MinDebugCache.v:2342-2551 | along every run the cached core is tied to the sequential machine, instruction by instruction and transaction by transaction |
| `CachedCore.CachedLatchedRun` | rtl/soc/VexRiscv_MinDebugCache.v:2342-2551 | behind the cache too CSR accesses see the pins latched as they leave execute |
| `CachedCore.NextMatches` | rtl/soc/VexRiscv_MinDebugCache.v:2425-2482 | a clock of the cached core is a clock of the plain core whose fetch unit is about to deliver the same instruction |
| `CachedCore.JumpRemoves` | rtl/soc/VexRiscv_MinDebugCache.v:2438 | every jump of the back end removes the instruction in decode, which is what the fetch unit relies on |
| `CachedCore.CachedPreciseExceptions` | rtl/soc/VexRiscv_MinDebugCache.v:3703-3960 | exceptions are precise behind the cache, with the same CSR fields saved |
| `CachedCore.CachedPreciseInterrupts` | rtl/soc/VexRiscv_MinDebugCache.v:3703-3960 | interrupts are precise behind the cache, with the same CSR fields saved |
| `CachedLiveness.CachedAlwaysProgresses` | rtl/soc/VexRiscv_MinDebugCache.v:2403-2435 | no deadlock behind the cache: 105 served cycles make an instruction retire or a trap or interrupt be taken |
| `CachedLiveness.CachedProgressWhenAnswered` | rtl/soc/VexRiscv_MinDebugCache.v:2403-2435 | on buses that always acknowledge, 105 cycles from any reachable state bring such an event |
| `CachedLiveness.CachedProgressWithin` | rtl/soc/VexRiscv_MinDebugCache.v:3601-3618 | if neither bus leaves a request unanswered for n cycles in a row, every 105 n cycles bring such an event |
| `CachedLiveness.CachedInterruptTaken` | rtl/soc/VexRiscv_MinDebugCache.v:3703-3960 | a persistent interrupt is taken within 421 served cycles |
| `CachedLiveness.CachedInterruptWithin` | rtl/soc/VexRiscv_MinDebugCache.v:3703-3960 | if no request stays unanswered for n cycles, within 421 n cycles |
| `CachedLiveness.CachedWaitStep` | rtl/soc/VexRiscv_MinDebugCache.v:2403-2435 | pipeline wait and refill steps combine into one measure that every served cycle shrinks |
| `SpiFlash.ReadReturnsMemory` | vip/spiflash.v:121-202 | a 03, BB or EB read of address A returns memory[(A+k) mod 2^24] as its k-th byte for every k, whatever the host drives meanwhile and whatever the mode byte |
| `SpiFlash.ContinuousReadReturnsMemory` | vip/spiflash.v:275-310 | after a full command with mode byte A5 any number of transactions may start at their address phase, each mode byte before the last being A5; each returns the same stream as the full command, with the reset counters of its own lines and in either order of the two blocks at its end |
| `SpiFlash.ChainStreams` | vip/spiflash.v:275-310 | by induction over the transactions, each leaves the flash ready to be continued |
| `SpiFlash.FullReadStreams` | vip/spiflash.v:154-202 | a full BB or EB transaction returns its stream and leaves continuous read armed exactly if its mode byte is A5 |
| `SpiFlash.ContinuedReadStreams` | vip/spiflash.v:303-309 | and so does a continued one |
| `SpiFlash.LongEnough` | vip/spiflash.v:312-324 | no such transaction can be taken for a mode-bit reset: the counters of its own lines end at nine clocks |
| `SpiFlash.BytesRead` | vip/spiflash.v:148-151 | a streaming flash goes on with the bytes at addresses one higher each, modulo 2^24 |
| `SpiFlash.LocateStreams` | vip/spiflash.v:154-202 | address, mode byte and dummy cycles bring the flash to the first byte and arm or disarm continuous read |
| `SpiFlash.SendByte` | vip/spiflash.v:405-437 | on one, two or four lines a byte reaches the action routine intact, whatever the shift buffer held |
| `SpiFlash.ReceiveByte` | vip/spiflash.v:326-372 | on one, two or four lines the host reads the byte that was in the buffer |
| `SpiFlash.ReleasedLines` | vip/spiflash.v:326-372 | the flash leaves to the host every line while it waits or is written to, all but io1 on a single data line, and io2 and io3 on two |
| `SpiFlash.AddressParts` | vip/spiflash.v:139-146 | each address byte replaces its own part of the address |
| `SpiFlash.MergeByte` | vip/spiflash.v:411-437 | a whole byte replaces whatever the buffer held, at each width |
| `SpiFlash.DummiesPass` | vip/spiflash.v:407-409 | dummy cycles change nothing but their counter |
| `SpiFlash.NineClocks` | vip/spiflash.v:312-324 | a transaction of nine or more clocks cannot be taken for a mode-bit reset |
| `SpiReset.PowerCommands` | vip/spiflash.v:125-136 | AB powers the flash up, B9 powers it down, and no other command changes that or arms continuous read |
| `SpiReset.Asleep` | vip/spiflash.v:138-154 | powered down, the flash echoes what it is sent and never reads its memory, whatever the command |
| `SpiReset.ResetExactly` | vip/spiflash.v:312-324 | the counters show a mode-bit reset exactly after eight clocks with io0 high in each |
| `SpiReset.DeselectExactly` | vip/spiflash.v:275-302 | deselection leaves continuous read exactly after such a transaction, if its counters are checked before they are cleared |
| `SpiReset.ModeBitReset` | vip/spiflash.v:290-302 | from continuous read, eight clocks with io0 high end it on two lines exactly in that order of the two blocks, and on four lines always, but there with eight dummy clocks left over |
| `SpiReset.CommandLost` | vip/spiflash.v:405-409 | with these left over the next command byte is not seen |
| `SpiFlash.Device.SpiAction` | vip/spiflash.v:121-239 | the action routine, updating the registers in place, has the effect its specification gives |
| `SpiFlash.Device.PosedgeClk` | vip/spiflash.v:405-437 | the rising edge shifts, counts and acts |
| `SpiFlash.Device.NegedgeCsb` | vip/spiflash.v:303-309 | selection in continuous read acts as if the command had been sent |
| `SpiFlash.Device.PosedgeCsb` | vip/spiflash.v:275-302 | deselection clears the transaction and, after a mode-bit reset, continuous read |
| `CsrBuffers.CsrWriteBuffer` | firmware/hw/common.h:179-206 | the words written, read most significant first in base 2^32, are the elements read most significant first in their own base; no other word changes |
| `CsrBuffers.CsrReadBuffer` | firmware/hw/common.h:146-172 | the elements read back are the value of the words, modulo what they can hold |
| `CsrBuffers.WriteThenRead` | firmware/hw/common.h:146-206 | writing a buffer and reading it back gives the same elements, for every count and for sizes 1, 2, 4 and 8 |
| `CsrBuffers.RoundTrip` | firmware/hw/common.h:146-206 | the value of the words determines the buffer |
| `CsrBuffers.CsrRead` | firmware/hw/common.h:71-80 | a CSR of up to eight bytes is read most significant word first |
| `CsrBuffers.CsrWrite` | firmware/hw/common.h:83-90 | a value is written most significant word first, reduced to what fits, and no other word changes |
| `CsrBuffers.PackWord` | firmware/hw/common.h:195-201 | a word packs its elements most significant first, the first word only partly filled |
| `CsrBuffers.UnpackWord` | firmware/hw/common.h:162-168 | a word is taken apart from its last element, leaving the quotient |
| `CsrBuffers.SameDigits` | firmware/hw/common.h:146-206 | digits below the base are determined by length and value |
| `CsrBuffers.ValConcat` | firmware/hw/common.h:189-204 | the value of a concatenation in any base |
| `Uart.BaudTolerance` | vip/tbuart.v:61-94 | the receiver gets every byte at every start phase exactly when the bit period is between 44/9 and 43/8 receiver clocks |
| `Uart.StreamTolerance` | vip/wb_rw_test.v:39-51 | streams of n back-to-back frames are received, for all bytes and phases, exactly when 49 n - 5 <= (10 n - 1) T and 8 T <= 43 |
| `Uart.EveryStream` | vip/wb_rw_test.v:39-51 | streams of every length are received exactly for bit periods between 4.9 and 43/8 receiver clocks |
| `Uart.StreamReceived` | vip/tbuart.v:61-94 | frames met soon enough after their start are received one after another, none added and none lost |
| `Uart.Drifts` | vip/tbuart.v:69-85 | below 4.9 clocks the receiver is later for each frame, until it takes a stop bit for a data bit |
| `Uart.FrameEnds` | vip/tbuart.v:61-94 | from the clock that sees the start bit a frame takes 49 clocks, whatever the line does between samples |
| `Uart.FrameReceived` | vip/tbuart.v:61-94 | if every bit is sampled inside its own cell, an idle receiver ends idle with the byte in its pattern |
| `Uart.DataBits` | vip/tbuart.v:86-92 | the k-th data bit is sampled 8 + 5k clocks after the first, and shifts into the pattern; no byte is completed meanwhile |
| `Uart.TooFast` | vip/tbuart.v:86-92 | for every shorter bit period some phase reads the stop bit as data |
| `Uart.TooSlow` | vip/tbuart.v:86-92 | for every longer bit period the last bit is sampled in the cell before |
| `Uart.Receiver.Clock` | vip/tbuart.v:61-94 | the clocked block, later assignments overriding, computes the next receiver state |
| `Uart.Receiver.Receive` | vip/wb_rw_test.v:39-51 | clocked 49 times over a frame as `uart_put` sends it, the receiver holds the byte |
| `Uart.Receiver.ReceiveStream` | vip/tbuart.v:75-84 | clocked over a stream inside its range, the receiver appends exactly the bytes sent |
| `Uart.UartGet` | vip/wb_rw_test.v:67-79 | the second decoder recovers each bit of a byte sent with the same bit time |
| `Uart.GetTolerance` | vip/wb_rw_test.v:72-76 | it does so for every byte exactly when the bit time is positive and even, or at least 15 |
| `Uart.GetNoRace` | vip/wb_rw_test.v:72-76 | no sample falls on a change of the line exactly when the bit time is positive and even, or at least 17 |
| `Timer.TimerRead` | firmware/simple_system_common.c:172-182 | the value returned is one mtime really had during the call, and two passes are enough unless more than 2^32 ticks go by |
| `Timer.TimecmpUpdate` | firmware/simple_system_common.c:184-188 | the comparator ends at the new value and is never, in between, below both the old and the new one |
| `Timer.NoSpuriousInterrupt` | firmware/simple_system_common.c:184-188 | so an interrupt pending in between is one that the old or the new value would raise |
| `Timer.Firmware.IncrementTimecmp` | firmware/simple_system_common.c:153-157 | the comparator becomes a time within the call plus the base, in 64 bits |
| `Timer.Firmware.TimerHandler` | firmware/simple_system_common.c:194-197 | the handler re-arms the timer one increment after a time within it and counts the tick; from then on an interrupt is pending exactly when an increment has gone by, or at once if the comparator wrapped |
| `Timer.HandlerClears` | firmware/simple_system_common.c:194-197 | after re-arming the interrupt is pending exactly when a whole increment has gone by or the comparator wrapped, so a shorter handler clears it exactly when it did not |
| `Timer.WrapLeavesPending` | firmware/simple_system_common.c:194-197 | ten ticks before 2^64 an increment of 100 leaves the interrupt pending |

## Left out

Core:

- The debug plugin, its bus, instruction injection and EBREAK as a break: its inputs are idle, so EBREAK does nothing.
- mcycle, minstret, the WFI wake logic (WFI never halts) and MMU signals tied to constants: no effect on the modelled state.
- `correctionReg`, the `nextPcCalc` valid bits, `FORMAL_PC_NEXT` and the bypassable bits: written, never read while the debug plugin is idle and there is no bypass network.
- Control bits registered beside an instruction under the same enable are recomputed from that stage's instruction; the trap target privilege is always machine mode.
- CSR legality: `illegalAccess` is computed by the RTL but never traps, so an unknown CSR reads 0 and ignores writes; mtvec's mode bits are not used by any jump.
- The register file, the cache banks and the tags are functions from index to contents rather than arrays; read ports are registers filled at the clock edge, as in the RTL.
- CoreIsa.CoreRefinesIsa: the address SRET jumps to is an arbitrary input, since the RTL leaves it undefined.
- Refinement.RunInv: instruction memory is constant, so self-modifying code is not covered.

Cached fetch:

- Freshness after FENCE.I: a flush invalidates the lines but not an instruction already in stage 1, for which `flush_cpu_icache` adds nops; memory is constant.
- The error response of the instruction bus is tied to 0 in the RTL, hence so are the error bit of a loaded tag and the instruction access fault.
- The back end of the cached core is not written out a second time as a class; `CachedCore.Next` composes the functions the plain core's methods are proved against.
- CacheProgress.RedoneFetchHits: a run with the back end quiet; `CachedLiveness` covers the stalls and jumps of the whole core.

Flash, CSRs, UART, timer:

- SPI DDR reads (ED) and delays and strengths on the lines; a released line keeps what the host drives.
- The order of the two blocks that race at the end of a transaction, over whether the reset counters are read before they are cleared: both are modelled (`counted`), and for reads they make no difference.
- SpiFlash.ReadReturnsMemory: dummy cycles left over from an interrupted transaction, which deselection does not clear, are excluded.
- `|` and `<<` on disjoint bit ranges of 64-bit values are written as addition and multiplication; the CSR data width is the generated one, 32 bits.
- CsrBuffers.CsrWriteBuffer: at least one element; for none the macro still writes one zero word.
- The timer hardware itself; mtime does not wrap, and each device access sees one value of it.
- The UART receiver's line buffer and display are modelled as the sequence of bytes received.
- `uart_put_ns`, which sends the same frame without waiting for its stop bit.
- Generated register headers, start-up code, the interrupt dispatcher, the flash-programming loop of the start files, pad and GPIO wiring, RAM models: copies, constants and wiring.
