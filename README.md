# LR35902 CPU core: register file, memory bus, load table, fetch loop

A Dafny model of the core of `gbemulator`, an early Game Boy (Sharp LR35902) CPU
emulator written in C++. It covers the four parts of that core.

- **Register file** (`cpu-registers.h`). The C++ `union CpuRegisters` lays an 8-bit view
  (B, C, D, E, H, L, A) over a 16-bit view (BC, DE, HL, A, PC, SP).
  - The model keeps one 12-byte store laid out as the union lays out its members. Both views are functions over that store.
  - The layout is computed from C++'s natural-alignment rule, and lemmas prove it has no overlap.
  - The class `CpuRegisters` holds the store as an `array` and assigns through `Set8`/`Set16`.
  - The union's byte order within a pair depends on the host. The model fixes the LR35902 convention instead: the first-named register (B, D, H) is the high byte and sits at the lower offset.
- **Memory bus** (`memory-map.cpp`). A flat array of 0x10000 bytes.
  - It supports 8-bit access and little-endian 16-bit access.
  - Writes return a success flag, which is always true.
- **Primary opcode table** (`instruction-set.cpp`). The constructor fills a 256-slot table.
  - It installs NOP, STOP, HALT and the 8-bit load family, with the source's own loops and overwrites.
  - `Handler` names each closure the table can hold. `Execute` gives each closure's effect on an explicit `Machine` (register store plus memory).
  - `HandlerFor` is the final table. The fill loops are proved to produce it, checked against an independent bit-field decoding of the 0x40-0x7F block (`BlockLoad`).
- **Fetch-execute loop** (`cpu.cpp`). One iteration reads the opcode at PC, post-increments PC and dispatches. `Cpu.Step` is one iteration and `Cpu.RunN` is a bounded run.

The model follows the code as written wherever it is deterministic, including where the code departs from the LR35902. In each of these cases the model follows the code, not the LR35902 instruction set:

- **Immediate loads.** The two closures installed per iteration of the immediate-load loop share one slot. So 0x06, 0x16 and 0x26 load C, E and L, and 0x36 is LD (HL),n. Slots 0x0E, 0x1E, 0x2E and 0x3E are never filled.
- **Empty slots.** Calling an empty slot throws `std::bad_function_call`. The model reports this as the status `Unpopulated`, and `RunN` stops there.
- **Immediate fetch.** Every immediate is read with a pre-increment of PC. The loop has already post-incremented PC, so an operand is read from two bytes after its opcode.
- **0xEA/0xFA.** These shift the address given to the second `read8` by 8, not the byte it returns. The two increments of PC are taken left to right. As a result, the accessed address is always below 0x200.

Where the code is undefined or does not compile, the model takes the evident intent:

- `read16`/`write16` at 0xFFFF wrap to 0x0000.
- PC is a 16-bit register, although `Register16Id` lacks it.
- Indices 0-7 name B, C, D, E, H, L, (HL), A.
- The closures act on the register file and bus the instruction set was built with, although they capture the constructor's parameters by reference.

## Model

| member | source | states |
|---|---|---|
| Bytes.Inc16 | gbemulator/src/cpu.cpp:13 | `PC++` on a `uint16_t` adds one, and 0xFFFF wraps to 0 |
| Bytes.Dec16 | gbemulator/src/instruction-set.cpp:41 | `HL--` on a `uint16_t` subtracts one, and 0 wraps to 0xFFFF |
| Bytes.IncDecInverse | gbemulator/src/instruction-set.cpp:34-45 | 16-bit increment and decrement undo each other for every value |
| Registers.Code | gbemulator/src/cpu-registers.h:7-15 | every `Register8Id` value is below 8 and none is 6 |
| Registers.RegisterOfCode | gbemulator/src/cpu-registers.h:46-56 | an id decodes to the register with that enumerator value; it fails (the C++ throw) exactly for ids outside 0-7 and for 6 |
| Registers.CodeRoundTrip | gbemulator/src/cpu-registers.h:7-15 | the seven ids are pairwise distinct, and each decodes back to its register, so the accessor is total over the enum |
| Registers.AlignUp | gbemulator/src/cpu-registers.h:34-41 | a member is placed at the first offset that is a multiple of its size, no more than size-1 bytes later |
| Registers.FieldsDisjoint | gbemulator/src/cpu-registers.h:24-41 | in a struct laid out by natural alignment, each member is aligned and no two members share a byte |
| Registers.View8Layout | gbemulator/src/cpu-registers.h:24-32 | the 8-bit view places B, C, D, E, H, L, A at offsets 0-6 |
| Registers.View16Layout | gbemulator/src/cpu-registers.h:34-41 | the 16-bit view places BC, DE, HL, A, PC, SP at 0, 2, 4, 6, 8, 10, in 12 bytes |
| Registers.Offsets8FollowLayout | gbemulator/src/cpu-registers.h:24-32 | each 8-bit register is read at its member's offset |
| Registers.Offsets16FollowLayout | gbemulator/src/cpu-registers.h:34-41 | each 16-bit register is read at its member's offset |
| Registers.AccumulatorShared | gbemulator/src/cpu-registers.h:31-38 | A occupies the same byte in both views |
| Registers.Write8Read8 | gbemulator/src/cpu-registers.h:46-55 | a value written to one 8-bit register is read back from it and changes no other 8-bit register |
| Registers.PairIsItsHalves | gbemulator/src/cpu-registers.h:43-45 | BC, DE and HL each read as first half * 256 + second half |
| Registers.Write8Read16 | gbemulator/src/cpu-registers.h:24-45 | writing B/C changes only BC, D/E only DE, H/L only HL, and A no pair; no 8-bit write changes PC or SP |
| Registers.Write16Read16 | gbemulator/src/cpu-registers.h:58-64 | a 16-bit write is read back, and BC, DE, HL, PC, SP are five distinct registers |
| Registers.Write16Read8 | gbemulator/src/cpu-registers.h:34-41 | writing BC, DE or HL changes exactly its two halves (high byte to the first-named); A is unchanged; PC and SP writes change no 8-bit register |
| Registers.PairRoundTrip | gbemulator/src/cpu-registers.h:24-41 | after setting a pair to v, recombining its halves gives v |
| Registers.Write16Twice | gbemulator/src/cpu-registers.h:58-64 | a second assignment to a 16-bit register hides the first |
| Registers.CpuRegisters.Get8 | gbemulator/src/cpu-registers.h:46-55 | `get8BitReg` reads the register's byte of the store |
| Registers.CpuRegisters.Get16 | gbemulator/src/cpu-registers.h:58-64 | `get16BitReg` reads the register's two bytes of the store |
| Registers.CpuRegisters.Set8 | gbemulator/src/cpu-registers.h:46-55 | assigning through `get8BitReg` leaves the store `Write8` describes |
| Registers.CpuRegisters.Set16 | gbemulator/src/cpu-registers.h:58-64 | assigning through `get16BitReg` leaves the store `Write16` describes |
| Registers.CpuRegisters.constructor | gbemulator/src/cpu.h:17 | a register file is one store of the union's 12 bytes |
| Memory.Load16 | gbemulator/src/memory-map.cpp:14-16 | `read16(a)` has the byte at a as its low half and the byte at a+1 as its high half |
| Memory.Store8 | gbemulator/src/memory-map.cpp:18-21 | `write8` reports success, stores the byte and changes no other address |
| Memory.Store16 | gbemulator/src/memory-map.cpp:23-27 | `write16` reports success, puts the low byte at a and the high byte at a+1, and changes nothing else |
| Memory.Store8Load8 | gbemulator/src/memory-map.cpp:10-21 | `read8` after `write8` returns the written byte at that address and the old byte elsewhere |
| Memory.Store16Load16 | gbemulator/src/memory-map.cpp:14-27 | `read16(a)` after `write16(a, v)` returns v, for every a |
| Memory.Store16IsTwoStore8 | gbemulator/src/memory-map.cpp:23-27 | `write16` is `write8` of the low byte, then `write8` of the high byte |
| Memory.Load16IsTwoLoad8 | gbemulator/src/memory-map.cpp:14-16 | `read16(a)` is `read8(a) + 256 * read8(a+1)` |
| Memory.MemoryMap.constructor | gbemulator/src/memory-map.cpp:5-8 | the address space is exactly 0x10000 bytes |
| Memory.MemoryMap.Read8 | gbemulator/src/memory-map.cpp:10-12 | `read8` returns the stored byte and changes nothing |
| Memory.MemoryMap.Read16 | gbemulator/src/memory-map.cpp:14-16 | `read16` is the little-endian `Load16` and changes nothing |
| Memory.MemoryMap.Write8 | gbemulator/src/memory-map.cpp:18-21 | `write8` updates the array and returns the flag and memory that `Store8` describes |
| Memory.MemoryMap.Write16 | gbemulator/src/memory-map.cpp:23-27 | `write16` updates the array and returns the flag and memory that `Store16` describes |
| Instructions.BlockLoad | gbemulator/src/instruction-set.cpp:80-121 | in 0x40-0x7F, LD r,r' exactly outside the (HL) row and column, LD r,(HL) exactly in column 6, LD (HL),r exactly in row 6, HALT exactly at 0x76; the destination's id is bits 5-3 and the source's bits 2-0 |
| Instructions.HandlerFor | gbemulator/src/instruction-set.cpp:7-154 | the final table holds LD r,n only in 0x06, 0x16, 0x26, each loading the odd register of its pair (C, E, L), and LD (HL),n only in 0x36 |
| Instructions.ShiftedAddress | gbemulator/src/instruction-set.cpp:143 | shifting the address by 8 in a `uint16_t` keeps only its low byte, moved to the high half |
| Instructions.AbsoluteTarget | gbemulator/src/instruction-set.cpp:142-153 | the address 0xEA/0xFA access is at least the first operand byte and below 0x200 |
| Instructions.Execute | gbemulator/src/instruction-set.cpp:11-153 | a closure reports the exception exactly for an empty slot, STOP and HALT exactly for their closures, and never WRITE_FAIL; the empty slot, NOP, STOP and HALT change nothing |
| Instructions.Dispatch | gbemulator/src/instruction-set.cpp:157-159 | `exec` throws exactly for the slots the constructor leaves empty, changing nothing then; it never returns WRITE_FAIL; STOP exactly for 0x10 and HALT exactly for 0x76 |
| Instructions.OperandOfCode | gbemulator/src/instruction-set.cpp:80-121 | operand index 6 is (HL); every other index is the register with that `Register8Id` value |
| Instructions.LoadRowSlot | gbemulator/src/instruction-set.cpp:80-101 | slot i*16+j of rows 0x4-0x6 is the bit-field decoding of the fill loops' indices: destination (i-4)*2 + j/8, source j mod 8 |
| Instructions.BlockSlotsFinal | gbemulator/src/instruction-set.cpp:80-121 | every slot of 0x40-0x7F ends up with its bit-field decoding |
| Instructions.FillImmediateLoads | gbemulator/src/instruction-set.cpp:62-79 | the immediate-load loop and the 0x36 overwrite leave 0x06, 0x16, 0x26, 0x36 final and change no other slot |
| Instructions.FillEvenLoads | gbemulator/src/instruction-set.cpp:81-87 | the first inner loop fills the row's left half, except column 6, with its bit-field decoding and changes nothing else |
| Instructions.FillOddLoads | gbemulator/src/instruction-set.cpp:88-94 | the second inner loop fills the row's right half, except column 0xE, and changes nothing else |
| Instructions.FillHlLoads | gbemulator/src/instruction-set.cpp:95-100 | the third inner loop fills columns 6 and 0xE with LD r,(HL) and changes nothing else |
| Instructions.FillLoadRow | gbemulator/src/instruction-set.cpp:81-100 | the three inner loops together fill the whole row |
| Instructions.FillLoadRows | gbemulator/src/instruction-set.cpp:80-101 | the outer loop fills 0x40-0x6F and changes nothing else |
| Instructions.FillRowSeven | gbemulator/src/instruction-set.cpp:102-117 | the two loops fill 0x70-0x7F except 0x76 and 0x7E, and change nothing else |
| Instructions.TableFinal | gbemulator/src/instruction-set.cpp:7-154 | a table that agrees with the block decoding and with the twenty other installed slots, and is empty elsewhere, is the final table |
| Instructions.InstructionSet.constructor | gbemulator/src/instruction-set.cpp:7-154 | the constructor's fill sequence yields exactly `HandlerFor` in all 256 slots |
| Instructions.InstructionSet.Exec | gbemulator/src/instruction-set.cpp:157-159 | `exec` runs the handler in the opcode's slot; the new registers, memory and status are `Dispatch` of the old state |
| Instructions.InstructionSet.Perform | gbemulator/src/instruction-set.cpp:11-153 | running a slot's closure updates registers and memory as `Execute` describes |
| Instructions.InstructionSet.PerformIndirect | gbemulator/src/instruction-set.cpp:22-61 | the (BC), (DE), (HL+), (HL-) loads and stores act in place as `Execute` describes |
| Instructions.InstructionSet.PerformImmediate | gbemulator/src/instruction-set.cpp:62-79 | the immediate loads act in place as `Execute` describes |
| Instructions.InstructionSet.PerformBlock | gbemulator/src/instruction-set.cpp:80-121 | LD r,r', LD r,(HL) and LD (HL),r act in place as `Execute` describes |
| Instructions.InstructionSet.PerformHighPage | gbemulator/src/instruction-set.cpp:122-141 | the 0xFF00-page forms act in place as `Execute` describes |
| Instructions.InstructionSet.PerformAbsolute | gbemulator/src/instruction-set.cpp:142-153 | 0xEA and 0xFA act in place as `Execute` describes |
| InstructionLaws.NopChangesNothing | gbemulator/src/instruction-set.cpp:12 | NOP returns OK and changes no register (PC included) and no memory |
| InstructionLaws.StopAndHaltChangeNothing | gbemulator/src/instruction-set.cpp:14-18 | STOP and HALT return their statuses and change no state |
| InstructionLaws.EmptySlotsThrow | gbemulator/src/instruction-set.cpp:157-159 | dispatching an empty slot reports the exception and changes no state |
| InstructionLaws.PopulatedSlots | gbemulator/src/instruction-set.cpp:7-154 | a slot holds a handler if and only if it is in 0x40-0x7F or is one of the twenty other installed slots |
| InstructionLaws.ImmediateSlots | gbemulator/src/instruction-set.cpp:62-79 | 0x06, 0x16, 0x26 load C, E, L; 0x36 is LD (HL),n; 0x0E, 0x1E, 0x2E, 0x3E are empty |
| InstructionLaws.RegisterToRegister | gbemulator/src/instruction-set.cpp:80-117 | LD r,r' copies the old source (bits 2-0) into the destination (bits 5-3); memory, the other registers, PC and SP are unchanged |
| InstructionLaws.LoadFromHlLaw | gbemulator/src/instruction-set.cpp:95-121 | LD r,(HL) sets the destination to the byte at HL; memory, the other registers, PC and SP are unchanged |
| InstructionLaws.StoreToHlLaw | gbemulator/src/instruction-set.cpp:102-110 | LD (HL),r writes the register at HL, changes no other address and no register |
| InstructionLaws.IndirectLaw | gbemulator/src/instruction-set.cpp:22-53 | 0x02/0x12 store A at BC/DE, changing no register; 0x0A/0x1A load A from BC/DE, changing only A |
| InstructionLaws.StoreHlStepLaw | gbemulator/src/instruction-set.cpp:34-45 | 0x22/0x32 store A at the old HL, then HL becomes HL+1/HL-1 mod 2^16; B, C, D, E, A, BC, DE, PC and SP are unchanged |
| InstructionLaws.LoadHlStepLaw | gbemulator/src/instruction-set.cpp:54-61 | 0x2A/0x3A load A from the old HL, then HL becomes HL+1/HL-1 mod 2^16; memory, B, C, D, E, BC, DE, PC and SP are unchanged |
| InstructionLaws.HighPageAddress | gbemulator/src/instruction-set.cpp:122-141 | the 0xFF00 + offset address is always within 0xFF00-0xFFFF |
| InstructionLaws.HighPageLaw | gbemulator/src/instruction-set.cpp:122-141 | 0xE0/0xE2 store A at 0xFF00 + n or C; 0xF0/0xF2 load A from there and leave memory unchanged; no address below 0xFF00 changes; only A (loads) and PC (0xE0, 0xF0, by one) change, so 0xE2 leaves every register as it was |
| InstructionLaws.AbsoluteAsWritten | gbemulator/src/instruction-set.cpp:142-153 | as written, with PC its value on entry to the handler (two bytes after the opcode once the loop has run), 0xEA/0xFA access the byte at PC+1 plus the byte at ((PC+2) mod 256) * 256, an address below 0x200 |
| InstructionLaws.StoreAbsoluteLaw | gbemulator/src/instruction-set.cpp:142-148 | 0xEA returns OK, writes A at that address and nowhere else, moves PC two bytes on and changes no other register |
| InstructionLaws.LoadAbsoluteLaw | gbemulator/src/instruction-set.cpp:149-153 | 0xFA returns OK, loads A from that address, moves PC two bytes on, and changes no memory and no other register |
| InstructionLaws.ImmediateLoadLaw | gbemulator/src/instruction-set.cpp:62-79 | 0x06/0x16/0x26 put the byte at PC+1 into C/E/L and change no other 8-bit register and no memory; 0x36 writes it at HL and changes no 8-bit register; all return OK, leave PC at PC+1 and keep SP |
| InstructionLaws.PcAdvance | gbemulator/src/instruction-set.cpp:62-153 | every handler moves PC by exactly its operand count: 1 for 0x06/0x16/0x26/0x36/0xE0/0xF0, 2 for 0xEA/0xFA, 0 otherwise |
| InstructionLaws.FixedHandlerFrame | gbemulator/src/instruction-set.cpp:11-141 | the closures without an immediate operand leave PC and SP unchanged |
| InstructionLaws.OperandHandlerFrame | gbemulator/src/instruction-set.cpp:62-153 | the closures with immediate operands move PC by their operand count mod 2^16 and leave SP unchanged |
| InstructionLaws.SpUnchanged | gbemulator/src/instruction-set.cpp:7-154 | no handler changes SP |
| InstructionLaws.NeverWriteFail | gbemulator/src/instruction-set.cpp:22-148 | WRITE_FAIL follows a refused `write8`; this bus never refuses, so no opcode returns WRITE_FAIL |
| InstructionLaws.AtMostOneByteWritten | gbemulator/src/instruction-set.cpp:7-154 | every handler changes at most one byte of memory |
| Processor.Transition | gbemulator/src/cpu.cpp:12-13 | one iteration throws exactly when the byte at PC selects an empty slot, and then only PC has moved, by one; it never returns WRITE_FAIL |
| Processor.RunSteps | gbemulator/src/cpu.cpp:10-16 | zero iterations change nothing; a run that ends in the exception has at least one iteration, and the byte just below the final PC selects an empty slot |
| Processor.Cpu.constructor | gbemulator/src/cpu.cpp:5-8 | the CPU owns a register file and a new bus, and its instruction set acts on exactly those |
| Processor.Cpu.Step | gbemulator/src/cpu.cpp:12-13 | one iteration reads the opcode at PC, increments PC with wrap-around, and runs that opcode's table entry: the state becomes `Transition` of the old state |
| Processor.Cpu.RunN | gbemulator/src/cpu.cpp:10-16 | n iterations give `RunSteps`, which stops early only when an empty slot throws |
| ProcessorLaws.StepNop | gbemulator/src/cpu.cpp:13 | stepping a NOP changes only PC, by +1, wrapping 0xFFFF to 0 |
| ProcessorLaws.StepPcAdvance | gbemulator/src/cpu.cpp:13 | a step moves PC past the opcode and the immediate bytes its handler reads |
| ProcessorLaws.StepHighImmediateStore | gbemulator/src/instruction-set.cpp:123 | a step of 0xE0 at PC=p reads its operand from p+2 and leaves PC=p+2 |
| ProcessorLaws.RunIgnoresHaltAndStop | gbemulator/src/cpu.cpp:11-15 | the status is discarded, so the loop continues after HALT and STOP |
| ProcessorLaws.EmptySlotEndsRun | gbemulator/src/cpu.cpp:11-15 | fetching an empty slot ends the loop with the exception, after PC has moved past the opcode |
| ProcessorLaws.RunStepsSplit | gbemulator/src/cpu.cpp:11-15 | m + n iterations are m iterations and then n more, unless the first m ended in the exception |
| ProcessorLaws.ControlSled | gbemulator/src/cpu.cpp:11-15 | with only NOP, STOP and HALT in memory, n iterations never throw and only advance PC by n mod 2^16 |

## Left out

- `Cpu::pause` and `Cpu::resume` are left out: they have empty bodies.
- `RegisterMap` is left out: it is a stub that holds a pointer to the 0xFF00 page and does nothing. The 0xFF00-0xFFFF window is ordinary storage here.
- Heap allocation, raw pointers and the missing `delete`s are left out. Fresh objects stand for `new`.
- Initial register and memory contents are not given. The C++ leaves them uninitialised, and no property here depends on them.
- `Cpu::run` loops forever. Only a bounded number of iterations (`RunN`) is modelled.
- The ALU, the F register and flags, jumps, calls, the CB-prefixed table and interrupts are left out: the source does not implement them.
- Processor.Cpu.RunN: stops at the first `Unpopulated`. In the C++ the exception leaves `run` entirely; what the caller then does is not part of this model.
- Memory.Load16 and Memory.Store16: at 0xFFFF the second byte wraps to 0x0000. In the C++ it is one past the array, which is undefined behaviour.
- Registers.Read16 and Registers.Write16: pairs are big-endian within the store (first-named register high). In the C++ the order depends on the host.
- The declarations that do not compile are modelled by their evident intent: `void exec`, the vector of plain function pointers, PC missing from `Register16Id`, and an `int` passed as a `Register8Id`.
- The other opcodes of the LR35902 are left out: the source installs nothing for them, so they dispatch to empty slots. Where the source's table departs from the LR35902's opcode assignments (0x06, 0x0E, 0xEA, the immediate fetch), the model follows the source.
