/** The primary opcode table of `instruction-set.cpp`.

    The C++ table holds closures that capture the register file and the bus by
    reference. (They capture the constructor's pointer parameters, which no
    longer exist once the constructor returns; the model gives them the
    evident meaning, the register file and bus the instruction set was built
    with.) Here a handler is a stateless identifier (`Handler`); what it
    does is the function `Execute`, which takes the register file and the
    memory as an explicit `Machine` value and returns the new one with the
    handler's status. `HandlerFor` gives the final contents of the 256 slots,
    and the `InstructionSet` class builds its table with the source's own
    sequence of loops and overwrites, then dispatches on it and updates the
    register file and the memory in place. */
module Instructions {
  import opened Bytes
  import opened Registers
  import opened Memory

  /** `InstructionStatus`, plus `Unpopulated`: calling an empty
      `std::function` slot throws `std::bad_function_call`, which the model
      reports as a distinct outcome so that dispatch is total. */
  datatype Status = Ok | Stopped | Halted | WriteFail | Unpopulated

  /** An operand index of the instruction encoding: 0-7 stand for
      B, C, D, E, H, L, (HL), A. */
  datatype Operand = Reg(r: Reg8) | AtHl

  /** Decodes a 3-bit operand index; the registers are those whose
      `Register8Id` value is the index. */
  function OperandOfCode(n: nat): (o: Operand)
    requires n < 8
    ensures o.AtHl? <==> n == 6
    ensures o.Reg? ==> Code(o.r) == n
  {
    if n == 6 then AtHl else Reg(RegisterOfCode(n).value)
  }

  /** The handlers the constructor installs. */
  datatype Handler =
    | Empty                      // a slot the constructor never fills
    | Nop                        // 0x00
    | Stop                       // 0x10
    | Halt                       // 0x76
    | StoreAIndirect(pair: Reg16) // LD (BC),A and LD (DE),A
    | StoreAHlInc                // LD (HL+),A
    | StoreAHlDec                // LD (HL-),A
    | LoadAIndirect(pair: Reg16) // LD A,(BC) and LD A,(DE)
    | LoadAHlInc                 // LD A,(HL+)
    | LoadAHlDec                 // LD A,(HL-)
    | LoadImmediate(dst: Reg8)   // LD r,n
    | StoreImmediateHl           // LD (HL),n
    | LoadRegister(dst: Reg8, src: Reg8) // LD r,r'
    | LoadFromHl(dst: Reg8)      // LD r,(HL)
    | StoreToHl(src: Reg8)       // LD (HL),r
    | StoreHighImmediate         // LD (0xFF00+n),A
    | LoadHighImmediate          // LD A,(0xFF00+n)
    | StoreHighC                 // LD (0xFF00+C),A
    | LoadHighC                  // LD A,(0xFF00+C)
    | StoreAbsolute              // LD (nn),A
    | LoadAbsolute               // LD A,(nn)

  /** The register the loop at lines 62-73 finally leaves in slot `op`
      (0x06, 0x16 or 0x26). Both lambdas of one iteration go into the same
      slot, so the second, which targets the odd register, wins: 0x06 loads C,
      0x16 loads E, 0x26 loads L. (On the LR35902 these slots load B, D and H,
      and C, E, L belong at 0x0E, 0x1E, 0x2E, which stay empty.) */
  function ImmediateTarget(op: byte): Reg8
    requires op < 0x30 && op % 0x10 == 6
  {
    RegisterOfCode(op / 0x10 * 2 + 1).value
  }

  /** The 8-bit load block 0x40-0x7F: bits 5-3 select the destination and
      bits 2-0 the source, both as operand indices. */
  function BlockLoad(op: byte): (h: Handler)
    requires 0x40 <= op < 0x80
    ensures h.LoadRegister? <==> (op - 0x40) / 8 != 6 && op % 8 != 6
    ensures h.LoadRegister? ==> Code(h.dst) == (op - 0x40) / 8 && Code(h.src) == op % 8
    ensures h.LoadFromHl? <==> (op - 0x40) / 8 != 6 && op % 8 == 6
    ensures h.LoadFromHl? ==> Code(h.dst) == (op - 0x40) / 8
    ensures h.StoreToHl? <==> (op - 0x40) / 8 == 6 && op % 8 != 6
    ensures h.StoreToHl? ==> Code(h.src) == op % 8
    ensures h == Halt <==> op == 0x76
  {
    match (OperandOfCode((op - 0x40) / 8), OperandOfCode(op % 8))
    case (Reg(d), Reg(s)) => LoadRegister(d, s)
    case (Reg(d), AtHl) => LoadFromHl(d)
    case (AtHl, Reg(s)) => StoreToHl(s)
    case (AtHl, AtHl) => Halt   // 0x76
  }

  /** The final contents of the table after the constructor has run. The
      immediate loads sit in 0x06, 0x16 and 0x26 only, each loading the odd
      register of its pair (C, E, L); LD (HL),n sits in 0x36. */
  function HandlerFor(op: byte): (h: Handler)
    ensures h.LoadImmediate? <==> op in {0x06, 0x16, 0x26}
    ensures h.LoadImmediate? ==> Code(h.dst) == op / 0x10 * 2 + 1
    ensures h.StoreImmediateHl? <==> op == 0x36
  {
    match op
    case 0x00 => Nop
    case 0x10 => Stop
    case 0x02 => StoreAIndirect(BC)
    case 0x12 => StoreAIndirect(DE)
    case 0x22 => StoreAHlInc
    case 0x32 => StoreAHlDec
    case 0x0A => LoadAIndirect(BC)
    case 0x1A => LoadAIndirect(DE)
    case 0x2A => LoadAHlInc
    case 0x3A => LoadAHlDec
    case 0x36 => StoreImmediateHl
    case 0xE0 => StoreHighImmediate
    case 0xF0 => LoadHighImmediate
    case 0xE2 => StoreHighC
    case 0xF2 => LoadHighC
    case 0xEA => StoreAbsolute
    case 0xFA => LoadAbsolute
    case _ =>
      if op < 0x30 && op % 0x10 == 6 then LoadImmediate(ImmediateTarget(op))
      else if 0x40 <= op < 0x80 then BlockLoad(op)
      else Empty
  }

  // ---------------------------------------------------------------------
  // Semantics of the handlers

  /** What every handler works on: the register file and the address space. */
  datatype Machine = Machine(regs: Storage, mem: Store)

  /** The status a handler returns, with the state it leaves. */
  datatype Outcome = Outcome(status: Status, next: Machine)

  function Reg8Of(st: Machine, r: Reg8): byte
  {
    Read8(st.regs, r)
  }

  function Reg16Of(st: Machine, p: Reg16): word
  {
    Read16(st.regs, p)
  }

  function WithReg8(st: Machine, r: Reg8, v: byte): Machine
  {
    st.(regs := Write8(st.regs, r, v))
  }

  function WithReg16(st: Machine, p: Reg16, v: word): Machine
  {
    st.(regs := Write16(st.regs, p, v))
  }

  /** `++registers->get16BitReg(PC)`. */
  function AdvancePc(st: Machine): Machine
  {
    WithReg16(st, PC, Inc16(Reg16Of(st, PC)))
  }

  /** `memory->read8(++PC)`: every immediate operand is the byte at the
      incremented PC, so `st` must already be advanced. (Evidently meant: the
      byte right after the opcode, which `read8(PC++)` would read; after the
      fetch loop's own `PC++`, the pre-increment reads the byte after that.) */
  function Immediate(st: Machine): byte
  {
    Load8(st.mem, Reg16Of(st, PC))
  }

  /** `write8(addr, v)` inside a handler: OK when the bus accepts the write,
      WRITE_FAIL when it refuses. */
  function WriteBack(st: Machine, addr: word, v: byte): Outcome
  {
    var w := Store8(st.mem, addr, v);
    Outcome(if w.ok then Ok else WriteFail, st.(mem := w.mem))
  }

  /** The address of the high operand read of 0xEA/0xFA, as written:
      `read8(++PC << 8)` shifts the ADDRESS, not the byte read, and the
      `uint16_t` parameter keeps the low 16 bits of the shifted value. */
  function ShiftedAddress(pc: word): (a: word)
    ensures a % 0x100 == 0 && a / 0x100 == pc % 0x100
  {
    (pc * 0x100) % WordModulus
  }

  /** The address 0xEA/0xFA access when PC is `pc` on entry to the handler,
      evaluating the two `++PC` left to right: the byte at pc+1 plus the byte
      at the shifted address pc+2. As the sum of two bytes it never exceeds
      0x1FE. (Evidently meant: the little-endian word formed by the two
      operand bytes.) */
  function AbsoluteTarget(st: Machine): (a: word)
    ensures Load8(st.mem, Inc16(Reg16Of(st, PC))) <= a < 0x200
  {
    var pc := Reg16Of(st, PC);
    Load8(st.mem, Inc16(pc)) + Load8(st.mem, ShiftedAddress(Inc16(Inc16(pc))))
  }

  /** Running handler `h` on `st`. The status names the handler kind: the
      exception exactly for an empty slot, STOP and HALT exactly for their
      handlers, and never WRITE_FAIL, since this bus accepts every write. The
      empty slot and the three control handlers change nothing. */
  function Execute(h: Handler, st: Machine): (o: Outcome)
    ensures o.status == Unpopulated <==> h.Empty?
    ensures o.status == Stopped <==> h.Stop?
    ensures o.status == Halted <==> h.Halt?
    ensures o.status != WriteFail
    ensures h.Empty? || h.Nop? || h.Stop? || h.Halt? ==> o.next == st
  {
    match h
    case Empty => Outcome(Unpopulated, st)
    case Nop => Outcome(Ok, st)
    case Stop => Outcome(Stopped, st)
    case Halt => Outcome(Halted, st)
    case StoreAIndirect(p) => WriteBack(st, Reg16Of(st, p), Reg8Of(st, A))
    case StoreAHlInc =>
      var hl := Reg16Of(st, HL);
      WriteBack(WithReg16(st, HL, Inc16(hl)), hl, Reg8Of(st, A))
    case StoreAHlDec =>
      var hl := Reg16Of(st, HL);
      WriteBack(WithReg16(st, HL, Dec16(hl)), hl, Reg8Of(st, A))
    case LoadAIndirect(p) => Outcome(Ok, WithReg8(st, A, Load8(st.mem, Reg16Of(st, p))))
    case LoadAHlInc =>
      var hl := Reg16Of(st, HL);
      Outcome(Ok, WithReg8(WithReg16(st, HL, Inc16(hl)), A, Load8(st.mem, hl)))
    case LoadAHlDec =>
      var hl := Reg16Of(st, HL);
      Outcome(Ok, WithReg8(WithReg16(st, HL, Dec16(hl)), A, Load8(st.mem, hl)))
    case LoadImmediate(r) =>
      var st1 := AdvancePc(st);
      Outcome(Ok, WithReg8(st1, r, Immediate(st1)))
    case StoreImmediateHl =>
      var st1 := AdvancePc(st);
      WriteBack(st1, Reg16Of(st1, HL), Immediate(st1))
    case LoadRegister(d, s) => Outcome(Ok, WithReg8(st, d, Reg8Of(st, s)))
    case LoadFromHl(d) => Outcome(Ok, WithReg8(st, d, Load8(st.mem, Reg16Of(st, HL))))
    case StoreToHl(s) => WriteBack(st, Reg16Of(st, HL), Reg8Of(st, s))
    case StoreHighImmediate =>
      var st1 := AdvancePc(st);
      WriteBack(st1, 0xFF00 + Immediate(st1), Reg8Of(st1, A))
    case LoadHighImmediate =>
      var st1 := AdvancePc(st);
      Outcome(Ok, WithReg8(st1, A, Load8(st1.mem, 0xFF00 + Immediate(st1))))
    case StoreHighC => WriteBack(st, 0xFF00 + Reg8Of(st, C), Reg8Of(st, A))
    case LoadHighC => Outcome(Ok, WithReg8(st, A, Load8(st.mem, 0xFF00 + Reg8Of(st, C))))
    case StoreAbsolute =>
      WriteBack(AdvancePc(AdvancePc(st)), AbsoluteTarget(st), Reg8Of(st, A))
    case LoadAbsolute =>
      Outcome(Ok, WithReg8(AdvancePc(AdvancePc(st)), A, Load8(st.mem, AbsoluteTarget(st))))
  }

  /** `exec(opcode)`: run the handler in the opcode's slot. It throws
      exactly for the slots the constructor leaves empty, and then changes
      nothing. */
  function Dispatch(op: byte, st: Machine): (o: Outcome)
    ensures o.status == Unpopulated <==> !(0x40 <= op < 0x80 || FilledOutsideBlock(op))
    ensures o.status == Unpopulated ==> o.next == st
    ensures o.status != WriteFail
    ensures o.status == Stopped <==> op == 0x10
    ensures o.status == Halted <==> op == 0x76
  {
    Execute(HandlerFor(op), st)
  }

  // ---------------------------------------------------------------------
  // The table as the source builds and uses it

  /** In the rows 0x40-0x7F the final table is the block decoding. */
  lemma BlockSlotsFinal(op: byte)
    requires 0x40 <= op < 0x80
    ensures HandlerFor(op) == BlockLoad(op)
  {
  }

  /** Slot `i*16 + j` of the rows 0x40-0x6F, in the terms the fill loops use. */
  lemma LoadRowSlot(i: int, j: int)
    requires 4 <= i <= 6 && 0 <= j < 0x10
    ensures var op := i * 0x10 + j;
      0x40 <= op < 0x70 &&
      BlockLoad(op) ==
        if j % 8 == 6 then LoadFromHl(RegisterOfCode((i - 4) * 2 + j / 8).value)
        else LoadRegister(RegisterOfCode((i - 4) * 2 + j / 8).value, RegisterOfCode(j % 8).value)
  {
    var op := i * 0x10 + j;
    assert (op - 0x40) / 8 == (i - 4) * 2 + j / 8;
    assert op % 8 == j % 8;
  }

  /** Lines 62-79: the immediate-load loop, whose two lambdas per iteration
      share a slot, then LD (HL),n overwriting slot 0x36. Slots 0x06, 0x16,
      0x26 and 0x36 end up final; no other slot changes. */
  method FillImmediateLoads(t: seq<Handler>) returns (u: seq<Handler>)
    requires |t| == 0x100
    ensures |u| == 0x100
    ensures forall k | k in {0x06, 0x16, 0x26, 0x36} :: u[k] == HandlerFor(k)
    ensures forall k | 0 <= k < 0x100 && k !in {0x06, 0x16, 0x26, 0x36} :: u[k] == t[k]
  {
    u := t;
    for i := 0 to 4
      invariant |u| == 0x100
      invariant forall k | k in {0x06, 0x16, 0x26} && k < i * 0x10 :: u[k] == HandlerFor(k)
      invariant forall k | 0 <= k < 0x100 && !(k % 0x10 == 6 && k < i * 0x10) :: u[k] == t[k]
    {
      if i != 3 {
        u := u[i * 0x10 + 6 := LoadImmediate(RegisterOfCode(i * 2).value)];
      }
      u := u[i * 0x10 + 6 := LoadImmediate(RegisterOfCode(i * 2 + 1).value)];
    }
    u := u[0x36 := StoreImmediateHl];
  }

  /** Lines 81-87 for row `i` (0x4 to 0x6): LD r,r' into the row's even
      destination, columns 0-7 except 6. No other slot changes. */
  method FillEvenLoads(t: seq<Handler>, i: int) returns (u: seq<Handler>)
    requires |t| == 0x100 && 4 <= i <= 6
    ensures |u| == 0x100
    ensures forall k | i * 0x10 <= k < i * 0x10 + 8 && k != i * 0x10 + 6 :: u[k] == BlockLoad(k)
    ensures forall k | 0 <= k < 0x100 && !(i * 0x10 <= k < i * 0x10 + 8 && k != i * 0x10 + 6) :: u[k] == t[k]
  {
    u := t;
    var row := i * 0x10;
    for j := 0 to 8
      invariant |u| == 0x100
      invariant forall k | row <= k < row + j && k != row + 6 :: u[k] == BlockLoad(k)
      invariant forall k | 0 <= k < 0x100 && !(row <= k < row + j && k != row + 6) :: u[k] == t[k]
    {
      LoadRowSlot(i, j);
      assert j / 8 == 0 && j % 8 == j;
      if j != 6 {
        u := u[row + j := LoadRegister(RegisterOfCode((i - 4) * 2).value, RegisterOfCode(j).value)];
      }
    }
  }

  /** Lines 88-94 for row `i`: LD r,r' into the row's odd destination,
      columns 8-0xF except 0xE. No other slot changes. */
  method FillOddLoads(t: seq<Handler>, i: int) returns (u: seq<Handler>)
    requires |t| == 0x100 && 4 <= i <= 6
    ensures |u| == 0x100
    ensures forall k | i * 0x10 + 8 <= k < i * 0x10 + 0x10 && k != i * 0x10 + 0xE :: u[k] == BlockLoad(k)
    ensures forall k | 0 <= k < 0x100 && !(i * 0x10 + 8 <= k < i * 0x10 + 0x10 && k != i * 0x10 + 0xE) :: u[k] == t[k]
  {
    u := t;
    var row := i * 0x10;
    for j := 8 to 0x10
      invariant |u| == 0x100
      invariant forall k | row + 8 <= k < row + j && k != row + 0xE :: u[k] == BlockLoad(k)
      invariant forall k | 0 <= k < 0x100 && !(row + 8 <= k < row + j && k != row + 0xE) :: u[k] == t[k]
    {
      LoadRowSlot(i, j);
      assert j / 8 == 1 && j % 8 == j - 8;
      if j != 0xE {
        u := u[row + j := LoadRegister(RegisterOfCode((i - 4) * 2 + 1).value, RegisterOfCode(j - 8).value)];
      }
    }
  }

  /** Lines 95-100 for row `i`: LD r,(HL) in columns 6 and 0xE. No other slot changes. */
  method FillHlLoads(t: seq<Handler>, i: int) returns (u: seq<Handler>)
    requires |t| == 0x100 && 4 <= i <= 6
    ensures |u| == 0x100
    ensures u[i * 0x10 + 6] == BlockLoad(i * 0x10 + 6) && u[i * 0x10 + 0xE] == BlockLoad(i * 0x10 + 0xE)
    ensures forall k | 0 <= k < 0x100 && k != i * 0x10 + 6 && k != i * 0x10 + 0xE :: u[k] == t[k]
  {
    u := t;
    var row := i * 0x10;
    for j := 0 to 2
      invariant |u| == 0x100
      invariant j > 0 ==> u[row + 6] == BlockLoad(row + 6)
      invariant j > 1 ==> u[row + 0xE] == BlockLoad(row + 0xE)
      invariant forall k | 0 <= k < 0x100 && !(k == row + 6 && j > 0) && !(k == row + 0xE && j > 1) :: u[k] == t[k]
    {
      LoadRowSlot(i, j * 8 + 6);
      assert (j * 8 + 6) / 8 == j;
      u := u[row + j * 8 + 6 := LoadFromHl(RegisterOfCode((i - 4) * 2 + j).value)];
    }
  }

  /** Lines 81-100 for one row `i` (0x4 to 0x6). The whole row ends up as the
      block decoding gives it; no other slot changes. */
  method FillLoadRow(t: seq<Handler>, i: int) returns (u: seq<Handler>)
    requires |t| == 0x100 && 4 <= i <= 6
    ensures |u| == 0x100
    ensures forall k | i * 0x10 <= k < i * 0x10 + 0x10 :: u[k] == BlockLoad(k)
    ensures forall k | 0 <= k < 0x100 && !(i * 0x10 <= k < i * 0x10 + 0x10) :: u[k] == t[k]
  {
    var even := FillEvenLoads(t, i);
    var odd := FillOddLoads(even, i);
    u := FillHlLoads(odd, i);
    forall k | i * 0x10 <= k < i * 0x10 + 0x10
      ensures u[k] == BlockLoad(k)
    {
      if k != i * 0x10 + 6 && k != i * 0x10 + 0xE {
        assert u[k] == odd[k];
        if k >= i * 0x10 + 8 {
          assert odd[k] == BlockLoad(k);
        } else {
          assert odd[k] == even[k];
        }
      }
    }
  }

  /** Lines 80-101: the rows 0x4-0x6, each filled by the three inner loops.
      The rows 0x40-0x6F end up as the block decoding gives them; no other
      slot changes. */
  method FillLoadRows(t: seq<Handler>) returns (u: seq<Handler>)
    requires |t| == 0x100
    ensures |u| == 0x100
    ensures forall k | 0x40 <= k < 0x70 :: u[k] == BlockLoad(k)
    ensures forall k | 0 <= k < 0x100 && !(0x40 <= k < 0x70) :: u[k] == t[k]
  {
    u := t;
    for i := 4 to 7
      invariant |u| == 0x100
      invariant forall k | 0x40 <= k < i * 0x10 :: u[k] == BlockLoad(k)
      invariant forall k | 0 <= k < 0x100 && !(0x40 <= k < i * 0x10) :: u[k] == t[k]
    {
      u := FillLoadRow(u, i);
    }
  }

  /** Lines 102-117: LD (HL),r in 0x70-0x77 except HALT's slot 0x76, then
      LD A,r in 0x78-0x7F except 0x7E. No other slot changes. */
  method FillRowSeven(t: seq<Handler>) returns (u: seq<Handler>)
    requires |t| == 0x100
    ensures |u| == 0x100
    ensures forall k | 0x70 <= k < 0x80 && k != 0x76 && k != 0x7E :: u[k] == BlockLoad(k)
    ensures forall k | 0 <= k < 0x100 && !(0x70 <= k < 0x80 && k != 0x76 && k != 0x7E) :: u[k] == t[k]
  {
    u := t;
    for i := 0 to 8
      invariant |u| == 0x100
      invariant forall k | 0x70 <= k < 0x70 + i && k != 0x76 :: u[k] == BlockLoad(k)
      invariant forall k | 0 <= k < 0x100 && !(0x70 <= k < 0x70 + i && k != 0x76) :: u[k] == t[k]
    {
      if i != 6 {
        u := u[0x70 + i := StoreToHl(RegisterOfCode(i).value)];
      }
    }
    for i := 8 to 0x10
      invariant |u| == 0x100
      invariant forall k | 0x70 <= k < 0x70 + i && k != 0x76 && k != 0x7E :: u[k] == BlockLoad(k)
      invariant forall k | 0 <= k < 0x100 && !(0x70 <= k < 0x70 + i && k != 0x76 && k != 0x7E) :: u[k] == t[k]
    {
      if i != 0xE {
        u := u[0x70 + i := LoadRegister(A, RegisterOfCode(i - 8).value)];
      }
    }
  }

  /** The slots outside the rows 0x40-0x7F that the constructor fills. */
  predicate FilledOutsideBlock(op: int)
  {
    op in {0x00, 0x10, 0x02, 0x12, 0x22, 0x32, 0x0A, 0x1A, 0x2A, 0x3A,
           0x06, 0x16, 0x26, 0x36, 0xE0, 0xF0, 0xE2, 0xF2, 0xEA, 0xFA}
  }

  /** A table that holds the block decoding in 0x40-0x7F, nothing outside
      the block except the individually filled slots, and the right handler
      in each of those, is the final table. */
  lemma TableFinal(s: seq<Handler>)
    requires |s| == 0x100
    requires forall k | 0x40 <= k < 0x80 :: s[k] == BlockLoad(k)
    requires forall k | 0 <= k < 0x100 && FilledOutsideBlock(k) :: s[k] == HandlerFor(k)
    requires forall k | 0 <= k < 0x100 && !(0x40 <= k < 0x80) && !FilledOutsideBlock(k) :: s[k] == Empty
    ensures forall op: byte :: s[op] == HandlerFor(op)
  {
    forall op: byte
      ensures s[op] == HandlerFor(op)
    {
      if 0x40 <= op < 0x80 {
        BlockSlotsFinal(op);
      }
    }
  }

  /** The instruction set: the table of handlers, and the register file and
      memory every handler acts on (the closures' captures). */
  class InstructionSet {
    const registers: CpuRegisters
    const memory: MemoryMap
    const table: seq<Handler>

    ghost predicate Valid()
    {
      registers.Valid() && memory.Valid() && |table| == 0x100 &&
      forall op: byte :: table[op] == HandlerFor(op)
    }

    /** The register file and the memory the handlers work on, as a value. */
    ghost function State(): Machine
      reads registers.storage, memory.mem
      requires registers.Valid() && memory.Valid()
    {
      Machine(registers.Contents(), memory.Contents())
    }

    /** The constructor: starts from 0x100 empty slots and fills them in the
        order the source does, overwrites included. The slots it never fills
        stay empty. */
    constructor (registers: CpuRegisters, memory: MemoryMap)
      requires registers.Valid() && memory.Valid()
      ensures Valid()
      ensures this.registers == registers && this.memory == memory
    {
      this.registers := registers;
      this.memory := memory;
      var t := seq(0x100, _ => Empty);
      t := t[0x00 := Nop][0x10 := Stop][0x76 := Halt];
      t := t[0x02 := StoreAIndirect(BC)][0x12 := StoreAIndirect(DE)];
      t := t[0x22 := StoreAHlInc][0x32 := StoreAHlDec];
      t := t[0x0A := LoadAIndirect(BC)][0x1A := LoadAIndirect(DE)];
      t := t[0x2A := LoadAHlInc][0x3A := LoadAHlDec];
      ghost var seeded := t;
      t := FillImmediateLoads(t);
      t := FillLoadRows(t);
      t := FillRowSeven(t);
      t := t[0x7E := LoadFromHl(A)];
      t := t[0xE0 := StoreHighImmediate][0xF0 := LoadHighImmediate];
      t := t[0xE2 := StoreHighC][0xF2 := LoadHighC];
      t := t[0xEA := StoreAbsolute][0xFA := LoadAbsolute];
      assert forall k | 0 <= k < 0x100 && !(0x40 <= k < 0x80) && !FilledOutsideBlock(k) :: t[k] == seeded[k];
      TableFinal(t);
      table := t;
    }

    /** `exec(opcode)`: runs the handler stored in the opcode's slot. */
    method Exec(opcode: byte) returns (status: Status)
      requires Valid()
      modifies registers.storage, memory.mem
      ensures Valid()
      ensures Outcome(status, State()) == Execute(table[opcode], old(State()))
      ensures Outcome(status, State()) == Dispatch(opcode, old(State()))
    {
      status := Perform(table[opcode]);
    }

    /** The body of the closure a slot holds, acting on the captured register
        file and memory. */
    method Perform(h: Handler) returns (status: Status)
      requires Valid()
      modifies registers.storage, memory.mem
      ensures Outcome(status, State()) == Execute(h, old(State()))
    {
      match h
      case Empty =>
        status := Unpopulated;
      case Nop =>
        status := Ok;
      case Stop =>
        status := Stopped;
      case Halt =>
        status := Halted;
      case StoreAIndirect(_) =>
        status := PerformIndirect(h);
      case StoreAHlInc =>
        status := PerformIndirect(h);
      case StoreAHlDec =>
        status := PerformIndirect(h);
      case LoadAIndirect(_) =>
        status := PerformIndirect(h);
      case LoadAHlInc =>
        status := PerformIndirect(h);
      case LoadAHlDec =>
        status := PerformIndirect(h);
      case LoadImmediate(_) =>
        status := PerformImmediate(h);
      case StoreImmediateHl =>
        status := PerformImmediate(h);
      case LoadRegister(_, _) =>
        status := PerformBlock(h);
      case LoadFromHl(_) =>
        status := PerformBlock(h);
      case StoreToHl(_) =>
        status := PerformBlock(h);
      case StoreHighImmediate =>
        status := PerformHighPage(h);
      case LoadHighImmediate =>
        status := PerformHighPage(h);
      case StoreHighC =>
        status := PerformHighPage(h);
      case LoadHighC =>
        status := PerformHighPage(h);
      case StoreAbsolute =>
        status := PerformAbsolute(h);
      case LoadAbsolute =>
        status := PerformAbsolute(h);
    }

    /** Lines 22-61: A to and from (BC), (DE) and (HL), with HL post-incremented or post-decremented. */
    method PerformIndirect(h: Handler) returns (status: Status)
      requires Valid() && (h.StoreAIndirect? || h.StoreAHlInc? || h.StoreAHlDec? || h.LoadAIndirect? || h.LoadAHlInc? || h.LoadAHlDec?)
      modifies registers.storage, memory.mem
      ensures Outcome(status, State()) == Execute(h, old(State()))
    {
      match h
      case StoreAIndirect(p) =>
        var ok := memory.Write8(registers.Get16(p), registers.Get8(A));
        status := if ok then Ok else WriteFail;
      case StoreAHlInc =>
        var hl, a := registers.Get16(HL), registers.Get8(A);
        registers.Set16(HL, Inc16(hl));
        var ok := memory.Write8(hl, a);
        status := if ok then Ok else WriteFail;
      case StoreAHlDec =>
        var hl, a := registers.Get16(HL), registers.Get8(A);
        registers.Set16(HL, Dec16(hl));
        var ok := memory.Write8(hl, a);
        status := if ok then Ok else WriteFail;
      case LoadAIndirect(p) =>
        registers.Set8(A, memory.Read8(registers.Get16(p)));
        status := Ok;
      case LoadAHlInc =>
        var hl := registers.Get16(HL);
        registers.Set16(HL, Inc16(hl));
        registers.Set8(A, memory.Read8(hl));
        status := Ok;
      case LoadAHlDec =>
        var hl := registers.Get16(HL);
        registers.Set16(HL, Dec16(hl));
        registers.Set8(A, memory.Read8(hl));
        status := Ok;
    }

    /** Lines 62-79: loads of the immediate byte at the pre-incremented PC. */
    method PerformImmediate(h: Handler) returns (status: Status)
      requires Valid() && (h.LoadImmediate? || h.StoreImmediateHl?)
      modifies registers.storage, memory.mem
      ensures Outcome(status, State()) == Execute(h, old(State()))
    {
      match h
      case LoadImmediate(r) =>
        var pc := Inc16(registers.Get16(PC));
        registers.Set16(PC, pc);
        registers.Set8(r, memory.Read8(pc));
        status := Ok;
      case StoreImmediateHl =>
        var pc := Inc16(registers.Get16(PC));
        registers.Set16(PC, pc);
        var ok := memory.Write8(registers.Get16(HL), memory.Read8(pc));
        status := if ok then Ok else WriteFail;
    }

    /** Lines 80-121: LD r,r', LD r,(HL) and LD (HL),r. */
    method PerformBlock(h: Handler) returns (status: Status)
      requires Valid() && (h.LoadRegister? || h.LoadFromHl? || h.StoreToHl?)
      modifies registers.storage, memory.mem
      ensures Outcome(status, State()) == Execute(h, old(State()))
    {
      match h
      case LoadRegister(d, s) =>
        registers.Set8(d, registers.Get8(s));
        status := Ok;
      case LoadFromHl(d) =>
        registers.Set8(d, memory.Read8(registers.Get16(HL)));
        status := Ok;
      case StoreToHl(s) =>
        var ok := memory.Write8(registers.Get16(HL), registers.Get8(s));
        status := if ok then Ok else WriteFail;
    }

    /** Lines 122-141: A to and from 0xFF00 plus an immediate byte or C. */
    method PerformHighPage(h: Handler) returns (status: Status)
      requires Valid() && (h.StoreHighImmediate? || h.LoadHighImmediate? || h.StoreHighC? || h.LoadHighC?)
      modifies registers.storage, memory.mem
      ensures Outcome(status, State()) == Execute(h, old(State()))
    {
      match h
      case StoreHighImmediate =>
        var pc := Inc16(registers.Get16(PC));
        registers.Set16(PC, pc);
        var ok := memory.Write8(0xFF00 + memory.Read8(pc), registers.Get8(A));
        status := if ok then Ok else WriteFail;
      case LoadHighImmediate =>
        var pc := Inc16(registers.Get16(PC));
        registers.Set16(PC, pc);
        registers.Set8(A, memory.Read8(0xFF00 + memory.Read8(pc)));
        status := Ok;
      case StoreHighC =>
        var ok := memory.Write8(0xFF00 + registers.Get8(C), registers.Get8(A));
        status := if ok then Ok else WriteFail;
      case LoadHighC =>
        registers.Set8(A, memory.Read8(0xFF00 + registers.Get8(C)));
        status := Ok;
    }

    /** Lines 142-153: A to and from the address built from two immediate reads, as written. */
    method PerformAbsolute(h: Handler) returns (status: Status)
      requires Valid() && (h.StoreAbsolute? || h.LoadAbsolute?)
      modifies registers.storage, memory.mem
      ensures Outcome(status, State()) == Execute(h, old(State()))
    {
      match h
      case StoreAbsolute =>
        var first := Inc16(registers.Get16(PC));
        registers.Set16(PC, first);
        var lo := memory.Read8(first);
        var second := Inc16(first);
        registers.Set16(PC, second);
        var hi := memory.Read8(ShiftedAddress(second));
        var ok := memory.Write8(lo as int + hi, registers.Get8(A));
        status := if ok then Ok else WriteFail;
      case LoadAbsolute =>
        var first := Inc16(registers.Get16(PC));
        registers.Set16(PC, first);
        var lo := memory.Read8(first);
        var second := Inc16(first);
        registers.Set16(PC, second);
        var hi := memory.Read8(ShiftedAddress(second));
        registers.Set8(A, memory.Read8(lo as int + hi));
        status := Ok;
    }
  }
}
