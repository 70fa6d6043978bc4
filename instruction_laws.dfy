/** Properties of the primary opcode table: what each family of handlers
    does to the register file and the memory, and what it leaves alone. */
module InstructionLaws {
  import opened Bytes
  import opened Registers
  import opened Memory
  import opened Instructions

  /** NOP returns OK and changes nothing, PC included. */
  lemma NopChangesNothing(st: Machine)
    ensures Dispatch(0x00, st) == Outcome(Ok, st)
  {
  }

  /** STOP and HALT only report themselves; they change no state. */
  lemma StopAndHaltChangeNothing(st: Machine)
    ensures Dispatch(0x10, st) == Outcome(Stopped, st)
    ensures Dispatch(0x76, st) == Outcome(Halted, st)
  {
  }

  /** Slots the constructor never fills throw; nothing changes. */
  lemma EmptySlotsThrow(op: byte, st: Machine)
    requires HandlerFor(op) == Empty
    ensures Dispatch(op, st) == Outcome(Unpopulated, st)
  {
  }

  /** The slots that hold a handler: the whole block 0x40-0x7F and twenty
      others. Every other slot, 0x0E, 0x1E, 0x2E and 0x3E among them, is empty. */
  lemma PopulatedSlots(op: byte)
    ensures HandlerFor(op) != Empty <==> (0x40 <= op < 0x80 || FilledOutsideBlock(op))
  {
    if 0x40 <= op < 0x80 {
      var d, s := OperandOfCode((op - 0x40) / 8), OperandOfCode(op % 8);
      assert BlockLoad(op) != Empty;
    }
  }

  /** What the loop at lines 62-79 leaves in the immediate-load slots. */
  lemma ImmediateSlots()
    ensures HandlerFor(0x06) == LoadImmediate(C)
    ensures HandlerFor(0x16) == LoadImmediate(E)
    ensures HandlerFor(0x26) == LoadImmediate(L)
    ensures HandlerFor(0x36) == StoreImmediateHl
    ensures HandlerFor(0x0E) == Empty && HandlerFor(0x1E) == Empty
    ensures HandlerFor(0x2E) == Empty && HandlerFor(0x3E) == Empty
  {
  }

  /** LD r,r' (0x40-0x7F outside the (HL) row and columns): the destination
      is the register whose `Register8Id` is bits 5-3, the source the one
      whose id is bits 2-0. Only the destination changes, and it gets the
      source's old value; memory, PC and SP are unchanged. */
  lemma RegisterToRegister(op: byte, st: Machine, d: Reg8, s: Reg8)
    requires 0x40 <= op < 0x80 && Code(d) == (op - 0x40) / 8 && Code(s) == op % 8
    ensures Dispatch(op, st).status == Ok
    ensures Dispatch(op, st).next.mem == st.mem
    ensures forall r: Reg8 :: Reg8Of(Dispatch(op, st).next, r) == if r == d then Reg8Of(st, s) else Reg8Of(st, r)
    ensures Reg16Of(Dispatch(op, st).next, PC) == Reg16Of(st, PC)
    ensures Reg16Of(Dispatch(op, st).next, SP) == Reg16Of(st, SP)
  {
    CodeRoundTrip(d, d);
    CodeRoundTrip(s, s);
    assert HandlerFor(op) == LoadRegister(d, s);
    var next := Dispatch(op, st).next;
    forall r: Reg8 ensures Reg8Of(next, r) == if r == d then Reg8Of(st, s) else Reg8Of(st, r) {
      Write8Read8(st.regs, d, Reg8Of(st, s), r);
    }
    Write8Read16(st.regs, d, Reg8Of(st, s), PC);
    Write8Read16(st.regs, d, Reg8Of(st, s), SP);
  }

  /** LD r,(HL) (column 6 or 0xE of rows 0x4-0x7, except HALT): the
      destination gets the byte at HL; memory and every other register,
      PC and SP included, are unchanged. */
  lemma LoadFromHlLaw(op: byte, st: Machine, d: Reg8)
    requires 0x40 <= op < 0x80 && op % 8 == 6 && Code(d) == (op - 0x40) / 8
    ensures Dispatch(op, st).status == Ok
    ensures Dispatch(op, st).next.mem == st.mem
    ensures forall r: Reg8 ::
      Reg8Of(Dispatch(op, st).next, r) == if r == d then Load8(st.mem, Reg16Of(st, HL)) else Reg8Of(st, r)
    ensures Reg16Of(Dispatch(op, st).next, PC) == Reg16Of(st, PC)
    ensures Reg16Of(Dispatch(op, st).next, SP) == Reg16Of(st, SP)
  {
    CodeRoundTrip(d, d);
    assert HandlerFor(op) == LoadFromHl(d);
    var v := Load8(st.mem, Reg16Of(st, HL));
    forall r: Reg8 ensures Reg8Of(Dispatch(op, st).next, r) == if r == d then v else Reg8Of(st, r) {
      Write8Read8(st.regs, d, v, r);
    }
    Write8Read16(st.regs, d, v, PC);
    Write8Read16(st.regs, d, v, SP);
  }

  /** LD (HL),r (0x70-0x75 and 0x77): the register is written to the byte at
      HL, nothing else in memory changes, and no register changes. */
  lemma StoreToHlLaw(op: byte, st: Machine, s: Reg8)
    requires 0x70 <= op < 0x78 && Code(s) == op % 8
    ensures Dispatch(op, st).status == Ok
    ensures Dispatch(op, st).next.regs == st.regs
    ensures Load8(Dispatch(op, st).next.mem, Reg16Of(st, HL)) == Reg8Of(st, s)
    ensures forall a: word | a != Reg16Of(st, HL) :: Load8(Dispatch(op, st).next.mem, a) == Load8(st.mem, a)
  {
    CodeRoundTrip(s, s);
    assert HandlerFor(op) == StoreToHl(s);
  }

  /** LD (BC),A and LD (DE),A store A at the pair's address; LD A,(BC) and
      LD A,(DE) load A from it. Only that byte, or only A, changes. */
  lemma IndirectLaw(st: Machine)
    ensures var o := Dispatch(0x02, st);
      o.status == Ok && o.next.regs == st.regs &&
      o.next.mem == Store8(st.mem, Reg16Of(st, BC), Reg8Of(st, A)).mem
    ensures var o := Dispatch(0x12, st);
      o.status == Ok && o.next.regs == st.regs &&
      o.next.mem == Store8(st.mem, Reg16Of(st, DE), Reg8Of(st, A)).mem
    ensures Dispatch(0x0A, st) == Outcome(Ok, WithReg8(st, A, Load8(st.mem, Reg16Of(st, BC))))
    ensures Dispatch(0x1A, st) == Outcome(Ok, WithReg8(st, A, Load8(st.mem, Reg16Of(st, DE))))
  {
  }

  /** LD (HL+),A and LD (HL-),A: A is stored at the OLD HL, then HL moves one
      up or down, wrapping modulo 2^16. No other register changes: B, C, D, E,
      A, BC, DE, PC and SP keep their values. */
  lemma StoreHlStepLaw(st: Machine)
    ensures var hl, o := Reg16Of(st, HL), Dispatch(0x22, st);
      o.status == Ok && o.next.mem == Store8(st.mem, hl, Reg8Of(st, A)).mem &&
      Reg16Of(o.next, HL) == Inc16(hl) &&
      (forall r: Reg8 | !InPair(r, HL) :: Reg8Of(o.next, r) == Reg8Of(st, r)) &&
      (forall p: Reg16 | p != HL :: Reg16Of(o.next, p) == Reg16Of(st, p))
    ensures var hl, o := Reg16Of(st, HL), Dispatch(0x32, st);
      o.status == Ok && o.next.mem == Store8(st.mem, hl, Reg8Of(st, A)).mem &&
      Reg16Of(o.next, HL) == Dec16(hl) &&
      (forall r: Reg8 | !InPair(r, HL) :: Reg8Of(o.next, r) == Reg8Of(st, r)) &&
      (forall p: Reg16 | p != HL :: Reg16Of(o.next, p) == Reg16Of(st, p))
  {
    var hl := Reg16Of(st, HL);
    Write16Read16(st.regs, HL, Inc16(hl), HL);
    Write16Read16(st.regs, HL, Dec16(hl), HL);
    forall r: Reg8 | !InPair(r, HL)
      ensures Reg8Of(Dispatch(0x22, st).next, r) == Reg8Of(st, r)
      ensures Reg8Of(Dispatch(0x32, st).next, r) == Reg8Of(st, r)
    {
      Write16Read8(st.regs, HL, Inc16(hl), r);
      Write16Read8(st.regs, HL, Dec16(hl), r);
    }
    forall p: Reg16 | p != HL
      ensures Reg16Of(Dispatch(0x22, st).next, p) == Reg16Of(st, p)
      ensures Reg16Of(Dispatch(0x32, st).next, p) == Reg16Of(st, p)
    {
      Write16Read16(st.regs, HL, Inc16(hl), p);
      Write16Read16(st.regs, HL, Dec16(hl), p);
    }
  }

  /** LD A,(HL+) and LD A,(HL-): A is loaded from the OLD HL, then HL moves
      one up or down, wrapping modulo 2^16. Memory is unchanged, and so are B,
      C, D, E, BC, DE, PC and SP. */
  lemma LoadHlStepLaw(st: Machine)
    ensures var hl, o := Reg16Of(st, HL), Dispatch(0x2A, st);
      o.status == Ok && o.next.mem == st.mem &&
      Reg8Of(o.next, A) == Load8(st.mem, hl) && Reg16Of(o.next, HL) == Inc16(hl) &&
      (forall r: Reg8 | r != A && !InPair(r, HL) :: Reg8Of(o.next, r) == Reg8Of(st, r)) &&
      (forall p: Reg16 | p != HL :: Reg16Of(o.next, p) == Reg16Of(st, p))
    ensures var hl, o := Reg16Of(st, HL), Dispatch(0x3A, st);
      o.status == Ok && o.next.mem == st.mem &&
      Reg8Of(o.next, A) == Load8(st.mem, hl) && Reg16Of(o.next, HL) == Dec16(hl) &&
      (forall r: Reg8 | r != A && !InPair(r, HL) :: Reg8Of(o.next, r) == Reg8Of(st, r)) &&
      (forall p: Reg16 | p != HL :: Reg16Of(o.next, p) == Reg16Of(st, p))
  {
    var hl := Reg16Of(st, HL);
    var v := Load8(st.mem, hl);
    var up, down := Write16(st.regs, HL, Inc16(hl)), Write16(st.regs, HL, Dec16(hl));
    Write8Read16(up, A, v, HL);
    Write8Read16(down, A, v, HL);
    Write16Read16(st.regs, HL, Inc16(hl), HL);
    Write16Read16(st.regs, HL, Dec16(hl), HL);
    forall r: Reg8 | r != A && !InPair(r, HL)
      ensures Reg8Of(Dispatch(0x2A, st).next, r) == Reg8Of(st, r)
      ensures Reg8Of(Dispatch(0x3A, st).next, r) == Reg8Of(st, r)
    {
      Write8Read8(up, A, v, r);
      Write8Read8(down, A, v, r);
      Write16Read8(st.regs, HL, Inc16(hl), r);
      Write16Read8(st.regs, HL, Dec16(hl), r);
    }
    forall p: Reg16 | p != HL
      ensures Reg16Of(Dispatch(0x2A, st).next, p) == Reg16Of(st, p)
      ensures Reg16Of(Dispatch(0x3A, st).next, p) == Reg16Of(st, p)
    {
      Write8Read16(up, A, v, p);
      Write8Read16(down, A, v, p);
      Write16Read16(st.regs, HL, Inc16(hl), p);
      Write16Read16(st.regs, HL, Dec16(hl), p);
    }
  }

  /** The address the 0xFF00-page forms use: 0xFF00 plus the immediate byte
      (0xE0, 0xF0) or plus C (0xE2, 0xF2). */
  function HighPageAddress(op: byte, st: Machine): (a: word)
    requires op in {0xE0, 0xF0, 0xE2, 0xF2}
    ensures 0xFF00 <= a <= 0xFFFF
  {
    if op == 0xE0 || op == 0xF0 then 0xFF00 + Load8(st.mem, Inc16(Reg16Of(st, PC)))
    else 0xFF00 + Reg8Of(st, C)
  }

  /** LD (0xFF00+n),A and LD (0xFF00+C),A write A to the 0xFF00 page and
      nowhere else; LD A,(0xFF00+n) and LD A,(0xFF00+C) load A from it and
      leave memory unchanged. Only A (for the loads) and PC (for the forms
      with an immediate) change: 0xE2 leaves every register as it was. */
  lemma HighPageLaw(op: byte, st: Machine)
    requires op in {0xE0, 0xF0, 0xE2, 0xF2}
    ensures Dispatch(op, st).status == Ok
    ensures op in {0xE0, 0xE2} ==>
      Dispatch(op, st).next.mem == Store8(st.mem, HighPageAddress(op, st), Reg8Of(st, A)).mem
    ensures op in {0xF0, 0xF2} ==>
      Dispatch(op, st).next.mem == st.mem &&
      Reg8Of(Dispatch(op, st).next, A) == Load8(st.mem, HighPageAddress(op, st))
    ensures forall a: word | a < 0xFF00 :: Load8(Dispatch(op, st).next.mem, a) == Load8(st.mem, a)
    ensures forall r: Reg8 | r != A || op in {0xE0, 0xE2} :: Reg8Of(Dispatch(op, st).next, r) == Reg8Of(st, r)
    ensures forall p: Reg16 | p != PC :: Reg16Of(Dispatch(op, st).next, p) == Reg16Of(st, p)
    ensures Reg16Of(Dispatch(op, st).next, PC) ==
      if op in {0xE0, 0xF0} then Inc16(Reg16Of(st, PC)) else Reg16Of(st, PC)
    ensures op == 0xE2 ==> Dispatch(op, st).next.regs == st.regs
  {
    var pc := Reg16Of(st, PC);
    var st1 := AdvancePc(st);
    Write16Read8(st.regs, PC, Inc16(pc), A);
    Write16Read16(st.regs, PC, Inc16(pc), PC);
    var next := Dispatch(op, st).next;
    var v := Load8(st.mem, HighPageAddress(op, st));
    forall r: Reg8 | r != A || op in {0xE0, 0xE2}
      ensures Reg8Of(next, r) == Reg8Of(st, r)
    {
      Write16Read8(st.regs, PC, Inc16(pc), r);
      Write8Read8(st.regs, A, v, r);
      Write8Read8(st1.regs, A, v, r);
    }
    forall p: Reg16 | p != PC
      ensures Reg16Of(next, p) == Reg16Of(st, p)
    {
      Write16Read16(st.regs, PC, Inc16(pc), p);
      Write8Read16(st.regs, A, v, p);
      Write8Read16(st1.regs, A, v, p);
    }
    Write8Read16(st.regs, A, v, PC);
    Write8Read16(st1.regs, A, v, PC);
  }

  /** The address LD (nn),A and LD A,(nn) access, as written: with PC at its
      value on entry to the handler, the low operand is the byte at PC+1 (two
      bytes after the opcode once the fetch loop has run), and the "high"
      operand is the byte read at the second incremented PC shifted left by
      eight. The sum is therefore at most 0x1FE: the handlers never reach the
      16-bit address the operand bytes spell out unless it happens to equal
      this sum. */
  lemma AbsoluteAsWritten(st: Machine)
    ensures var pc := Reg16Of(st, PC);
      AbsoluteTarget(st) == Load8(st.mem, Inc16(pc)) + Load8(st.mem, (Inc16(Inc16(pc)) % 0x100) * 0x100)
    ensures AbsoluteTarget(st) < 0x200
  {
    var pc2 := Inc16(Inc16(Reg16Of(st, PC)));
    assert ShiftedAddress(pc2) == (pc2 % 0x100) * 0x100;
  }

  /** LD (nn),A (0xEA): A is written at the address above, PC moves two bytes
      on, and no other register changes. */
  lemma StoreAbsoluteLaw(st: Machine)
    ensures Dispatch(0xEA, st).status == Ok
    ensures Dispatch(0xEA, st).next.mem == Store8(st.mem, AbsoluteTarget(st), Reg8Of(st, A)).mem
    ensures forall r: Reg8 :: Reg8Of(Dispatch(0xEA, st).next, r) == Reg8Of(st, r)
    ensures forall p: Reg16 | p != PC :: Reg16Of(Dispatch(0xEA, st).next, p) == Reg16Of(st, p)
    ensures Reg16Of(Dispatch(0xEA, st).next, PC) == Inc16(Inc16(Reg16Of(st, PC)))
  {
    var pc := Reg16Of(st, PC);
    var st1 := AdvancePc(st);
    Write16Read16(st.regs, PC, Inc16(pc), PC);
    Write16Read16(st1.regs, PC, Inc16(Inc16(pc)), PC);
    forall r: Reg8
      ensures Reg8Of(Dispatch(0xEA, st).next, r) == Reg8Of(st, r)
    {
      Write16Read8(st.regs, PC, Inc16(pc), r);
      Write16Read8(st1.regs, PC, Inc16(Inc16(pc)), r);
    }
    forall p: Reg16 | p != PC
      ensures Reg16Of(Dispatch(0xEA, st).next, p) == Reg16Of(st, p)
    {
      Write16Read16(st.regs, PC, Inc16(pc), p);
      Write16Read16(st1.regs, PC, Inc16(Inc16(pc)), p);
    }
  }

  /** LD A,(nn) (0xFA): A is loaded from the address above, PC moves two
      bytes on, memory is unchanged and no other register changes. */
  lemma LoadAbsoluteLaw(st: Machine)
    ensures Dispatch(0xFA, st).status == Ok
    ensures Dispatch(0xFA, st).next.mem == st.mem
    ensures Reg8Of(Dispatch(0xFA, st).next, A) == Load8(st.mem, AbsoluteTarget(st))
    ensures forall r: Reg8 | r != A :: Reg8Of(Dispatch(0xFA, st).next, r) == Reg8Of(st, r)
    ensures forall p: Reg16 | p != PC :: Reg16Of(Dispatch(0xFA, st).next, p) == Reg16Of(st, p)
    ensures Reg16Of(Dispatch(0xFA, st).next, PC) == Inc16(Inc16(Reg16Of(st, PC)))
  {
    var pc := Reg16Of(st, PC);
    var st1 := AdvancePc(st);
    var st2 := AdvancePc(st1);
    var v := Load8(st.mem, AbsoluteTarget(st));
    Write16Read16(st.regs, PC, Inc16(pc), PC);
    Write16Read16(st1.regs, PC, Inc16(Inc16(pc)), PC);
    Write8Read16(st2.regs, A, v, PC);
    forall r: Reg8 | r != A
      ensures Reg8Of(Dispatch(0xFA, st).next, r) == Reg8Of(st, r)
    {
      Write16Read8(st.regs, PC, Inc16(pc), r);
      Write16Read8(st1.regs, PC, Inc16(Inc16(pc)), r);
      Write8Read8(st2.regs, A, v, r);
    }
    forall p: Reg16 | p != PC
      ensures Reg16Of(Dispatch(0xFA, st).next, p) == Reg16Of(st, p)
    {
      Write16Read16(st.regs, PC, Inc16(pc), p);
      Write16Read16(st1.regs, PC, Inc16(Inc16(pc)), p);
      Write8Read16(st2.regs, A, v, p);
    }
  }

  /** LD r,n (0x06, 0x16, 0x26) and LD (HL),n (0x36): the operand is the byte
      at PC+1, PC being its value on entry to the handler, and PC is left
      there. LD r,n puts it in the slot's register (C, E or L), changing no
      other 8-bit register and no memory; LD (HL),n writes it at HL, changing
      no 8-bit register. Neither changes SP. */
  lemma ImmediateLoadLaw(op: byte, st: Machine)
    requires op in {0x06, 0x16, 0x26, 0x36}
    ensures var pc, o := Reg16Of(st, PC), Dispatch(op, st);
      o.status == Ok &&
      Reg16Of(o.next, PC) == Inc16(pc) && Reg16Of(o.next, SP) == Reg16Of(st, SP)
    ensures op != 0x36 ==>
      var n, o := Load8(st.mem, Inc16(Reg16Of(st, PC))), Dispatch(op, st);
      o.next.mem == st.mem &&
      forall r: Reg8 :: Reg8Of(o.next, r) == if r == ImmediateTarget(op) then n else Reg8Of(st, r)
    ensures op == 0x36 ==>
      var n, o := Load8(st.mem, Inc16(Reg16Of(st, PC))), Dispatch(op, st);
      o.next.mem == Store8(st.mem, Reg16Of(st, HL), n).mem &&
      forall r: Reg8 :: Reg8Of(o.next, r) == Reg8Of(st, r)
  {
    var pc := Reg16Of(st, PC);
    var st1 := AdvancePc(st);
    var n := Load8(st.mem, Inc16(pc));
    Write16Read16(st.regs, PC, Inc16(pc), PC);
    Write16Read16(st.regs, PC, Inc16(pc), SP);
    Write16Read16(st.regs, PC, Inc16(pc), HL);
    if op != 0x36 {
      var d := ImmediateTarget(op);
      Write8Read16(st1.regs, d, n, PC);
      Write8Read16(st1.regs, d, n, SP);
      forall r: Reg8
        ensures Reg8Of(Dispatch(op, st).next, r) == if r == d then n else Reg8Of(st, r)
      {
        Write16Read8(st.regs, PC, Inc16(pc), r);
        Write8Read8(st1.regs, d, n, r);
      }
    } else {
      forall r: Reg8
        ensures Reg8Of(Dispatch(op, st).next, r) == Reg8Of(st, r)
      {
        Write16Read8(st.regs, PC, Inc16(pc), r);
      }
    }
  }

  /** Immediate operands a handler consumes: what it adds to PC. */
  function OperandBytes(h: Handler): nat
  {
    match h
    case LoadImmediate(_) => 1
    case StoreImmediateHl => 1
    case StoreHighImmediate => 1
    case LoadHighImmediate => 1
    case StoreAbsolute => 2
    case LoadAbsolute => 2
    case _ => 0
  }

  /** Every handler moves PC by exactly the number of immediate bytes it
      reads (1 for 0x06, 0x16, 0x26, 0x36, 0xE0, 0xF0; 2 for 0xEA, 0xFA;
      0 for every other slot), wrapping modulo 2^16. */
  lemma PcAdvance(op: byte, st: Machine)
    ensures Reg16Of(Dispatch(op, st).next, PC) == (Reg16Of(st, PC) + OperandBytes(HandlerFor(op))) % WordModulus
  {
    var h := HandlerFor(op);
    if OperandBytes(h) == 0 {
      FixedHandlerFrame(h, st);
    } else {
      OperandHandlerFrame(h, st);
    }
  }

  /** No handler touches SP. */
  lemma SpUnchanged(op: byte, st: Machine)
    ensures Reg16Of(Dispatch(op, st).next, SP) == Reg16Of(st, SP)
  {
    var h := HandlerFor(op);
    if OperandBytes(h) == 0 {
      FixedHandlerFrame(h, st);
    } else {
      OperandHandlerFrame(h, st);
    }
  }

  /** The handlers without an immediate operand leave PC and SP alone. */
  lemma FixedHandlerFrame(h: Handler, st: Machine)
    requires OperandBytes(h) == 0
    ensures Reg16Of(Execute(h, st).next, PC) == Reg16Of(st, PC) % WordModulus
    ensures Reg16Of(Execute(h, st).next, SP) == Reg16Of(st, SP)
  {
    var hl := Reg16Of(st, HL);
    match h
    case LoadRegister(d, s) =>
      Write8Read16(st.regs, d, Reg8Of(st, s), PC);
      Write8Read16(st.regs, d, Reg8Of(st, s), SP);
    case LoadFromHl(d) =>
      Write8Read16(st.regs, d, Load8(st.mem, hl), PC);
      Write8Read16(st.regs, d, Load8(st.mem, hl), SP);
    case LoadAIndirect(p) =>
      Write8Read16(st.regs, A, Load8(st.mem, Reg16Of(st, p)), PC);
      Write8Read16(st.regs, A, Load8(st.mem, Reg16Of(st, p)), SP);
    case LoadHighC =>
      Write8Read16(st.regs, A, Load8(st.mem, 0xFF00 + Reg8Of(st, C)), PC);
      Write8Read16(st.regs, A, Load8(st.mem, 0xFF00 + Reg8Of(st, C)), SP);
    case StoreAHlInc =>
      Write16Read16(st.regs, HL, Inc16(hl), PC);
      Write16Read16(st.regs, HL, Inc16(hl), SP);
    case StoreAHlDec =>
      Write16Read16(st.regs, HL, Dec16(hl), PC);
      Write16Read16(st.regs, HL, Dec16(hl), SP);
    case LoadAHlInc =>
      Write16Read16(st.regs, HL, Inc16(hl), PC);
      Write16Read16(st.regs, HL, Inc16(hl), SP);
      Write8Read16(Write16(st.regs, HL, Inc16(hl)), A, Load8(st.mem, hl), PC);
      Write8Read16(Write16(st.regs, HL, Inc16(hl)), A, Load8(st.mem, hl), SP);
    case LoadAHlDec =>
      Write16Read16(st.regs, HL, Dec16(hl), PC);
      Write16Read16(st.regs, HL, Dec16(hl), SP);
      Write8Read16(Write16(st.regs, HL, Dec16(hl)), A, Load8(st.mem, hl), PC);
      Write8Read16(Write16(st.regs, HL, Dec16(hl)), A, Load8(st.mem, hl), SP);
    case _ =>
  }

  /** The handlers with immediate operands move PC past them and leave SP alone. */
  lemma OperandHandlerFrame(h: Handler, st: Machine)
    requires OperandBytes(h) > 0
    ensures Reg16Of(Execute(h, st).next, PC) == (Reg16Of(st, PC) + OperandBytes(h)) % WordModulus
    ensures Reg16Of(Execute(h, st).next, SP) == Reg16Of(st, SP)
  {
    var pc := Reg16Of(st, PC);
    var st1 := AdvancePc(st);
    Write16Read16(st.regs, PC, Inc16(pc), PC);
    Write16Read16(st.regs, PC, Inc16(pc), SP);
    match h
    case LoadImmediate(r) =>
      Write8Read16(st1.regs, r, Immediate(st1), PC);
      Write8Read16(st1.regs, r, Immediate(st1), SP);
    case LoadAbsolute =>
      Write16Read16(st1.regs, PC, Inc16(Inc16(pc)), PC);
      Write16Read16(st1.regs, PC, Inc16(Inc16(pc)), SP);
      Write8Read16(AdvancePc(st1).regs, A, Load8(st.mem, AbsoluteTarget(st)), PC);
      Write8Read16(AdvancePc(st1).regs, A, Load8(st.mem, AbsoluteTarget(st)), SP);
    case StoreAbsolute =>
      Write16Read16(st1.regs, PC, Inc16(Inc16(pc)), PC);
      Write16Read16(st1.regs, PC, Inc16(Inc16(pc)), SP);
    case LoadHighImmediate =>
      Write8Read16(st1.regs, A, Load8(st1.mem, 0xFF00 + Immediate(st1)), PC);
      Write8Read16(st1.regs, A, Load8(st1.mem, 0xFF00 + Immediate(st1)), SP);
    case _ =>
  }

  /** A writing handler returns WRITE_FAIL exactly when `write8` reports
      failure; this bus never does, so no opcode returns WRITE_FAIL. */
  lemma NeverWriteFail(op: byte, st: Machine)
    ensures Dispatch(op, st).status != WriteFail
  {
  }

  /** Only the handlers that write through the bus change memory, and each
      of them changes at most one byte. */
  lemma AtMostOneByteWritten(op: byte, st: Machine)
    ensures forall a, b: word | a != b ::
      Load8(Dispatch(op, st).next.mem, a) == Load8(st.mem, a) || Load8(Dispatch(op, st).next.mem, b) == Load8(st.mem, b)
  {
  }
}
