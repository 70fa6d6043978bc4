/** Properties of the fetch-execute loop of `cpu.cpp`. */
module ProcessorLaws {
  import opened Bytes
  import opened Registers
  import opened Memory
  import opened Instructions
  import opened InstructionLaws
  import opened Processor

  /** Fetching a NOP: only PC changes, by one, wrapping from 0xFFFF to 0. */
  lemma StepNop(st: Machine)
    requires Load8(st.mem, Reg16Of(st, PC)) == 0x00
    ensures Transition(st) == Outcome(Ok, WithReg16(st, PC, Inc16(Reg16Of(st, PC))))
    ensures Reg16Of(st, PC) == 0xFFFF ==> Reg16Of(Transition(st).next, PC) == 0
  {
    Write16Read16(st.regs, PC, Inc16(Reg16Of(st, PC)), PC);
  }

  /** Whatever the opcode at PC, one iteration moves PC past the opcode and
      past the immediate bytes its handler reads. */
  lemma StepPcAdvance(st: Machine)
    ensures var pc := Reg16Of(st, PC);
      Reg16Of(Transition(st).next, PC) == (pc + 1 + OperandBytes(HandlerFor(Load8(st.mem, pc)))) % WordModulus
  {
    var pc := Reg16Of(st, PC);
    var fetched := WithReg16(st, PC, Inc16(pc));
    Write16Read16(st.regs, PC, Inc16(pc), PC);
    PcAdvance(Load8(st.mem, pc), fetched);
    var x: nat := pc as int + 1;
    ModAddLeft(x, OperandBytes(HandlerFor(Load8(st.mem, pc))));
  }

  lemma ModAddLeft(x: nat, k: nat)
    ensures (x % WordModulus + k) % WordModulus == (x + k) % WordModulus
  {
  }

  /** LD (0xFF00+n),A fetched at `p`: the loop has already moved PC to p+1,
      and the handler's pre-increment reads the operand from p+2, where PC is
      left. */
  lemma StepHighImmediateStore(st: Machine)
    requires Load8(st.mem, Reg16Of(st, PC)) == 0xE0
    ensures var p := Reg16Of(st, PC);
      var n := Load8(st.mem, Inc16(Inc16(p)));
      Transition(st).status == Ok &&
      Transition(st).next.mem == Store8(st.mem, 0xFF00 + n, Reg8Of(st, A)).mem &&
      Reg16Of(Transition(st).next, PC) == Inc16(Inc16(p))
  {
    var p := Reg16Of(st, PC);
    var fetched := WithReg16(st, PC, Inc16(p));
    Write16Read16(st.regs, PC, Inc16(p), PC);
    Write16Read8(st.regs, PC, Inc16(p), A);
    Write16Read16(fetched.regs, PC, Inc16(Inc16(p)), PC);
  }

  /** The loop ignores the status: after HALT or STOP it goes on with the
      next byte. */
  lemma RunIgnoresHaltAndStop(st: Machine, n: nat)
    requires n > 0 && Load8(st.mem, Reg16Of(st, PC)) in {0x10, 0x76}
    ensures RunSteps(st, n) == RunSteps(WithReg16(st, PC, Inc16(Reg16Of(st, PC))), n - 1)
  {
  }

  /** An empty slot ends the loop with the exception; PC has been moved past
      the opcode and nothing else has changed. */
  lemma EmptySlotEndsRun(st: Machine, n: nat)
    requires n > 0 && HandlerFor(Load8(st.mem, Reg16Of(st, PC))) == Empty
    ensures RunSteps(st, n) == (WithReg16(st, PC, Inc16(Reg16Of(st, PC))), true)
  {
  }

  /** Running m + n iterations is running m, then n more unless the
      exception ended the first run. */
  lemma {:induction false} RunStepsSplit(st: Machine, m: nat, n: nat)
    ensures RunSteps(st, m + n) ==
      if RunSteps(st, m).1 then RunSteps(st, m) else RunSteps(RunSteps(st, m).0, n)
    decreases m
  {
    if m > 0 {
      var o := Transition(st);
      if o.status != Unpopulated {
        RunStepsSplit(o.next, m - 1, n);
        assert RunSteps(st, m + n) == RunSteps(o.next, (m - 1) + n);
        assert RunSteps(st, m) == RunSteps(o.next, m - 1);
      } else {
        assert RunSteps(st, m + n) == (o.next, true) == RunSteps(st, m);
      }
    }
  }

  /** Memory holding only NOP, STOP and HALT: the loop never leaves, and n
      iterations only move PC forward by n, wrapping modulo 2^16. */
  lemma {:induction false} ControlSled(st: Machine, n: nat)
    requires forall a: word :: Load8(st.mem, a) in {0x00, 0x10, 0x76}
    ensures RunSteps(st, n) == (WithReg16(st, PC, (Reg16Of(st, PC) + n) % WordModulus), false)
    decreases n
  {
    var pc := Reg16Of(st, PC);
    if n == 0 {
      assert pc % WordModulus == pc;
      assert Write16(st.regs, PC, pc) == st.regs;
    } else {
      var fetched := WithReg16(st, PC, Inc16(pc));
      var op := Load8(st.mem, pc);
      NopChangesNothing(fetched);
      StopAndHaltChangeNothing(fetched);
      assert Transition(st) == Outcome(Dispatch(op, fetched).status, fetched);
      ControlSled(fetched, n - 1);
      Write16Read16(st.regs, PC, Inc16(pc), PC);
      var x: nat := pc as int + 1;
      ModAddLeft(x, n - 1);
      Write16Twice(st.regs, PC, Inc16(pc), (pc + n) % WordModulus);
    }
  }
}
