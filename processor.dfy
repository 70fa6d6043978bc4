/** The fetch-execute engine of `cpu.cpp`.

    `Cpu::run` loops forever: it reads the opcode at PC, post-increments PC
    and hands the opcode to the instruction set, discarding the status. The
    model has one iteration as `Step` and a bounded number of them as `RunN`.
    An empty slot throws `std::bad_function_call`, which leaves `run`; `RunN`
    stops there and reports it. */
module Processor {
  import opened Bytes
  import opened Registers
  import opened Memory
  import opened Instructions

  /** One iteration of the loop: fetch at PC, PC++, dispatch. It throws
      exactly when the fetched byte selects an empty slot, and then only PC
      has moved, past the opcode. */
  function Transition(st: Machine): (o: Outcome)
    ensures var op := Load8(st.mem, Reg16Of(st, PC));
      o.status == Unpopulated <==> !(0x40 <= op < 0x80 || FilledOutsideBlock(op))
    ensures o.status == Unpopulated ==> o.next == WithReg16(st, PC, Inc16(Reg16Of(st, PC)))
    ensures o.status != WriteFail
  {
    var pc := Reg16Of(st, PC);
    Dispatch(Load8(st.mem, pc), WithReg16(st, PC, Inc16(pc)))
  }

  /** `n` iterations of the loop, or fewer when an empty slot is dispatched:
      the state reached, and whether the exception ended the loop. When it
      did, the byte just below the final PC is the opcode whose slot is empty. */
  function RunSteps(st: Machine, n: nat): (r: (Machine, bool))
    ensures n == 0 ==> r == (st, false)
    ensures r.1 ==> n > 0
    ensures r.1 ==> !(0x40 <= Load8(r.0.mem, Dec16(Reg16Of(r.0, PC))) < 0x80 ||
                      FilledOutsideBlock(Load8(r.0.mem, Dec16(Reg16Of(r.0, PC)))))
    decreases n
  {
    if n == 0 then (st, false)
    else
      var o := Transition(st);
      if o.status == Unpopulated then (o.next, true) else RunSteps(o.next, n - 1)
  }

  /** The CPU: the register file it owns, the bus and the instruction set
      wired to both. */
  class Cpu {
    const registers: CpuRegisters
    const memory: MemoryMap
    const instructions: InstructionSet

    ghost predicate Valid()
    {
      registers.Valid() && memory.Valid() && instructions.Valid() &&
      instructions.registers == registers && instructions.memory == memory
    }

    /** The register file and the memory as a value. */
    ghost function State(): Machine
      reads registers.storage, memory.mem
      requires Valid()
    {
      Machine(registers.Contents(), memory.Contents())
    }

    /** `Cpu::Cpu`: a new memory map, and an instruction set that acts on this
        CPU's registers and that memory. Register and memory contents are
        indeterminate. */
    constructor ()
      ensures Valid()
      ensures fresh(registers) && fresh(registers.storage) && fresh(memory) && fresh(memory.mem)
    {
      var regs := new CpuRegisters();
      var mem := new MemoryMap();
      registers := regs;
      memory := mem;
      instructions := new InstructionSet(regs, mem);
    }

    /** One iteration of `Cpu::run`: `read8(PC++)`, then `exec`. The status is
        returned so that a caller can see it; `run` itself ignores it. */
    method Step() returns (status: Status)
      requires Valid()
      modifies registers.storage, memory.mem
      ensures Valid()
      ensures Outcome(status, State()) == Transition(old(State()))
    {
      var pc := registers.Get16(PC);
      var opcode := memory.Read8(pc);
      registers.Set16(PC, Inc16(pc));
      status := instructions.Exec(opcode);
    }

    /** `n` iterations of `Cpu::run`. HALT, STOP and WRITE_FAIL do not stop the
        loop; only the exception from an empty slot does, and `escaped` says
        whether it was thrown. */
    method RunN(n: nat) returns (escaped: bool)
      requires Valid()
      modifies registers.storage, memory.mem
      ensures Valid()
      ensures (State(), escaped) == RunSteps(old(State()), n)
    {
      var i := 0;
      escaped := false;
      while i < n && !escaped
        invariant Valid()
        invariant 0 <= i <= n
        invariant RunSteps(old(State()), n) == if escaped then (State(), true) else RunSteps(State(), n - i)
        decreases n - i
      {
        var status := Step();
        escaped := status == Unpopulated;
        i := i + 1;
      }
    }
  }
}
