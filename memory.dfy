/** The memory bus of `memory-map.cpp`: a flat store of 0x10000 bytes with
    8-bit and little-endian 16-bit reads and writes. Writes report success;
    this bus accepts every write. The window 0xFF00-0xFFFF, which the source
    hands to a register-map stub, is ordinary storage here.

    `read16`/`write16` at 0xFFFF touch `mem[0x10000]`, one past the array, in
    the C++ code. The model wraps that second address to 0x0000, as a 16-bit
    address bus would, so both operations are defined for every address. */
module Memory {
  import opened Bytes

  /** `ADDRESS_SPACE`. */
  const AddressSpace: nat := 0x1_0000

  /** The contents of the address space. */
  type Store = m: seq<byte> | |m| == AddressSpace witness seq(AddressSpace, _ => 0)

  /** What a write reports, and the memory it leaves. */
  datatype WriteResult = WriteResult(ok: bool, mem: Store)

  /** Address of the high byte of a 16-bit access at `a`. */
  function NextAddress(a: word): word
  {
    Inc16(a)
  }

  /** `read8`. */
  function Load8(m: Store, a: word): byte
  {
    m[a]
  }

  /** `read16`: little-endian, the byte at `a` is the low half. */
  function Load16(m: Store, a: word): (w: word)
    ensures w % 0x100 == Load8(m, a) && w / 0x100 == Load8(m, NextAddress(a))
  {
    m[a] + m[NextAddress(a)] as int * 0x100
  }

  /** `write8`: stores `v` at `a` and reports success. */
  function Store8(m: Store, a: word, v: byte): (r: WriteResult)
    ensures r.ok
    ensures Load8(r.mem, a) == v
    ensures forall b: word | b != a :: Load8(r.mem, b) == Load8(m, b)
  {
    WriteResult(true, m[a := v])
  }

  /** `write16`: the low byte of `v` goes to `a`, the high byte to the next address. */
  function Store16(m: Store, a: word, v: word): (r: WriteResult)
    ensures r.ok
    ensures Load8(r.mem, a) == v % 0x100 && Load8(r.mem, NextAddress(a)) == v / 0x100
    ensures forall b: word | b != a && b != NextAddress(a) :: Load8(r.mem, b) == Load8(m, b)
  {
    WriteResult(true, m[a := v % 0x100][NextAddress(a) := v / 0x100])
  }

  /** A byte written is the byte read back; no other address changes. */
  lemma Store8Load8(m: Store, a: word, v: byte, b: word)
    ensures Load8(Store8(m, a, v).mem, b) == if b == a then v else Load8(m, b)
  {
  }

  /** A 16-bit word written at any address, 0xFFFF included, is read back. */
  lemma {:induction false} Store16Load16(m: Store, a: word, v: word)
    ensures Load16(Store16(m, a, v).mem, a) == v
  {
    var m' := Store16(m, a, v).mem;
    assert Load16(m', a) == v % 0x100 + v / 0x100 * 0x100;
  }

  /** A 16-bit write is two 8-bit writes, low byte first. */
  lemma {:induction false} Store16IsTwoStore8(m: Store, a: word, v: word)
    ensures Store16(m, a, v).mem == Store8(Store8(m, a, v % 0x100).mem, NextAddress(a), v / 0x100).mem
  {
  }

  /** The 16-bit read sees exactly the bytes the 8-bit reads see. */
  lemma {:induction false} Load16IsTwoLoad8(m: Store, a: word)
    ensures Load16(m, a) == Load8(m, a) + 0x100 * Load8(m, NextAddress(a))
  {
  }

  /** The address space as the CPU owns it: one heap array of 0x10000 bytes. */
  class MemoryMap {
    const mem: array<byte>

    ghost predicate Valid()
    {
      mem.Length == AddressSpace
    }

    /** `new uint8_t[ADDRESS_SPACE]`: exactly 0x10000 bytes, contents indeterminate. */
    constructor ()
      ensures Valid() && fresh(mem)
      ensures mem.Length == 0x1_0000
    {
      mem := new byte[AddressSpace];
    }

    /** The address space as a value. */
    ghost function Contents(): Store
      reads mem
      requires Valid()
    {
      mem[..]
    }

    /** `read8`: a const member, it reads and changes nothing. */
    function Read8(addr: word): (v: byte)
      reads mem
      requires Valid()
      ensures v == Load8(Contents(), addr)
    {
      mem[addr]
    }

    /** `read16`: a const member, little-endian. */
    function Read16(addr: word): (v: word)
      reads mem
      requires Valid()
      ensures v == Load16(Contents(), addr)
    {
      mem[addr] + mem[Inc16(addr)] as int * 0x100
    }

    /** `write8`. */
    method Write8(addr: word, val: byte) returns (ok: bool)
      requires Valid()
      modifies mem
      ensures WriteResult(ok, Contents()) == Store8(old(Contents()), addr, val)
    {
      mem[addr] := val;
      ok := true;
    }

    /** `write16`. */
    method Write16(addr: word, val: word) returns (ok: bool)
      requires Valid()
      modifies mem
      ensures WriteResult(ok, Contents()) == Store16(old(Contents()), addr, val)
    {
      mem[addr] := val % 0x100;
      mem[Inc16(addr)] := val / 0x100;
      ok := true;
    }
  }
}
