/** The register file of `cpu-registers.h`.

    The C++ `union CpuRegisters` overlays two structs on the same bytes:
    an 8-bit view (B, C, D, E, H, L, A) and a 16-bit view (BC, DE, HL, A, PC, SP).
    The model keeps exactly one byte store, laid out as the union lays out its
    members, and defines every view as a function over it; nothing is kept
    in sync by hand.

    Byte order inside a pair: the union's order depends on the host. The model
    fixes the LR35902 convention instead: the first-named register of a pair is
    its HIGH byte (B is the high byte of BC), and it sits at the lower offset.
    PC and SP, which no 8-bit register overlays, use the same convention. */
module Registers {
  import opened Bytes
  import opened Options

  /** `Register8Id`. Any other value is unrepresentable. */
  datatype Reg8 = B | C | D | E | H | L | A

  /** `Register16Id`, with PC added: the 16-bit view declares a PC field and
      the code reads it through `get16BitReg(PC)`, although the enum omits it. */
  datatype Reg16 = BC | DE | HL | PC | SP

  /** The numeric value of each `Register8Id` enumerator. 6 is skipped: the
      instruction encoding uses that index for the memory operand (HL). */
  function Code(r: Reg8): (n: nat)
    ensures n < 8 && n != 6
  {
    match r
    case B => 0
    case C => 1
    case D => 2
    case E => 3
    case H => 4
    case L => 5
    case A => 7
  }

  /** `get8BitReg` applied to a plain integer id: the register with that
      enumerator value, or `None` where the C++ switch falls through and
      throws `invalid_argument`. */
  function RegisterOfCode(n: int): (r: Option<Reg8>)
    ensures r.Some? ==> Code(r.value) == n
    ensures r.None? <==> (n < 0 || n > 7 || n == 6)
  {
    match n
    case 0 => Some(B)
    case 1 => Some(C)
    case 2 => Some(D)
    case 3 => Some(E)
    case 4 => Some(H)
    case 5 => Some(L)
    case 7 => Some(A)
    case _ => None
  }

  /** The enumerator values are pairwise distinct and decode back to their register. */
  lemma CodeRoundTrip(r: Reg8, q: Reg8)
    ensures RegisterOfCode(Code(r)) == Some(r)
    ensures Code(r) == Code(q) ==> r == q
  {
  }

  // ---------------------------------------------------------------------
  // Layout of the union

  /** Size in bytes of a member of either view: `uint8_t` or `uint16_t`. */
  type FieldSize = k: nat | k == 1 || k == 2 witness 1

  /** Smallest multiple of `k` that is at least `n`. */
  function AlignUp(n: nat, k: FieldSize): (r: nat)
    ensures n <= r < n + k && r % k == 0
  {
    if k == 1 || n % 2 == 0 then n else n + 1
  }

  /** Offsets of the members of a C++ struct whose members have the given
      sizes, each aligned to its own size, the first placed at `cursor` or later. */
  function FieldOffsets(sizes: seq<FieldSize>, cursor: nat): (offsets: seq<nat>)
    ensures |offsets| == |sizes|
    decreases |sizes|
  {
    if sizes == [] then []
    else
      var at := AlignUp(cursor, sizes[0]);
      [at] + FieldOffsets(sizes[1..], at + sizes[0])
  }

  /** Every member is aligned to its size, starts at or after `cursor`, and
      ends before the next member begins: members of one struct never share a byte. */
  lemma {:induction false} FieldsDisjoint(sizes: seq<FieldSize>, cursor: nat)
    ensures forall i | 0 <= i < |sizes| ::
      cursor <= FieldOffsets(sizes, cursor)[i] && FieldOffsets(sizes, cursor)[i] % sizes[i] == 0
    ensures forall i, j | 0 <= i < j < |sizes| ::
      FieldOffsets(sizes, cursor)[i] + sizes[i] <= FieldOffsets(sizes, cursor)[j]
    decreases |sizes|
  {
    if sizes != [] {
      var at := AlignUp(cursor, sizes[0]);
      var rest := FieldOffsets(sizes[1..], at + sizes[0]);
      FieldsDisjoint(sizes[1..], at + sizes[0]);
      assert FieldOffsets(sizes, cursor) == [at] + rest;
      forall i, j | 0 <= i < j < |sizes|
        ensures FieldOffsets(sizes, cursor)[i] + sizes[i] <= FieldOffsets(sizes, cursor)[j]
      {
        if i > 0 {
          assert sizes[i] == sizes[1..][i - 1];
        } else {
          assert at + sizes[0] <= rest[j - 1];
        }
      }
      forall i | 0 <= i < |sizes|
        ensures cursor <= FieldOffsets(sizes, cursor)[i] && FieldOffsets(sizes, cursor)[i] % sizes[i] == 0
      {
        if i > 0 {
          assert sizes[i] == sizes[1..][i - 1];
        }
      }
    }
  }

  /** Member sizes of `Registers8BitView`: B, C, D, E, H, L, A. */
  const View8Sizes: seq<FieldSize> := [1, 1, 1, 1, 1, 1, 1]

  /** Member sizes of `Registers16BitView`: BC, DE, HL, A, PC, SP. */
  const View16Sizes: seq<FieldSize> := [2, 2, 2, 1, 2, 2]

  /** Position of the 8-bit member `A` among the members of `Registers16BitView`. */
  const View16AccumulatorField: nat := 3

  /** Bytes occupied by the union: its larger member, `Registers16BitView`. */
  const StorageSize: nat := 12

  /** Declaration position of each register in `Registers8BitView`. */
  function View8Field(r: Reg8): nat
  {
    match r
    case B => 0
    case C => 1
    case D => 2
    case E => 3
    case H => 4
    case L => 5
    case A => 6
  }

  /** Declaration position of each pair in `Registers16BitView`. */
  function View16Field(p: Reg16): nat
  {
    match p
    case BC => 0
    case DE => 1
    case HL => 2
    case PC => 4
    case SP => 5
  }

  /** Byte offset of an 8-bit register in the store. */
  function Offset8(r: Reg8): nat
  {
    match r
    case B => 0
    case C => 1
    case D => 2
    case E => 3
    case H => 4
    case L => 5
    case A => 6
  }

  /** Byte offset of a 16-bit register in the store; it spans this byte (high)
      and the next (low). */
  function Offset16(p: Reg16): nat
  {
    match p
    case BC => 0
    case DE => 2
    case HL => 4
    case PC => 8
    case SP => 10
  }

  /** A C++ compiler places the members of `Registers8BitView` at offsets 0 to 6. */
  lemma {:induction false} View8Layout()
    ensures FieldOffsets(View8Sizes, 0) == [0, 1, 2, 3, 4, 5, 6]
  {
    var sizes := View8Sizes;
    assert FieldOffsets(sizes[7..], 7) == [];
    assert FieldOffsets(sizes[6..], 6) == [6] + FieldOffsets(sizes[7..], 7);
    assert FieldOffsets(sizes[5..], 5) == [5] + FieldOffsets(sizes[6..], 6);
    assert FieldOffsets(sizes[4..], 4) == [4] + FieldOffsets(sizes[5..], 5);
    assert FieldOffsets(sizes[3..], 3) == [3] + FieldOffsets(sizes[4..], 4);
    assert FieldOffsets(sizes[2..], 2) == [2] + FieldOffsets(sizes[3..], 3);
    assert FieldOffsets(sizes[1..], 1) == [1] + FieldOffsets(sizes[2..], 2);
    assert FieldOffsets(sizes, 0) == [0] + FieldOffsets(sizes[1..], 1);
  }

  /** A C++ compiler places the members of `Registers16BitView` at offsets
      0, 2, 4, 6, 8 and 10: the one-byte `A` at 6 is followed by a padding
      byte, so PC starts at 8, and the union occupies 12 bytes. */
  lemma {:induction false} View16Layout()
    ensures FieldOffsets(View16Sizes, 0) == [0, 2, 4, 6, 8, 10]
    ensures 10 + View16Sizes[5] as int == StorageSize
  {
    View16LayoutOf(View16Sizes);
  }

  /** The layout of any struct whose members have the sizes of those of
      `Registers16BitView`, computed member by member. */
  lemma {:induction false} View16LayoutOf(sizes: seq<FieldSize>)
    requires |sizes| == 6 && sizes[3] == 1
    requires sizes[0] == sizes[1] == sizes[2] == sizes[4] == sizes[5] == 2
    ensures FieldOffsets(sizes, 0) == [0, 2, 4, 6, 8, 10]
  {
    var offsets := FieldOffsets(sizes, 0);
    assert offsets[0] == AlignUp(0, sizes[0]) == 0;
    FieldOffsetsNext(sizes, 0, 0);
    assert offsets[1] == AlignUp(2, sizes[1]) == 2;
    FieldOffsetsNext(sizes, 0, 1);
    assert offsets[2] == AlignUp(4, sizes[2]) == 4;
    FieldOffsetsNext(sizes, 0, 2);
    assert offsets[3] == AlignUp(6, sizes[3]) == 6;
    FieldOffsetsNext(sizes, 0, 3);
    assert offsets[4] == AlignUp(7, sizes[4]) == 8;
    FieldOffsetsNext(sizes, 0, 4);
    assert offsets[5] == AlignUp(10, sizes[5]) == 10;
    assert offsets == [offsets[0], offsets[1], offsets[2], offsets[3], offsets[4], offsets[5]];
  }

  /** Each member goes at the first offset aligned to its size after the end
      of the member before it. */
  lemma {:induction false} FieldOffsetsNext(sizes: seq<FieldSize>, cursor: nat, i: nat)
    requires i + 1 < |sizes|
    ensures FieldOffsets(sizes, cursor)[i + 1] ==
      AlignUp(FieldOffsets(sizes, cursor)[i] + sizes[i], sizes[i + 1])
    decreases i
  {
    var at := AlignUp(cursor, sizes[0]);
    var rest := FieldOffsets(sizes[1..], at + sizes[0]);
    assert FieldOffsets(sizes, cursor) == [at] + rest;
    if i == 0 {
      assert rest[0] == AlignUp(at + sizes[0], sizes[1..][0]);
    } else {
      FieldOffsetsNext(sizes[1..], at + sizes[0], i - 1);
      assert sizes[1..][i - 1] == sizes[i] && sizes[1..][i] == sizes[i + 1];
    }
  }

  /** The byte offsets the 8-bit accessors use are those of `Registers8BitView`. */
  lemma Offsets8FollowLayout(r: Reg8)
    ensures Offset8(r) == FieldOffsets(View8Sizes, 0)[View8Field(r)]
  {
    View8Layout();
    OffsetIsPosition(FieldOffsets(View8Sizes, 0), r);
  }

  /** In a layout of one-byte members, each register sits at its own position. */
  lemma OffsetIsPosition(offsets: seq<nat>, r: Reg8)
    requires offsets == [0, 1, 2, 3, 4, 5, 6]
    ensures View8Field(r) < |offsets| && Offset8(r) == offsets[View8Field(r)]
  {
  }

  /** The byte offsets the 16-bit accessors use are those of `Registers16BitView`. */
  lemma Offsets16FollowLayout(p: Reg16)
    ensures Offset16(p) == FieldOffsets(View16Sizes, 0)[View16Field(p)]
  {
    View16Layout();
  }

  /** The 16-bit view's `A` member lies on the 8-bit view's `A`: the
      accumulator is one byte of storage, visible in both views. */
  lemma AccumulatorShared()
    ensures FieldOffsets(View16Sizes, 0)[View16AccumulatorField] == FieldOffsets(View8Sizes, 0)[View8Field(A)]
  {
    View8Layout();
    View16Layout();
  }

  // ---------------------------------------------------------------------
  // The two views as functions over one byte store

  /** The union's bytes. */
  type Storage = s: seq<byte> | |s| == StorageSize witness seq(StorageSize, _ => 0)

  /** Reading an 8-bit register (`get8BitReg(r)` as an rvalue). */
  function Read8(s: Storage, r: Reg8): byte
  {
    s[Offset8(r)]
  }

  /** Reading a 16-bit register (`get16BitReg(p)` as an rvalue). */
  function Read16(s: Storage, p: Reg16): word
  {
    s[Offset16(p)] as int * 0x100 + s[Offset16(p) + 1]
  }

  /** Assigning through `get8BitReg(r)`. */
  function Write8(s: Storage, r: Reg8, v: byte): Storage
  {
    s[Offset8(r) := v]
  }

  /** Assigning through `get16BitReg(p)`. */
  function Write16(s: Storage, p: Reg16, v: word): Storage
  {
    s[Offset16(p) := v / 0x100][Offset16(p) + 1 := v % 0x100]
  }

  /** The pairs that the 8-bit view splits into two halves. */
  predicate HasHalves(p: Reg16)
  {
    p == BC || p == DE || p == HL
  }

  /** The first-named register of a pair: its high byte. */
  function High(p: Reg16): Reg8
    requires HasHalves(p)
  {
    match p
    case BC => B
    case DE => D
    case HL => H
  }

  /** The second-named register of a pair: its low byte. */
  function Low(p: Reg16): Reg8
    requires HasHalves(p)
  {
    match p
    case BC => C
    case DE => E
    case HL => L
  }

  /** `r` is one of the two halves of `p`. */
  predicate InPair(r: Reg8, p: Reg16)
  {
    HasHalves(p) && (r == High(p) || r == Low(p))
  }

  /** The seven 8-bit ids select seven distinct registers: a write to one is
      read back from it and is invisible through every other one. */
  lemma Write8Read8(s: Storage, r: Reg8, v: byte, q: Reg8)
    ensures Read8(Write8(s, r, v), q) == if q == r then v else Read8(s, q)
  {
  }

  /** A pair and its halves are one storage: BC is B * 256 + C, and likewise DE and HL. */
  lemma PairIsItsHalves(s: Storage, p: Reg16)
    requires HasHalves(p)
    ensures Read16(s, p) == Read8(s, High(p)) * 0x100 + Read8(s, Low(p))
  {
  }

  /** Writing B or C changes BC and no other 16-bit register; likewise D/E and
      DE, H/L and HL. Writing A changes no 16-bit register; in particular no
      8-bit write ever changes PC or SP. */
  lemma Write8Read16(s: Storage, r: Reg8, v: byte, p: Reg16)
    ensures !InPair(r, p) ==> Read16(Write8(s, r, v), p) == Read16(s, p)
    ensures InPair(r, p) && r == High(p) ==> Read16(Write8(s, r, v), p) == v * 0x100 + Read8(s, Low(p))
    ensures InPair(r, p) && r == Low(p) ==> Read16(Write8(s, r, v), p) == Read8(s, High(p)) * 0x100 + v
  {
  }

  /** A 16-bit write is read back from the same register and leaves the other
      four 16-bit registers as they were. */
  lemma Write16Read16(s: Storage, p: Reg16, v: word, q: Reg16)
    ensures Read16(Write16(s, p, v), q) == if q == p then v else Read16(s, q)
  {
  }

  /** Writing BC, DE or HL changes exactly its two halves, the first-named to
      the high byte and the second-named to the low byte; A and the other
      halves are unchanged. PC and SP overlay no 8-bit register, so writing
      them changes none. */
  lemma Write16Read8(s: Storage, p: Reg16, v: word, r: Reg8)
    ensures Read8(Write16(s, p, v), r) ==
      if InPair(r, p) && r == High(p) then v / 0x100
      else if InPair(r, p) && r == Low(p) then v % 0x100
      else Read8(s, r)
  {
  }

  /** Setting a pair and recombining its halves gives back the value set. */
  lemma PairRoundTrip(s: Storage, p: Reg16, v: word)
    requires HasHalves(p)
    ensures Read8(Write16(s, p, v), High(p)) * 0x100 + Read8(Write16(s, p, v), Low(p)) == v
  {
  }

  /** A second write to a 16-bit register hides the first. */
  lemma Write16Twice(s: Storage, p: Reg16, x: word, y: word)
    ensures Write16(Write16(s, p, x), p, y) == Write16(s, p, y)
  {
  }

  /** The register file as the CPU owns it: one array of bytes with the
      union's layout, read through functions and changed through methods. */
  class CpuRegisters {
    const storage: array<byte>

    ghost predicate Valid()
    {
      storage.Length == StorageSize
    }

    /** A default-initialised `CpuRegisters` holds indeterminate bytes. */
    constructor ()
      ensures Valid() && fresh(storage)
    {
      storage := new byte[StorageSize];
    }

    /** The byte store as a value. */
    ghost function Contents(): Storage
      reads storage
      requires Valid()
    {
      storage[..]
    }

    /** `get8BitReg(r)` used as a value. */
    function Get8(r: Reg8): (v: byte)
      reads storage
      requires Valid()
      ensures v == Read8(Contents(), r)
    {
      storage[Offset8(r)]
    }

    /** `get16BitReg(p)` used as a value. */
    function Get16(p: Reg16): (v: word)
      reads storage
      requires Valid()
      ensures v == Read16(Contents(), p)
    {
      storage[Offset16(p)] as int * 0x100 + storage[Offset16(p) + 1]
    }

    /** `get8BitReg(r) = v`. */
    method Set8(r: Reg8, v: byte)
      requires Valid()
      modifies storage
      ensures Contents() == Write8(old(Contents()), r, v)
    {
      storage[Offset8(r)] := v;
    }

    /** `get16BitReg(p) = v`; for a pair, both halves change at once. */
    method Set16(p: Reg16, v: word)
      requires Valid()
      modifies storage
      ensures Contents() == Write16(old(Contents()), p, v)
    {
      storage[Offset16(p)] := v / 0x100;
      storage[Offset16(p) + 1] := v % 0x100;
    }
  }
}
