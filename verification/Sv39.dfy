/**
 Sv39 page-table entries (RISC-V Privileged Architecture v1.12, section 4.4).

 An entry is a 64-bit word held as a natural number. Reading a flag is a
 division and a remainder; setting one is `SetBit`, the bitwise OR with a
 one-bit mask.
 */
module Sv39 {
  import opened Base

  datatype Permissions =
    Permissions(read: bool, write: bool, execute: bool, user: bool, device: bool)

  datatype PteError = Misaligned | NoAccess | WriteWithoutRead | UserWx | DeviceExecute

  const PTE_V: nat := 1
  const PTE_R: nat := 2
  const PTE_W: nat := 4
  const PTE_X: nat := 8
  const PTE_U: nat := 16
  const PTE_A: nat := 64
  const PTE_D: nat := 128

  predicate HasBit(bits: nat, mask: nat)
    requires mask > 0
  {
    (bits / mask) % 2 == 1
  }

  function SetBit(bits: nat, mask: nat): nat
    requires mask > 0
  {
    if HasBit(bits, mask) then bits else bits + mask
  }

  predicate IsValid(pte: nat) { HasBit(pte, PTE_V) }
  predicate Readable(pte: nat) { HasBit(pte, PTE_R) }
  predicate Writable(pte: nat) { HasBit(pte, PTE_W) }
  predicate Executable(pte: nat) { HasBit(pte, PTE_X) }
  predicate IsUser(pte: nat) { HasBit(pte, PTE_U) }

  predicate IsLeaf(pte: nat) {
    IsValid(pte) && (Readable(pte) || Writable(pte) || Executable(pte))
  }

  /** The 44-bit physical page number in bits 10..53. */
  function Ppn(pte: nat): nat { (pte / 1024) % TWO44 }

  function PpnField(pa: u64): nat { (pa / 4096) * 1024 }

  /** What a walk reads back from a leaf: `device` is not encoded. */
  function PermsOf(pte: nat): Permissions {
    Permissions(Readable(pte), Writable(pte), Executable(pte), IsUser(pte), false)
  }

  function Pointer(table: u64): Result<u64, PteError> {
    if !PageAligned(table) then Err(Misaligned)
    else Ok(SetBit(PpnField(table), PTE_V))
  }

  function Leaf(frame: u64, perms: Permissions): Result<u64, PteError> {
    if !PageAligned(frame) then Err(Misaligned)
    else if !perms.read && !perms.write && !perms.execute then Err(NoAccess)
    else if perms.write && !perms.read then Err(WriteWithoutRead)
    else if perms.user && perms.write && perms.execute then Err(UserWx)
    else if perms.device && perms.execute then Err(DeviceExecute)
    else
      var bits := SetBit(PpnField(frame), PTE_V);
      var bits := if perms.read then SetBit(bits, PTE_R) else bits;
      var bits := if perms.write then SetBit(bits, PTE_W) else bits;
      var bits := if perms.execute then SetBit(bits, PTE_X) else bits;
      var bits := if perms.user then SetBit(bits, PTE_U) else bits;
      Ok(SetBit(SetBit(bits, PTE_A), PTE_D))
  }

  /** The word that makes `root` the running table: the mode in the top four bits and the page number of the table. */
  function SatpFor(root: u64): u64 { 8 * 0x1000_0000_0000_0000 + root / 4096 }

  /** The processor takes it as Sv39, with no address-space tag, rooted at that table, exactly if it has a 56-bit address. */
  lemma SatpNamesRoot(root: u64)
    requires PageAligned(root)
    ensures SatpFor(root) / 0x1000_0000_0000_0000 == 8
    ensures (SatpFor(root) / 0x1000_0000_0000 % 0x1_0000 == 0 && SatpFor(root) % 0x1000_0000_0000 * 4096 == root) <==>
              root < 0x100_0000_0000_0000
  {
    var p := root / 4096;
    assert p < 0x10_0000_0000_0000;
    assert SatpFor(root) == 0x1000_0000_0000 * 0x8_0000 + p;
  }

  /** The permission sets an Sv39 leaf can carry. */
  predicate Encodable(perms: Permissions) {
    && (perms.read || perms.write || perms.execute)
    && (perms.write ==> perms.read)
    && !(perms.user && perms.write && perms.execute)
    && !(perms.device && perms.execute)
  }

  /** The flag bits of an accepted leaf: V, A, D and the granted accesses. */
  function Flags(perms: Permissions): (low: nat)
    ensures low < 1024 && IsValid(low)
    ensures PermsOf(low) == perms.(device := false)
  {
    193
    + (if perms.read then PTE_R else 0) + (if perms.write then PTE_W else 0)
    + (if perms.execute then PTE_X else 0) + (if perms.user then PTE_U else 0)
  }

  /** The arithmetic value of an accepted leaf: page number above, flags below. */
  lemma LeafValue(frame: u64, perms: Permissions)
    requires PageAligned(frame) && Encodable(perms)
    ensures Leaf(frame, perms) == Ok(PpnField(frame) + Flags(perms))
  {
    var f := frame / 4096;
    assert PpnField(frame) == 1024 * f;
  }

  /**
   Building a leaf and reading it back: accepted exactly for an aligned frame
   with encodable permissions, and then every field reads back as it was given,
   up to `device` and the 56 bits of physical address the format has room for.
   */
  lemma LeafRoundTrip(frame: u64, perms: Permissions)
    ensures Leaf(frame, perms).Ok? <==> PageAligned(frame) && Encodable(perms)
    ensures Leaf(frame, perms).Ok? ==>
              var pte := Leaf(frame, perms).value;
              && IsLeaf(pte)
              && PermsOf(pte) == perms.(device := false)
              && Ppn(pte) * PAGE_SIZE == frame % TWO56
  {
    if Leaf(frame, perms).Ok? {
      LeafValue(frame, perms);
      FieldsOfSum(frame / 4096, Flags(perms));
      FrameNumber(frame);
    }
  }

  /** Flags below bit 10 and a page number above it do not disturb each other. */
  lemma FieldsOfSum(page: nat, low: nat)
    requires low < 1024
    ensures (page * 1024 + low) / 1024 == page
    ensures IsValid(page * 1024 + low) == IsValid(low)
    ensures PermsOf(page * 1024 + low) == PermsOf(low)
  {
    EvenPlus(page * 512, low);
    Shift2(page, low);
    Shift4(page, low);
    Shift8(page, low);
    Shift16(page, low);
  }

  lemma EvenPlus(y: nat, x: nat)
    ensures (2 * y + x) % 2 == x % 2
  {
  }

  // Dividing by a power of two below bit 10 leaves the parity of the low part.

  lemma Shift2(page: nat, low: nat)
    ensures (page * 1024 + low) / 2 % 2 == low / 2 % 2
  {
    var m, r := page * 512 + low / 2, low % 2;
    assert page * 1024 + low == 2 * m + r;
    assert (2 * m + r) / 2 == m;
    assert m == 2 * (page * 256) + low / 2;
    EvenPlus(page * 256, low / 2);
  }

  lemma Shift4(page: nat, low: nat)
    ensures (page * 1024 + low) / 4 % 2 == low / 4 % 2
  {
    var m, r := page * 256 + low / 4, low % 4;
    assert page * 1024 + low == 4 * m + r;
    assert (4 * m + r) / 4 == m;
    assert m == 2 * (page * 128) + low / 4;
    EvenPlus(page * 128, low / 4);
  }

  lemma Shift8(page: nat, low: nat)
    ensures (page * 1024 + low) / 8 % 2 == low / 8 % 2
  {
    var m, r := page * 128 + low / 8, low % 8;
    assert page * 1024 + low == 8 * m + r;
    assert (8 * m + r) / 8 == m;
    assert m == 2 * (page * 64) + low / 8;
    EvenPlus(page * 64, low / 8);
  }

  lemma Shift16(page: nat, low: nat)
    ensures (page * 1024 + low) / 16 % 2 == low / 16 % 2
  {
    var m, r := page * 64 + low / 16, low % 16;
    assert page * 1024 + low == 16 * m + r;
    assert (16 * m + r) / 16 == m;
    assert m == 2 * (page * 32) + low / 16;
    EvenPlus(page * 32, low / 16);
  }

  lemma Shift32(page: nat, low: nat)
    ensures (page * 1024 + low) / 32 % 2 == low / 32 % 2
  {
    var m, r := page * 32 + low / 32, low % 32;
    assert page * 1024 + low == 32 * m + r;
    assert (32 * m + r) / 32 == m;
    assert m == 2 * (page * 16) + low / 32;
    EvenPlus(page * 16, low / 32);
  }

  lemma Shift64(page: nat, low: nat)
    ensures (page * 1024 + low) / 64 % 2 == low / 64 % 2
  {
    var m, r := page * 16 + low / 64, low % 64;
    assert page * 1024 + low == 64 * m + r;
    assert (64 * m + r) / 64 == m;
    assert m == 2 * (page * 8) + low / 64;
    EvenPlus(page * 8, low / 64);
  }

  lemma Shift128(page: nat, low: nat)
    ensures (page * 1024 + low) / 128 % 2 == low / 128 % 2
  {
    var m, r := page * 8 + low / 128, low % 128;
    assert page * 1024 + low == 128 * m + r;
    assert (128 * m + r) / 128 == m;
    assert m == 2 * (page * 4) + low / 128;
    EvenPlus(page * 4, low / 128);
  }

  lemma Shift256(page: nat, low: nat)
    ensures (page * 1024 + low) / 256 % 2 == low / 256 % 2
  {
    var m, r := page * 4 + low / 256, low % 256;
    assert page * 1024 + low == 256 * m + r;
    assert (256 * m + r) / 256 == m;
    assert m == 2 * (page * 2) + low / 256;
    EvenPlus(page * 2, low / 256);
  }

  lemma Shift512(page: nat, low: nat)
    ensures (page * 1024 + low) / 512 % 2 == low / 512 % 2
  {
    var m, r := page * 2 + low / 512, low % 512;
    assert page * 1024 + low == 512 * m + r;
    assert (512 * m + r) / 512 == m;
    assert m == 2 * (page * 1) + low / 512;
    EvenPlus(page * 1, low / 512);
  }

  lemma FrameNumber(frame: u64)
    requires PageAligned(frame)
    ensures (frame / 4096) % TWO44 * 4096 == frame % TWO56
  {
  }

  /** A pointer entry is valid, not a leaf, and names the table it was built for. */
  lemma PointerRoundTrip(table: u64)
    requires PageAligned(table)
    ensures Pointer(table).Ok?
    ensures IsValid(Pointer(table).value) && !IsLeaf(Pointer(table).value)
    ensures Ppn(Pointer(table).value) * PAGE_SIZE == table % TWO56
  {
    FieldsOfSum(table / 4096, 1);
    FrameNumber(table);
  }

  /** Why a leaf is refused: the first rule broken, in this order. */
  lemma LeafRefusals(frame: u64, perms: Permissions)
    ensures Leaf(frame, perms) == Err(Misaligned) <==> frame % 4096 != 0
    ensures Leaf(frame, perms) == Err(NoAccess) <==>
              frame % 4096 == 0 && !perms.read && !perms.write && !perms.execute
    ensures Leaf(frame, perms) == Err(WriteWithoutRead) <==> frame % 4096 == 0 && perms.write && !perms.read
    ensures Leaf(frame, perms) == Err(UserWx) <==>
              frame % 4096 == 0 && perms.read && perms.write && perms.execute && perms.user
    ensures Leaf(frame, perms) == Err(DeviceExecute) <==>
              frame % 4096 == 0 && perms.device && perms.execute && (perms.write ==> perms.read && !perms.user)
  {
    hide SetBit, PpnField;
  }

  // ---- The words themselves -------------------------------------------------

  /**
   An accepted leaf bit by bit, by the bit numbers of the standard: 0 valid, 1 read,
   2 write, 3 execute, 4 user, 5 global, 6 accessed, 7 dirty, 8 and 9 for software, and
   the physical page number from 10 on.
   */
  lemma LeafBits(frame: u64, perms: Permissions)
    requires Leaf(frame, perms).Ok?
    ensures var w := Leaf(frame, perms).value;
            && w % 2 == 1
            && (w / 2 % 2 == 1 <==> perms.read) && (w / 4 % 2 == 1 <==> perms.write)
            && (w / 8 % 2 == 1 <==> perms.execute) && (w / 16 % 2 == 1 <==> perms.user)
            && w / 32 % 2 == 0 && w / 64 % 2 == 1 && w / 128 % 2 == 1 && w / 256 % 2 == 0 && w / 512 % 2 == 0
            && w / 1024 == frame / 4096
  {
    LeafRoundTrip(frame, perms);
    LeafValue(frame, perms);
    LowFlags(perms);
    var page, low := frame / 4096, Flags(perms);
    var w := page * 1024 + low;
    assert Leaf(frame, perms).value == w;
    hide Flags, Leaf;
    Shift2(page, low);
    Shift4(page, low);
    Shift8(page, low);
    Shift16(page, low);
    Shift32(page, low);
    Shift64(page, low);
    Shift128(page, low);
    Shift256(page, low);
    Shift512(page, low);
  }

  /** The ten low bits of an accepted leaf. */
  lemma LowFlags(perms: Permissions)
    ensures var low := Flags(perms);
            && low < 1024 && low % 2 == 1
            && (low / 2 % 2 == 1 <==> perms.read) && (low / 4 % 2 == 1 <==> perms.write)
            && (low / 8 % 2 == 1 <==> perms.execute) && (low / 16 % 2 == 1 <==> perms.user)
            && low / 32 % 2 == 0 && low / 64 % 2 == 1 && low / 128 % 2 == 1 && low / 256 % 2 == 0 && low / 512 % 2 == 0
  {
  }

  /** A pointer has bit 0 set and no other below bit 10. */
  lemma PointerBits(table: u64)
    requires PageAligned(table)
    ensures Pointer(table).Ok? && Pointer(table).value % 1024 == 1 && Pointer(table).value / 1024 == table / 4096
  {
    var page := table / 4096;
    assert PpnField(table) == page * 1024;
    EvenPlus(page * 512, 0);
  }
}
