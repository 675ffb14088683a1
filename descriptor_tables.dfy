/**
 * Emulation of the descriptor-table instructions: SGDT, SIDT, LGDT and
 * LIDT on the GDTR and IDTR (`VmmpHandleGdtrOrIdtrAccess`), and SLDT, STR,
 * LLDT and LTR on the LDTR and TR selectors (`VmmpHandleLdtrOrTrAccess`).
 * The operand is decoded from the instruction information and the exit
 * qualification (the displacement); it lives in guest memory or, for the
 * LDTR/TR forms, possibly in a register.
 */
module TableInstructions {
  import opened Wrappers
  import opened Bits
  import opened Registers
  import opened Vmcs
  import opened ExitInfo
  import opened GuestMemory
  import opened Context

  // Instruction identities of a GDTR/IDTR exit.
  const Sgdt: u64 := 0
  const Sidt: u64 := 1
  const Lgdt: u64 := 2
  const Lidt: u64 := 3

  // Instruction identities of an LDTR/TR exit.
  const Sldt: u64 := 0
  const Str: u64 := 1
  const Lldt: u64 := 2
  const Ltr: u64 := 3

  /** The instruction information as the processor reports it: every field in range. */
  predicate WellFormedInfo(info: TableInstructionInfo)
  {
    && info.scaling < 4 && info.register1 < 16
    && info.indexRegister < 16 && info.baseRegister < 16 && info.identity < 4
  }

  /**
   * The base of the segment register numbered `segment` (ES, CS, SS, DS, FS,
   * GS); the numbers 6 and 7 name no segment and contribute no base.
   */
  function SegmentBase(s: Segments, segment: u64): u64
  {
    if segment == 0 then s.esBase
    else if segment == 1 then s.csBase
    else if segment == 2 then s.ssBase
    else if segment == 3 then s.dsBase
    else if segment == 4 then s.fsBase
    else if segment == 5 then s.gsBase
    else 0
  }

  /**
   * The index register's value multiplied by the scale the instruction
   * names: the codes 0-3 scale by 1, 2, 4 and 8, that is, by 2 to the
   * power of the code.
   */
  function ScaledIndex(value: u64, scaling: u64): (r: u64)
    requires scaling < 4
    ensures r == value << scaling
  {
    if scaling == 1 then value * 2
    else if scaling == 2 then value * 4
    else if scaling == 3 then value * 8
    else value
  }

  /** The base register's contribution to the operand address. */
  function BaseValue(info: TableInstructionInfo, regs: GpRegisters): u64
    requires WellFormedInfo(info)
  {
    if info.baseRegisterInvalid then 0 else Get(regs, SelectRegister(info.baseRegister).value)
  }

  /** The index register's contribution to the operand address. */
  function IndexValue(info: TableInstructionInfo, regs: GpRegisters): u64
    requires WellFormedInfo(info)
  {
    if info.indexRegisterInvalid then 0
    else ScaledIndex(Get(regs, SelectRegister(info.indexRegister).value), info.scaling)
  }

  /** The sum of the address components, modulo 2^64. */
  function AddressSum(segmentBase: u64, baseValue: u64, indexValue: u64, displacement: u64): u64
  {
    segmentBase + baseValue + indexValue + displacement
  }

  /** An address as the address size keeps it: 32-bit addresses lose their high half. */
  function SizedAddress(addressSize: u64, address: u64): (a: u64)
    ensures addressSize == AddressSize32 ==> a >> 32 == 0 && a == LowPart(address)
    ensures addressSize != AddressSize32 ==> a == address
  {
    if addressSize == AddressSize32 then LowPart(address) else address
  }

  /**
   * The memory operand's address: segment base plus base register plus
   * scaled index register plus displacement, modulo 2^64, cut to its low
   * 32 bits under 32-bit addressing (so below 4 GiB). 16-bit addressing is
   * not cut.
   */
  function OperandAddress(info: TableInstructionInfo, regs: GpRegisters, s: Segments, displacement: u64): u64
    requires WellFormedInfo(info)
  {
    SizedAddress(info.addressSize,
      AddressSum(SegmentBase(s, info.segmentRegister), BaseValue(info, regs), IndexValue(info, regs), displacement))
  }

  /** The base contribution reads only the base register, and only when it is valid. */
  lemma BaseValueReadsBaseRegister(info: TableInstructionInfo, regs: GpRegisters, regs': GpRegisters)
    requires WellFormedInfo(info)
    requires !info.baseRegisterInvalid ==>
      Get(regs', SelectRegister(info.baseRegister).value) == Get(regs, SelectRegister(info.baseRegister).value)
    ensures BaseValue(info, regs') == BaseValue(info, regs)
    ensures info.baseRegisterInvalid ==> BaseValue(info, regs) == 0
  {
  }

  /** The index contribution reads only the index register, and only when it is valid. */
  lemma IndexValueReadsIndexRegister(info: TableInstructionInfo, regs: GpRegisters, regs': GpRegisters)
    requires WellFormedInfo(info)
    requires !info.indexRegisterInvalid ==>
      Get(regs', SelectRegister(info.indexRegister).value) == Get(regs, SelectRegister(info.indexRegister).value)
    ensures IndexValue(info, regs') == IndexValue(info, regs)
    ensures info.indexRegisterInvalid ==> IndexValue(info, regs) == 0
  {
  }

  /**
   * The operand address reads only the registers the instruction names:
   * register files that agree on the valid base and index registers give
   * the same address.
   */
  lemma OperandAddressReadsNamedRegisters(info: TableInstructionInfo, regs: GpRegisters, regs': GpRegisters,
                                          s: Segments, displacement: u64)
    requires WellFormedInfo(info)
    requires !info.baseRegisterInvalid ==>
      Get(regs', SelectRegister(info.baseRegister).value) == Get(regs, SelectRegister(info.baseRegister).value)
    requires !info.indexRegisterInvalid ==>
      Get(regs', SelectRegister(info.indexRegister).value) == Get(regs, SelectRegister(info.indexRegister).value)
    ensures OperandAddress(info, regs', s, displacement) == OperandAddress(info, regs, s, displacement)
  {
    BaseValueReadsBaseRegister(info, regs, regs');
    IndexValueReadsIndexRegister(info, regs, regs');
  }

  /** Where an LDTR/TR instruction's operand is. */
  datatype Operand = InRegister(r: Reg) | InMemory(address: u64)

  /**
   * The operand of an LDTR/TR instruction: the register the instruction
   * names in its register form, the decoded memory address otherwise.
   */
  function SelectorOperand(info: TableInstructionInfo, regs: GpRegisters, s: Segments, displacement: u64)
    : (op: Operand)
    requires WellFormedInfo(info)
    ensures op.InRegister? <==> info.registerAccess
    ensures op.InRegister? ==> SelectRegister(info.register1) == Some(op.r)
    ensures op.InMemory? ==> op.address == OperandAddress(info, regs, s, displacement)
  {
    if info.registerAccess then InRegister(SelectRegister(info.register1).value)
    else InMemory(OperandAddress(info, regs, s, displacement))
  }

  /**
   * The address of the GDT entry a selector names: its index (bits 3-15)
   * times the 8-byte descriptor size, past the GDT base.
   */
  function DescriptorAddress(gdtrBase: u64, selector: u64): u64
  {
    gdtrBase + ((selector & 0xFFFF) >> 3) * 8
  }

  /** The L bit of a code-segment descriptor: 64-bit code. */
  const LongModeBit: u64 := 1 << 53

  /** The busy bit of a TSS descriptor (bit 1 of its type field). */
  const TssBusyBit: u64 := 1 << 41

  /**
   * Whether the guest runs 64-bit code: the L bit of its code segment's
   * descriptor, or `None` when the descriptor is not mapped.
   */
  function CodeIs64(m: Memory, g: GuestArea): Option<bool>
  {
    match LoadWord(m, DescriptorAddress(g.tables.gdtrBase, g.segments.csSelector) as int, 8)
    case None => None
    case Some(d) => Some(d & LongModeBit != 0)
  }

  /** A descriptor-table register: a linear base and a limit. */
  datatype TableRegister = TableRegister(base: u64, limit: u64)

  /**
   * The size of a table register in memory: a 2-byte limit then an 8-byte
   * base in 64-bit code, a 4-byte base otherwise.
   */
  function TableRegisterSize(longMode: bool): nat
  {
    if longMode then 10 else 6
  }

  /**
   * Memory after SGDT or SIDT stores `t` at `a`: the limit's 2 low bytes,
   * then the base's 8 bytes in 64-bit code or its 4 low bytes otherwise.
   */
  function StoreTableRegister(m: Memory, a: int, t: TableRegister, longMode: bool): (r: Option<Memory>)
    ensures r.Some? <==> Mapped(m, a, TableRegisterSize(longMode))
    ensures r.Some? ==> r.value.Keys == m.Keys
    ensures r.Some? ==>
      forall x | x in m && !(a <= x < a + TableRegisterSize(longMode)) :: r.value[x] == m[x]
  {
    var n := TableRegisterSize(longMode) - 2;
    if Mapped(m, a, n + 2) then
      var m1 := StoreWord(m, a, t.limit, 2).value;
      Some(StoreWord(m1, a + 2, t.base, n).value)
    else
      None
  }

  /**
   * The table register the processor's LGDT or LIDT reads at `a`: a 2-byte
   * limit then an 8-byte base in 64-bit code, a 4-byte base otherwise.
   * The emulation reads the 64-bit form in every mode
   * (`LoadTableRegisterAsWritten`); this reader is the reference it is
   * compared with.
   */
  function LoadTableRegister(m: Memory, a: int, longMode: bool): (r: Option<TableRegister>)
    ensures r.Some? <==> Mapped(m, a, TableRegisterSize(longMode))
  {
    var n := TableRegisterSize(longMode) - 2;
    if Mapped(m, a, n + 2) then
      Some(TableRegister(LoadWord(m, a + 2, n).value, LoadWord(m, a, 2).value))
    else
      None
  }

  /**
   * The table register as the operand size keeps it: the limit's 2 low
   * bytes, and the whole base in 64-bit code or its 4 low bytes otherwise.
   */
  function Reloaded(t: TableRegister, longMode: bool): TableRegister
  {
    TableRegister(if longMode then t.base else LowBytes(t.base, 4), LowBytes(t.limit, 2))
  }

  /**
   * Loading what was stored in the same mode gives back the table register
   * as the operand size keeps it.
   */
  lemma {:induction false} TableRegisterRoundTrip(m: Memory, a: int, t: TableRegister, longMode: bool)
    requires Mapped(m, a, TableRegisterSize(longMode))
    ensures LoadTableRegister(StoreTableRegister(m, a, t, longMode).value, a, longMode) == Some(Reloaded(t, longMode))
  {
    var n := TableRegisterSize(longMode) - 2;
    var m2 := StoredTableWords(m, a, t, longMode);
    assert LoadTableRegister(m2, a, longMode) == Some(TableRegister(LowBytes(t.base, n), LowBytes(t.limit, 2)));
    if longMode {
      LowBytesEight(t.base);
    }
  }

  /** The limit's and the base's bytes SGDT and SIDT leave in memory. */
  lemma StoredTableWords(m: Memory, a: int, t: TableRegister, longMode: bool) returns (m2: Memory)
    requires Mapped(m, a, TableRegisterSize(longMode))
    ensures StoreTableRegister(m, a, t, longMode) == Some(m2)
    ensures LoadWord(m2, a, 2) == Some(LowBytes(t.limit, 2))
    ensures LoadWord(m2, a + 2, TableRegisterSize(longMode) - 2) ==
      Some(LowBytes(t.base, TableRegisterSize(longMode) - 2))
  {
    var n := TableRegisterSize(longMode) - 2;
    var m1 := StoreWord(m, a, t.limit, 2).value;
    m2 := StoreWord(m1, a + 2, t.base, n).value;
    LoadStoreWord(m, a, t.limit, 2);
    LoadStoreWord(m1, a + 2, t.base, n);
    LoadWordFrame(m1, a, 2, a + 2, t.base, n);
  }

  /**
   * What LGDT and LIDT read as the source has them: always the 10-byte
   * image of 64-bit code, whatever the guest's operand size.
   */
  function LoadTableRegisterAsWritten(m: Memory, a: int): Option<TableRegister>
  {
    LoadTableRegister(m, a, true)
  }

  /**
   * The discrepancy: a 32-bit guest that stores its GDTR with SGDT (6
   * bytes) and loads it back with LGDT is read 10 bytes. When the 6-byte
   * image ends where the mapped memory ends, the store succeeds and the
   * reload as written touches unmapped bytes, where the corrected reload
   * gives back the stored table register.
   */
  lemma CompatReloadAsWrittenDiffers(m: Memory, a: int, t: TableRegister)
    requires Mapped(m, a, 6) && a + 6 !in m
    ensures var stored := StoreTableRegister(m, a, t, false);
      && stored.Some?
      && LoadTableRegisterAsWritten(stored.value, a) == None
      && LoadTableRegister(stored.value, a, false) == Some(Reloaded(t, false))
  {
    TableRegisterRoundTrip(m, a, t, false);
  }

  /**
   * What the reload as written gives a 32-bit guest whose stored 6-byte
   * image is followed by 4 mapped bytes: the limit it stored, and a base
   * made of the 4 base bytes it stored and, above them, the 4 bytes that
   * happen to follow the image.
   */
  lemma CompatReloadAsWritten(m: Memory, a: int, t: TableRegister)
    requires Mapped(m, a, 10)
    ensures StoreTableRegister(m, a, t, false).Some?
    ensures LoadTableRegisterAsWritten(StoreTableRegister(m, a, t, false).value, a) ==
      Some(TableRegister(WordOf(LeBytes(Truncate(t.base, 4), 4) + Load(m, a + 6, 4)), LowBytes(t.limit, 2)))
  {
    var m2 := StoredTableWords(m, a, t, false);
    var m1 := StoreWord(m, a, t.limit, 2).value;
    var m2' := StoreWordBytes(m1, a + 2, t.base, 4);
    assert m2' == m2;
    assert Mapped(m2, a, 10);
    assert Load(m2, a + 6, 4) == Load(m, a + 6, 4);
    LoadSplit(m2, a + 2, 4, 4);
  }

  /** A load of `n + k` bytes is the load of the first `n` followed by the load of the next `k`. */
  lemma LoadSplit(m: Memory, a: int, n: nat, k: nat)
    requires Mapped(m, a, n + k)
    ensures Load(m, a, n + k) == Load(m, a, n) + Load(m, a + n, k)
  {
    var whole, front, back := Load(m, a, n + k), Load(m, a, n), Load(m, a + n, k);
    forall i | 0 <= i < n + k
      ensures whole[i] == (front + back)[i]
    {
      if i >= n {
        assert back[i - n] == m[a + n + (i - n)];
      }
    }
  }

  /**
   * What an SGDT, SIDT, LGDT or LIDT leaves behind: the guest's GDTR and
   * IDTR and guest memory, or the guest address whose access faulted.
   */
  datatype TableOutcome = TableDone(tables: DescriptorTables, memory: Memory) | TableFault(address: u64)

  /** The table register SGDT (GDTR) or SIDT (IDTR) stores. */
  function StoredRegister(t: DescriptorTables, identity: u64): (r: TableRegister)
    ensures identity == Sgdt ==> r == TableRegister(t.gdtrBase, t.gdtrLimit)
    ensures identity != Sgdt ==> r == TableRegister(t.idtrBase, t.idtrLimit)
  {
    if identity == Sgdt then TableRegister(t.gdtrBase, t.gdtrLimit)
    else TableRegister(t.idtrBase, t.idtrLimit)
  }

  /** The GDTR and IDTR after LGDT (the GDTR) or LIDT (the IDTR) loads `r`. */
  function LoadedTables(t: DescriptorTables, identity: u64, r: TableRegister): (t': DescriptorTables)
    ensures identity == Lgdt ==> t' == t.(gdtrBase := r.base, gdtrLimit := r.limit)
    ensures identity != Lgdt ==> t' == t.(idtrBase := r.base, idtrLimit := r.limit)
  {
    if identity == Lgdt then t.(gdtrBase := r.base, gdtrLimit := r.limit)
    else t.(idtrBase := r.base, idtrLimit := r.limit)
  }

  /**
   * The emulation of SGDT, SIDT, LGDT and LIDT with operand address `a`.
   * A store first reads the guest's code-segment descriptor to learn its
   * operand size, writes the 10- or 6-byte image and leaves the GDTR and
   * IDTR alone. A load reads the 10-byte image whatever the operand size,
   * and no descriptor, into the GDTR or IDTR and leaves memory alone. An
   * access to an unmapped byte faults.
   */
  function GdtrOrIdtrAccess(m: Memory, g: GuestArea, identity: u64, a: u64): TableOutcome
    requires identity < 4
  {
    if identity == Sgdt || identity == Sidt then
      match CodeIs64(m, g)
      case None => TableFault(DescriptorAddress(g.tables.gdtrBase, g.segments.csSelector))
      case Some(longMode) =>
        match StoreTableRegister(m, a as int, StoredRegister(g.tables, identity), longMode)
        case None => TableFault(a)
        case Some(m') => TableDone(g.tables, m')
    else
      match LoadTableRegisterAsWritten(m, a as int)
      case None => TableFault(a)
      case Some(t) => TableDone(LoadedTables(g.tables, identity, t), m)
  }

  /**
   * A 64-bit guest that stores its GDTR (or IDTR) with SGDT (SIDT) and
   * loads the image back with LGDT (LIDT), while the image does not
   * overlap its code-segment descriptor, gets back its register with the
   * limit cut to 16 bits.
   */
  lemma StoreThenLoadTableRegister(m: Memory, g: GuestArea, store: u64, load: u64, a: u64)
    requires (store, load) == (Sgdt, Lgdt) || (store, load) == (Sidt, Lidt)
    requires CodeIs64(m, g) == Some(true)
    requires Mapped(m, a as int, 10)
    requires var d := DescriptorAddress(g.tables.gdtrBase, g.segments.csSelector) as int;
      d + 8 <= a as int || a as int + 10 <= d
    ensures GdtrOrIdtrAccess(m, g, store, a).TableDone?
    ensures var m' := GdtrOrIdtrAccess(m, g, store, a).memory;
      var t := StoredRegister(g.tables, store);
      GdtrOrIdtrAccess(m', g, load, a) == TableDone(LoadedTables(g.tables, load, TableRegister(t.base, LowBytes(t.limit, 2))), m')
  {
    var t := StoredRegister(g.tables, store);
    var m' := StoreKeepsCodeSegment(m, g, store, a);
    assert LoadTableRegisterAsWritten(m', a as int) == Some(Reloaded(t, true)) by {
      TableRegisterRoundTrip(m, a as int, t, true);
    }
    LoadAccess(m', g, load, a);
  }

  /**
   * LGDT and LIDT read the 10-byte image at `a` whatever the guest's
   * operand size: they fault exactly when one of its bytes is unmapped,
   * and otherwise load it into the GDTR (LGDT) or IDTR (LIDT) and leave
   * memory alone. The code segment plays no part: the outcome is the same
   * whatever the guest's segment registers are.
   */
  lemma LoadAccess(m: Memory, g: GuestArea, load: u64, a: u64)
    requires load == Lgdt || load == Lidt
    ensures GdtrOrIdtrAccess(m, g, load, a) ==
      if Mapped(m, a as int, 10) then TableDone(LoadedTables(g.tables, load, LoadTableRegisterAsWritten(m, a as int).value), m)
      else TableFault(a)
    ensures forall s: Segments :: GdtrOrIdtrAccess(m, g.(segments := s), load, a) == GdtrOrIdtrAccess(m, g, load, a)
  {
  }

  /** SGDT and SIDT store the image without touching the code-segment descriptor. */
  lemma StoreKeepsCodeSegment(m: Memory, g: GuestArea, store: u64, a: u64) returns (m': Memory)
    requires store == Sgdt || store == Sidt
    requires CodeIs64(m, g).Some?
    requires Mapped(m, a as int, TableRegisterSize(CodeIs64(m, g).value))
    requires var d := DescriptorAddress(g.tables.gdtrBase, g.segments.csSelector) as int;
      d + 8 <= a as int || a as int + TableRegisterSize(CodeIs64(m, g).value) <= d
    ensures StoreTableRegister(m, a as int, StoredRegister(g.tables, store), CodeIs64(m, g).value) == Some(m')
    ensures GdtrOrIdtrAccess(m, g, store, a) == TableDone(g.tables, m')
    ensures CodeIs64(m', g) == CodeIs64(m, g)
  {
    var longMode := CodeIs64(m, g).value;
    m' := StoreTableRegister(m, a as int, StoredRegister(g.tables, store), longMode).value;
    var d := DescriptorAddress(g.tables.gdtrBase, g.segments.csSelector) as int;
    LoadWordAgrees(m, m', d, 8);
  }

  /**
   * The GDTR/IDTR exit `exit` on guest memory `m` and guest state `g`: the
   * instruction information names the instruction and the operand, whose
   * displacement is the exit qualification.
   */
  function GdtrOrIdtrExit(m: Memory, g: GuestArea, regs: GpRegisters, exit: ExitInfo): TableOutcome
  {
    var info := DecodeTableInstructionInfo(exit.instructionInfo);
    GdtrOrIdtrAccess(m, g, info.identity, OperandAddress(info, regs, g.segments, exit.qualification))
  }

  /**
   * `VmmpHandleGdtrOrIdtrAccess`: emulates the instruction on guest memory
   * and the guest's GDTR and IDTR, and moves the guest past it. An access
   * to an unmapped byte stops the system.
   */
  method HandleGdtrOrIdtrAccess(ctx: GuestContext, vmcs: Vmcs, plat: Processor, exit: ExitInfo)
    returns (outcome: Outcome)
    modifies vmcs, plat
    ensures plat.ops == old(plat.ops)
    ensures var r := GdtrOrIdtrExit(old(plat.memory), old(vmcs.guest), old(ctx.stack.gpRegs), exit);
      && (r.TableFault? ==>
            && outcome == Fatal(GuestMemoryFault(r.address))
            && plat.memory == old(plat.memory) && vmcs.guest == old(vmcs.guest) && vmcs.entry == old(vmcs.entry))
      && (r.TableDone? ==>
            && outcome == Handled && plat.memory == r.memory
            && vmcs.guest == old(vmcs.guest).(tables := r.tables, rip := ctx.ip + exit.instructionLength)
            && vmcs.entry == SteppedEntry(old(vmcs.entry), ctx.flagReg, exit.instructionLength))
  {
    var r := GdtrOrIdtrExit(plat.memory, vmcs.guest, ctx.stack.gpRegs, exit);
    outcome := ApplyTableOutcome(ctx, vmcs, plat, exit, r);
  }

  /** Commits the outcome of a GDTR/IDTR instruction to the guest. */
  method ApplyTableOutcome(ctx: GuestContext, vmcs: Vmcs, plat: Processor, exit: ExitInfo, r: TableOutcome)
    returns (outcome: Outcome)
    modifies vmcs, plat
    ensures plat.ops == old(plat.ops)
    ensures r.TableFault? ==>
      && outcome == Fatal(GuestMemoryFault(r.address))
      && plat.memory == old(plat.memory) && vmcs.guest == old(vmcs.guest) && vmcs.entry == old(vmcs.entry)
    ensures r.TableDone? ==>
      && outcome == Handled && plat.memory == r.memory
      && vmcs.guest == old(vmcs.guest).(tables := r.tables, rip := ctx.ip + exit.instructionLength)
      && vmcs.entry == SteppedEntry(old(vmcs.entry), ctx.flagReg, exit.instructionLength)
  {
    match r
    case TableFault(x) =>
      outcome := Fatal(GuestMemoryFault(x));
    case TableDone(t, m') =>
      plat.memory := m';
      vmcs.guest := vmcs.guest.(tables := t);
      AdjustGuestInstructionPointer(ctx, vmcs, exit);
      outcome := Handled;
  }

  /**
   * What an SLDT, STR, LLDT or LTR leaves behind: the guest's registers,
   * its segment selectors and guest memory, or the guest address whose
   * access faulted.
   */
  datatype SelectorOutcome =
    | SelectorDone(regs: GpRegisters, segments: Segments, memory: Memory)
    | SelectorFault(address: u64)

  /** The selector SLDT (the LDTR's) or STR (the TR's) stores. */
  function StoredSelector(s: Segments, identity: u64): (sel: u64)
    ensures identity == Sldt ==> sel == s.ldtrSelector
    ensures identity != Sldt ==> sel == s.trSelector
  {
    if identity == Sldt then s.ldtrSelector else s.trSelector
  }

  /**
   * A register after a 16-bit store into it: its low 16 bits are those of
   * `sel`, the others are kept.
   */
  function WithLowWord(v: u64, sel: u64): (r: u64)
    ensures r & 0xFFFF == sel & 0xFFFF
    ensures r & !0xFFFF == v & !0xFFFF
  {
    (v & !0xFFFF) | (sel & 0xFFFF)
  }

  /**
   * SLDT or STR storing `sel`: into the low 16 bits of the operand
   * register, or into the 2 bytes at the operand address.
   */
  function StoreSelector(m: Memory, regs: GpRegisters, s: Segments, sel: u64, op: Operand): SelectorOutcome
  {
    match op
    case InRegister(reg) => SelectorDone(Set(regs, reg, WithLowWord(Get(regs, reg), sel)), s, m)
    case InMemory(a) =>
      match StoreWord(m, a as int, sel, 2)
      case None => SelectorFault(a)
      case Some(m') => SelectorDone(regs, s, m')
  }

  /**
   * SLDT and STR change no selector. A register operand never faults and
   * gets the selector in its low 16 bits, every other bit and register
   * kept. A memory operand faults exactly when one of its 2 bytes is
   * unmapped, and otherwise gets the selector there, every other byte kept.
   */
  lemma StoreSelectorEffects(m: Memory, regs: GpRegisters, s: Segments, sel: u64, op: Operand)
    ensures var r := StoreSelector(m, regs, s, sel, op);
      r.SelectorFault? <==> op.InMemory? && !Mapped(m, op.address as int, 2)
    ensures var r := StoreSelector(m, regs, s, sel, op);
      op.InRegister? ==>
        && r == SelectorDone(r.regs, s, m)
        && Get(r.regs, op.r) & 0xFFFF == sel & 0xFFFF
        && Get(r.regs, op.r) & !0xFFFF == Get(regs, op.r) & !0xFFFF
        && forall o: Reg | o != op.r :: Get(r.regs, o) == Get(regs, o)
    ensures var r := StoreSelector(m, regs, s, sel, op);
      op.InMemory? && r.SelectorDone? ==>
        && r == SelectorDone(regs, s, r.memory)
        && r.memory.Keys == m.Keys
        && LoadWord(r.memory, op.address as int, 2) == Some(LowBytes(sel, 2))
        && forall x | x in m && !(op.address as int <= x < op.address as int + 2) :: r.memory[x] == m[x]
  {
    if op.InMemory? && Mapped(m, op.address as int, 2) {
      LoadStoreWord(m, op.address as int, sel, 2);
    }
  }

  /**
   * The 16-bit selector LLDT or LTR reads: the low 16 bits of the register,
   * or the 2 bytes in memory (`None` when one is not mapped).
   */
  function LoadedSelector(m: Memory, regs: GpRegisters, op: Operand): (r: Option<u64>)
    ensures op.InRegister? ==> r == Some(Get(regs, op.r) & 0xFFFF)
    ensures op.InMemory? ==> r == LoadWord(m, op.address as int, 2)
  {
    match op
    case InRegister(reg) => Some(Get(regs, reg) & 0xFFFF)
    case InMemory(a) => LoadWord(m, a as int, 2)
  }

  /** The selector LLDT or LTR finds after SLDT or STR stored `sel` into `op`. */
  function StoredSelectorValue(op: Operand, sel: u64): u64
  {
    if op.InRegister? then sel & 0xFFFF else LowBytes(sel, 2)
  }

  /**
   * Storing a selector with SLDT or STR and reading the same operand back
   * with LLDT or LTR gives the selector's 16 bits.
   */
  lemma StoreThenLoadSelector(m: Memory, regs: GpRegisters, s: Segments, sel: u64, op: Operand)
    requires op.InMemory? ==> Mapped(m, op.address as int, 2)
    ensures StoreSelector(m, regs, s, sel, op).SelectorDone?
    ensures var stored := StoreSelector(m, regs, s, sel, op);
      LoadedSelector(stored.memory, stored.regs, op) == Some(StoredSelectorValue(op, sel))
  {
    StoreSelectorEffects(m, regs, s, sel, op);
  }

  /**
   * LTR after loading `sel`: the TR selector becomes `sel` and the TSS
   * descriptor the selector names is marked busy.
   */
  function LoadTaskRegister(m: Memory, regs: GpRegisters, s: Segments, gdtrBase: u64, sel: u64): SelectorOutcome
  {
    var d := DescriptorAddress(gdtrBase, sel);
    match LoadWord(m, d as int, 8)
    case None => SelectorFault(d)
    case Some(desc) => SelectorDone(regs, s.(trSelector := sel), StoreWord(m, d as int, SetBits(desc, TssBusyBit), 8).value)
  }

  /**
   * LTR faults exactly when the TSS descriptor is unmapped. Otherwise it
   * changes no register, no other selector than the TR, and no memory but
   * the descriptor's 8 bytes.
   */
  lemma LoadTaskRegisterEffects(m: Memory, regs: GpRegisters, s: Segments, gdtrBase: u64, sel: u64)
    ensures var d := DescriptorAddress(gdtrBase, sel) as int;
      LoadTaskRegister(m, regs, s, gdtrBase, sel).SelectorFault? <==> !Mapped(m, d, 8)
    ensures var r := LoadTaskRegister(m, regs, s, gdtrBase, sel);
      var d := DescriptorAddress(gdtrBase, sel) as int;
      r.SelectorDone? ==>
        && r == SelectorDone(regs, s.(trSelector := sel), r.memory)
        && r.memory.Keys == m.Keys
        && forall x | x in m && !(d <= x < d + 8) :: r.memory[x] == m[x]
  {
  }

  /**
   * The TSS descriptor LTR leaves behind reads back with the busy bit set
   * and every other bit as it was.
   */
  lemma LoadTaskRegisterMarksBusy(m: Memory, regs: GpRegisters, s: Segments, gdtrBase: u64, sel: u64)
    requires Mapped(m, DescriptorAddress(gdtrBase, sel) as int, 8)
    ensures var d := DescriptorAddress(gdtrBase, sel) as int;
      var r := LoadTaskRegister(m, regs, s, gdtrBase, sel);
      && r.SelectorDone?
      && LoadWord(r.memory, d, 8) == Some(SetBits(LoadWord(m, d, 8).value, TssBusyBit))
  {
    var d := DescriptorAddress(gdtrBase, sel) as int;
    var busy := SetBits(LoadWord(m, d, 8).value, TssBusyBit);
    var m' := StoreWord(m, d, busy, 8).value;
    assert LoadTaskRegister(m, regs, s, gdtrBase, sel) == SelectorDone(regs, s.(trSelector := sel), m');
    assert LoadWord(m', d, 8) == Some(busy) by {
      LoadStoreWord(m, d, busy, 8);
      LowBytesEight(busy);
    }
  }

  /**
   * The emulation of SLDT, STR, LLDT and LTR on operand `op`: SLDT and STR
   * store the LDTR or TR selector, LLDT and LTR load the 16-bit selector
   * into the LDTR or TR, and LTR marks the TSS descriptor busy.
   */
  function LdtrOrTrAccess(m: Memory, regs: GpRegisters, s: Segments, gdtrBase: u64, identity: u64, op: Operand)
    : SelectorOutcome
  {
    if identity == Sldt || identity == Str then
      StoreSelector(m, regs, s, StoredSelector(s, identity), op)
    else
      match LoadedSelector(m, regs, op)
      case None => SelectorFault(op.address)
      case Some(sel) =>
        if identity == Lldt then SelectorDone(regs, s.(ldtrSelector := sel), m)
        else LoadTaskRegister(m, regs, s, gdtrBase, sel)
  }

  /**
   * The LDTR/TR exit `exit` on guest memory `m`, guest state `g` and the
   * saved registers: the instruction information names the instruction and
   * the operand, whose displacement is the exit qualification.
   */
  function LdtrOrTrExit(m: Memory, g: GuestArea, regs: GpRegisters, exit: ExitInfo): SelectorOutcome
  {
    var info := DecodeTableInstructionInfo(exit.instructionInfo);
    LdtrOrTrAccess(m, regs, g.segments, g.tables.gdtrBase, info.identity,
      SelectorOperand(info, regs, g.segments, exit.qualification))
  }

  /**
   * `VmmpHandleLdtrOrTrAccess`: emulates the instruction on the saved
   * registers, guest memory and the guest's LDTR and TR selectors, and
   * moves the guest past it. An access to an unmapped byte stops the
   * system.
   */
  method HandleLdtrOrTrAccess(ctx: GuestContext, vmcs: Vmcs, plat: Processor, exit: ExitInfo)
    returns (outcome: Outcome)
    modifies ctx.stack, vmcs, plat
    ensures plat.ops == old(plat.ops)
    ensures var r := LdtrOrTrExit(old(plat.memory), old(vmcs.guest), old(ctx.stack.gpRegs), exit);
      && (r.SelectorFault? ==>
            && outcome == Fatal(GuestMemoryFault(r.address))
            && plat.memory == old(plat.memory) && ctx.stack.gpRegs == old(ctx.stack.gpRegs)
            && vmcs.guest == old(vmcs.guest) && vmcs.entry == old(vmcs.entry))
      && (r.SelectorDone? ==>
            && outcome == Handled && plat.memory == r.memory && ctx.stack.gpRegs == r.regs
            && vmcs.guest == old(vmcs.guest).(segments := r.segments, rip := ctx.ip + exit.instructionLength)
            && vmcs.entry == SteppedEntry(old(vmcs.entry), ctx.flagReg, exit.instructionLength))
  {
    var r := LdtrOrTrExit(plat.memory, vmcs.guest, ctx.stack.gpRegs, exit);
    outcome := ApplySelectorOutcome(ctx, vmcs, plat, exit, r);
  }

  /** Commits the outcome of an LDTR/TR instruction to the guest. */
  method ApplySelectorOutcome(ctx: GuestContext, vmcs: Vmcs, plat: Processor, exit: ExitInfo, r: SelectorOutcome)
    returns (outcome: Outcome)
    modifies ctx.stack, vmcs, plat
    ensures plat.ops == old(plat.ops)
    ensures r.SelectorFault? ==>
      && outcome == Fatal(GuestMemoryFault(r.address))
      && plat.memory == old(plat.memory) && ctx.stack.gpRegs == old(ctx.stack.gpRegs)
      && vmcs.guest == old(vmcs.guest) && vmcs.entry == old(vmcs.entry)
    ensures r.SelectorDone? ==>
      && outcome == Handled && plat.memory == r.memory && ctx.stack.gpRegs == r.regs
      && vmcs.guest == old(vmcs.guest).(segments := r.segments, rip := ctx.ip + exit.instructionLength)
      && vmcs.entry == SteppedEntry(old(vmcs.entry), ctx.flagReg, exit.instructionLength)
  {
    match r
    case SelectorFault(x) =>
      outcome := Fatal(GuestMemoryFault(x));
    case SelectorDone(regs, segments, m') =>
      ctx.stack.gpRegs := regs;
      plat.memory := m';
      vmcs.guest := vmcs.guest.(segments := segments);
      AdjustGuestInstructionPointer(ctx, vmcs, exit);
      outcome := Handled;
  }
}
