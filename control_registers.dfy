/**
 * MOV to and from control registers (`VmmpHandleCrAccess`). Writes to CR0
 * and CR4 are committed with the bits the VMX capability MSRs fix, to the
 * guest register and to the read shadow the guest sees; a write to CR3
 * drops bit 63 and flushes the guest's VPID; CR8 lives in the guest
 * context. Reads are emulated for CR3 and CR8 only; CLTS and LMSW are not
 * emulated; any other register stops the system.
 */
module ControlRegisters {
  import opened Bits
  import opened Registers
  import opened Vmcs
  import opened ExitInfo
  import opened Context
  import opened Instructions

  /** Bit 63 of a MOV to CR3 (no-invalidate with PCIDs), which CR3 itself never holds. */
  const Cr3NoInvalidate: u64 := 1 << 63

  /**
   * A CR0 or CR4 value made acceptable to VMX (`IA32_VMX_CR0_FIXED0` and
   * friends): `fixed0` names the bits that must be one and the zero bits
   * of `fixed1` the bits that must be zero.
   */
  function FixedBitsApplied(v: u64, fixed0: u64, fixed1: u64): u64
  {
    (v & fixed1) | fixed0
  }

  /** Every bit `fixed0` names is one in the committed value. */
  lemma FixedBitsSet(v: u64, fixed0: u64, fixed1: u64)
    ensures FixedBitsApplied(v, fixed0, fixed1) & fixed0 == fixed0
  {
  }

  /** Every bit that neither `fixed0` nor `fixed1` allows is zero in the committed value. */
  lemma FixedBitsCleared(v: u64, fixed0: u64, fixed1: u64)
    ensures FixedBitsApplied(v, fixed0, fixed1) & !(fixed0 | fixed1) == 0
  {
  }

  /** The bits left free (one in `fixed1`, zero in `fixed0`) keep the value written. */
  lemma FixedBitsKept(v: u64, fixed0: u64, fixed1: u64)
    ensures FixedBitsApplied(v, fixed0, fixed1) & (fixed1 & !fixed0) == v & (fixed1 & !fixed0)
  {
  }

  /** A value that already has the fixed bits is committed as written. */
  lemma FixedBitsHeld(v: u64, fixed0: u64, fixed1: u64)
    requires v & fixed0 == fixed0 && v & !(fixed0 | fixed1) == 0
    ensures FixedBitsApplied(v, fixed0, fixed1) == v
  {
  }

  /** A value is committed unchanged exactly when it already has the fixed bits. */
  lemma FixedBitsUnchanged(v: u64, fixed0: u64, fixed1: u64)
    ensures FixedBitsApplied(v, fixed0, fixed1) == v <==>
      v & fixed0 == fixed0 && v & !(fixed0 | fixed1) == 0
  {
    FixedBitsSet(v, fixed0, fixed1);
    FixedBitsCleared(v, fixed0, fixed1);
    if v & fixed0 == fixed0 && v & !(fixed0 | fixed1) == 0 {
      FixedBitsHeld(v, fixed0, fixed1);
    }
  }

  /** Committing a committed value again changes nothing. */
  lemma FixedBitsIdempotent(v: u64, fixed0: u64, fixed1: u64)
    ensures var r := FixedBitsApplied(v, fixed0, fixed1);
      FixedBitsApplied(r, fixed0, fixed1) == r
  {
    FixedBitsSet(v, fixed0, fixed1);
    FixedBitsCleared(v, fixed0, fixed1);
    FixedBitsHeld(FixedBitsApplied(v, fixed0, fixed1), fixed0, fixed1);
  }

  /**
   * The CR3 of the kernel address space (`VmmpGetKernelCr3` on x64): a
   * guest CR3 with bit 0 set is taken for a user-mode CR3, and the
   * current process's `DirectoryTableBase` is used instead.
   */
  function KernelCr3(guestCr3: u64, directoryTableBase: u64): u64
  {
    if guestCr3 & 1 != 0 then directoryTableBase else guestCr3
  }

  /** The PDPTE reload (`UtilLoadPdptes`) done only under 32-bit PAE paging. */
  function PdpteReload(isX86Pae: bool, cr3: u64): seq<HardwareOp>
  {
    if isX86Pae then [LoadPdptes(cr3)] else []
  }

  /**
   * What a control-register access does: it stops the system, or it leaves
   * the guest's control registers, registers and CR8 as given and performs
   * the operations listed, in order.
   */
  datatype CrAccess =
    | CrUnsupported
    | CrDone(control: ControlRegisters, regs: GpRegisters, cr8: u64, ops: seq<HardwareOp>)

  /**
   * The access a MOV CR exit asks for: control register `n`, the access
   * type of the exit qualification, general register `reg`.
   */
  function MovCr(c: ControlRegisters, regs: GpRegisters, cr8: u64, hw: Hardware,
                 accessType: u64, n: u64, reg: Reg): CrAccess
  {
    if accessType == MoveToCr then
      WriteControlRegister(c, regs, cr8, hw, n, Get(regs, reg))
    else if accessType == MoveFromCr then
      ReadControlRegister(c, regs, cr8, n, reg)
    else
      // CLTS and LMSW: not emulated, only stepped over.
      CrDone(c, regs, cr8, [])
  }

  /** A MOV of `v` to control register `n`; no general register changes. */
  function WriteControlRegister(c: ControlRegisters, regs: GpRegisters, cr8: u64, hw: Hardware, n: u64, v: u64): CrAccess
  {
    if n == 0 then
      var cr0 := FixedBitsApplied(v, hw.cr0Fixed0, hw.cr0Fixed1);
      CrDone(c.(cr0 := cr0, cr0ReadShadow := cr0), regs, cr8,
        PdpteReload(hw.isX86Pae, c.cr3))
    else if n == 3 then
      CrDone(c.(cr3 := ClearBits(v, Cr3NoInvalidate)), regs, cr8,
        PdpteReload(hw.isX86Pae, KernelCr3(c.cr3, hw.directoryTableBase))
          + [InvvpidSingleContextExceptGlobal(GuestVpid(hw.processorNumber))])
    else if n == 4 then
      var cr4 := FixedBitsApplied(v, hw.cr4Fixed0, hw.cr4Fixed1);
      CrDone(c.(cr4 := cr4, cr4ReadShadow := cr4), regs, cr8,
        PdpteReload(hw.isX86Pae, c.cr3) + [InvvpidAllContext])
    else if n == 8 then
      CrDone(c, regs, v, [])
    else
      CrUnsupported
  }

  /** A MOV from control register `n` into `reg`. */
  function ReadControlRegister(c: ControlRegisters, regs: GpRegisters, cr8: u64, n: u64, reg: Reg): CrAccess
  {
    if n == 3 then CrDone(c, Set(regs, reg, c.cr3), cr8, [])
    else if n == 8 then CrDone(c, Set(regs, reg, cr8), cr8, [])
    else CrUnsupported
  }

  /**
   * Exactly a MOV to a register other than CR0, CR3, CR4 and CR8, or a MOV
   * from a register other than CR3 and CR8, stops the system.
   */
  lemma UnsupportedCrAccess(c: ControlRegisters, regs: GpRegisters, cr8: u64, hw: Hardware,
                            accessType: u64, n: u64, reg: Reg)
    ensures MovCr(c, regs, cr8, hw, accessType, n, reg).CrUnsupported? <==>
      || (accessType == MoveToCr && n != 0 && n != 3 && n != 4 && n != 8)
      || (accessType == MoveFromCr && n != 3 && n != 8)
  {
  }

  /** CLTS and LMSW change nothing but the instruction pointer. */
  lemma CltsAndLmswIgnored(c: ControlRegisters, regs: GpRegisters, cr8: u64, hw: Hardware,
                           accessType: u64, n: u64, reg: Reg)
    requires accessType == Clts || accessType == Lmsw
    ensures MovCr(c, regs, cr8, hw, accessType, n, reg) == CrDone(c, regs, cr8, [])
  {
  }

  /**
   * A MOV to CR0 commits the value with its fixed bits to CR0, and the
   * guest reads back through the shadow exactly what was committed (not
   * the value it wrote, when that lacked a fixed bit); CR3,
   * CR4, CR8 and the general registers are untouched, and no TLB is
   * flushed.
   */
  lemma Cr0Write(c: ControlRegisters, regs: GpRegisters, cr8: u64, hw: Hardware, v: u64)
    ensures var r := WriteControlRegister(c, regs, cr8, hw, 0, v);
      && r.CrDone? && r.control.cr0ReadShadow == r.control.cr0
      && r.control.cr0 == FixedBitsApplied(v, hw.cr0Fixed0, hw.cr0Fixed1)
      && r.control.(cr0 := c.cr0, cr0ReadShadow := c.cr0ReadShadow) == c
      && r.regs == regs && r.cr8 == cr8 && r.ops == PdpteReload(hw.isX86Pae, c.cr3)
  {
  }

  /** Writing back the CR0 value the guest reads changes nothing. */
  lemma Cr0Rewrite(c: ControlRegisters, regs: GpRegisters, cr8: u64, hw: Hardware, v: u64)
    ensures var r := WriteControlRegister(c, regs, cr8, hw, 0, v);
      WriteControlRegister(r.control, regs, cr8, hw, 0, r.control.cr0ReadShadow).control == r.control
  {
    FixedBitsIdempotent(v, hw.cr0Fixed0, hw.cr0Fixed1);
  }

  /**
   * A MOV to CR4 commits the value with its fixed bits to CR4 and its
   * shadow, leaves everything else, and ends by flushing every VPID's TLB
   * entries.
   */
  lemma Cr4Write(c: ControlRegisters, regs: GpRegisters, cr8: u64, hw: Hardware, v: u64)
    ensures var r := WriteControlRegister(c, regs, cr8, hw, 4, v);
      && r.CrDone? && r.control.cr4ReadShadow == r.control.cr4
      && r.control.cr4 == FixedBitsApplied(v, hw.cr4Fixed0, hw.cr4Fixed1)
      && r.control.(cr4 := c.cr4, cr4ReadShadow := c.cr4ReadShadow) == c
      && r.regs == regs && r.cr8 == cr8
      && r.ops == PdpteReload(hw.isX86Pae, c.cr3) + [InvvpidAllContext]
  {
  }

  /** Writing back the CR4 value the guest reads changes nothing. */
  lemma Cr4Rewrite(c: ControlRegisters, regs: GpRegisters, cr8: u64, hw: Hardware, v: u64)
    ensures var r := WriteControlRegister(c, regs, cr8, hw, 4, v);
      WriteControlRegister(r.control, regs, cr8, hw, 4, r.control.cr4ReadShadow).control == r.control
  {
    FixedBitsIdempotent(v, hw.cr4Fixed0, hw.cr4Fixed1);
  }

  /**
   * A MOV to CR3 followed by a MOV from CR3 gives back the value written
   * with bit 63 cleared and its other 63 bits intact; the write flushes the
   * guest's VPID, reloading the PDPTEs of the kernel address space first
   * under PAE paging.
   */
  lemma Cr3WriteThenRead(c: ControlRegisters, regs: GpRegisters, cr8: u64, hw: Hardware,
                         v: u64, reg: Reg)
    ensures var w := WriteControlRegister(c, regs, cr8, hw, 3, v);
      && w.CrDone?
      && w.ops == PdpteReload(hw.isX86Pae, KernelCr3(c.cr3, hw.directoryTableBase))
           + [InvvpidSingleContextExceptGlobal(GuestVpid(hw.processorNumber))]
      && var r := ReadControlRegister(w.control, w.regs, w.cr8, 3, reg);
      && r.CrDone?
      && Get(r.regs, reg) & Cr3NoInvalidate == 0
      && Get(r.regs, reg) & !Cr3NoInvalidate == v & !Cr3NoInvalidate
  {
  }

  /** A MOV to CR8 followed by a MOV from CR8 gives back the value written. */
  lemma Cr8WriteThenRead(c: ControlRegisters, regs: GpRegisters, cr8: u64, hw: Hardware,
                         v: u64, reg: Reg)
    ensures var w := WriteControlRegister(c, regs, cr8, hw, 8, v);
      && w.CrDone? && w.control == c && w.ops == []
      && var r := ReadControlRegister(w.control, w.regs, w.cr8, 8, reg);
      && r.CrDone? && Get(r.regs, reg) == v
  {
    var w := WriteControlRegister(c, regs, cr8, hw, 8, v);
    assert w == CrDone(c, regs, v, []);
    assert ReadControlRegister(c, regs, v, 8, reg) == CrDone(c, Set(regs, reg, v), v, []);
  }

  /**
   * A MOV from a control register writes the destination register only,
   * and leaves the control registers and CR8 alone.
   */
  lemma ReadChangesOnlyDestination(c: ControlRegisters, regs: GpRegisters, cr8: u64, n: u64, reg: Reg)
    requires n == 3 || n == 8
    ensures var r := ReadControlRegister(c, regs, cr8, n, reg);
      && r.CrDone? && r.control == c && r.cr8 == cr8 && r.ops == []
      && Get(r.regs, reg) == (if n == 3 then c.cr3 else cr8)
      && forall o: Reg | o != reg :: Get(r.regs, o) == Get(regs, o)
  {
  }

  /**
   * `VmmpHandleCrAccess`: the access is decided by `MovCr` on the decoded
   * exit qualification. An unsupported one stops the system before
   * anything changes; otherwise the control registers, general registers
   * and CR8 take their new values, the operations are performed, and the
   * guest moves past the instruction.
   */
  method HandleCrAccess(ctx: GuestContext, vmcs: Vmcs, plat: Processor, exit: ExitInfo, hw: Hardware)
    returns (outcome: Outcome)
    modifies ctx, ctx.stack, vmcs, plat
    ensures ctx.flagReg == old(ctx.flagReg) && ctx.vmContinue == old(ctx.vmContinue)
    ensures plat.memory == old(plat.memory)
    ensures var d := DecodeMovCr(exit.qualification);
      var r := MovCr(old(vmcs.guest.control), old(ctx.stack.gpRegs), old(ctx.cr8), hw,
                     d.accessType, d.controlRegister, SelectRegister(d.gpRegister).value);
      && (r.CrUnsupported? ==>
            && outcome == Fatal(Unspecified)
            && ctx.stack.gpRegs == old(ctx.stack.gpRegs) && ctx.cr8 == old(ctx.cr8)
            && plat.ops == old(plat.ops)
            && vmcs.guest == old(vmcs.guest) && vmcs.entry == old(vmcs.entry))
      && (r.CrDone? ==>
            && outcome == Handled
            && ctx.stack.gpRegs == r.regs && ctx.cr8 == r.cr8
            && plat.ops == old(plat.ops) + r.ops
            && vmcs.guest == old(vmcs.guest).(control := r.control, rip := ctx.ip + exit.instructionLength)
            && vmcs.entry == SteppedEntry(old(vmcs.entry), ctx.flagReg, exit.instructionLength))
  {
    var d := DecodeMovCr(exit.qualification);
    var r := MovCr(vmcs.guest.control, ctx.stack.gpRegs, ctx.cr8, hw,
                   d.accessType, d.controlRegister, SelectRegister(d.gpRegister).value);
    outcome := ApplyCrAccess(ctx, vmcs, plat, exit, r);
  }

  /** Commits the outcome of a control-register access to the guest and the processor. */
  method ApplyCrAccess(ctx: GuestContext, vmcs: Vmcs, plat: Processor, exit: ExitInfo, r: CrAccess)
    returns (outcome: Outcome)
    modifies ctx, ctx.stack, vmcs, plat
    ensures ctx.flagReg == old(ctx.flagReg) && ctx.vmContinue == old(ctx.vmContinue)
    ensures plat.memory == old(plat.memory)
    ensures r.CrUnsupported? ==>
      && outcome == Fatal(Unspecified)
      && ctx.stack.gpRegs == old(ctx.stack.gpRegs) && ctx.cr8 == old(ctx.cr8)
      && plat.ops == old(plat.ops)
      && vmcs.guest == old(vmcs.guest) && vmcs.entry == old(vmcs.entry)
    ensures r.CrDone? ==>
      && outcome == Handled
      && ctx.stack.gpRegs == r.regs && ctx.cr8 == r.cr8
      && plat.ops == old(plat.ops) + r.ops
      && vmcs.guest == old(vmcs.guest).(control := r.control, rip := ctx.ip + exit.instructionLength)
      && vmcs.entry == SteppedEntry(old(vmcs.entry), ctx.flagReg, exit.instructionLength)
  {
    match r
    case CrUnsupported =>
      outcome := Fatal(Unspecified);
    case CrDone(control, regs, cr8, ops) =>
      plat.ops := plat.ops + ops;
      vmcs.guest := vmcs.guest.(control := control);
      ctx.stack.gpRegs := regs;
      ctx.cr8 := cr8;
      AdjustGuestInstructionPointer(ctx, vmcs, exit);
      outcome := Handled;
  }
}
