/**
 * Emulation of MOV to and from the debug registers (`VmmpHandleDrAccess`),
 * following sections 17.2.2 (DR4 and DR5), 17.2.3 (DR6) and 17.2.4 (DR7)
 * of volume 3 of the Intel SDM. DR0-DR3 and DR6 live in the real processor;
 * the guest's DR7 lives in the VMCS.
 */
module DebugRegisters {
  import opened Wrappers
  import opened Bits
  import opened Registers
  import opened Vmcs
  import opened ExitInfo
  import opened Context

  /** CR4.DE, debugging extensions: bit 3. */
  const DebuggingExtensions: u64 := 1 << 3

  /** DR7.GD, general-detect enable: bit 13. */
  const GeneralDetectEnable: u64 := 1 << 13

  /** DR6.B0-B3, the breakpoint conditions detected: bits 0-3. */
  const BreakpointsDetected: u64 := 0xF

  /** DR6.BD, debug-register access detected: bit 13. */
  const AccessDetected: u64 := 1 << 13

  /** The DR6 bits that are always one: bits 4-11 and 17-31. */
  const Dr6AlwaysOne: u64 := 0xFFFE_0FF0

  /** The DR6 bit that is always zero: bit 12. */
  const Dr6AlwaysZero: u64 := 1 << 12

  /** The DR7 bit that is always one: bit 10. */
  const Dr7AlwaysOne: u64 := 1 << 10

  /** The DR7 bits that are always zero: bits 12, 14 and 15. */
  const Dr7AlwaysZero: u64 := 0xD000

  /**
   * The value committed to DR6 by a MOV to DR6: its fixed bits forced to
   * their values, every other bit as the guest wrote it.
   */
  function CommittedDr6(v: u64): (r: u64)
    ensures r & Dr6AlwaysOne == Dr6AlwaysOne && r & Dr6AlwaysZero == 0
    ensures r & !(Dr6AlwaysOne | Dr6AlwaysZero) == v & !(Dr6AlwaysOne | Dr6AlwaysZero)
  {
    ClearBits(SetBits(v, Dr6AlwaysOne), Dr6AlwaysZero)
  }

  /**
   * The value committed to DR7 by a MOV to DR7: its fixed bits forced to
   * their values, every other bit as the guest wrote it.
   */
  function CommittedDr7(v: u64): (r: u64)
    ensures r & Dr7AlwaysOne == Dr7AlwaysOne && r & Dr7AlwaysZero == 0
    ensures r & !(Dr7AlwaysOne | Dr7AlwaysZero) == v & !(Dr7AlwaysOne | Dr7AlwaysZero)
  {
    ClearBits(SetBits(v, Dr7AlwaysOne), Dr7AlwaysZero)
  }

  /** A DR6 value is committed unchanged exactly when its fixed bits already hold. */
  lemma CommittedDr6Unchanged(v: u64)
    ensures CommittedDr6(v) == v <==> v & Dr6AlwaysOne == Dr6AlwaysOne && v & Dr6AlwaysZero == 0
  {
  }

  /** Committing a committed DR6 value again changes nothing. */
  lemma CommittedDr6Idempotent(v: u64)
    ensures CommittedDr6(CommittedDr6(v)) == CommittedDr6(v)
  {
    CommittedDr6Unchanged(CommittedDr6(v));
  }

  /** A DR7 value is committed unchanged exactly when its fixed bits already hold. */
  lemma CommittedDr7Unchanged(v: u64)
    ensures CommittedDr7(v) == v <==> v & Dr7AlwaysOne == Dr7AlwaysOne && v & Dr7AlwaysZero == 0
  {
  }

  /** Committing a committed DR7 value again changes nothing. */
  lemma CommittedDr7Idempotent(v: u64)
    ensures CommittedDr7(CommittedDr7(v)) == CommittedDr7(v)
  {
    CommittedDr7Unchanged(CommittedDr7(v));
  }

  /**
   * DR6 as a general-detect #DB leaves it: B0-B3 clear (the #DB is not due
   * to a breakpoint), BD set, every other bit as the processor had it.
   */
  function GeneralDetectStatus(dr6: u64): (r: u64)
    ensures r & BreakpointsDetected == 0 && r & AccessDetected == AccessDetected
    ensures r & !(BreakpointsDetected | AccessDetected) == dr6 & !(BreakpointsDetected | AccessDetected)
  {
    SetBits(ClearBits(dr6, BreakpointsDetected), AccessDetected)
  }

  /** The debug register an access reaches: DR4 is DR6 and DR5 is DR7. */
  function AliasedRegister(n: u64): (a: u64)
    requires n < 8
    ensures a < 8 && a != 4 && a != 5
    ensures n != 4 && n != 5 ==> a == n
  {
    if n == 4 then 6 else if n == 5 then 7 else n
  }

  /** What a MOV from debug register `n` reads: DR7 from the VMCS, the rest from the processor. */
  function DebugRegisterValue(g: GuestArea, hw: Hardware, n: u64): u64
    requires n < 8 && n != 4 && n != 5
  {
    if n == 0 then hw.dr0
    else if n == 1 then hw.dr1
    else if n == 2 then hw.dr2
    else if n == 3 then hw.dr3
    else if n == 6 then hw.dr6
    else g.dr7
  }

  /**
   * What a MOV DR exit comes to: an exception injected instead of the
   * access; a general-detect #DB, with the values DR6 and the guest's DR7
   * take; or the access performed, with the registers, the guest's DR7 and
   * the debug-register writes it leaves.
   */
  datatype DrAccess =
    | Refused(fault: Fault)
    | GeneralDetect(dr6: u64, dr7: u64)
    | Performed(regs: GpRegisters, dr7: u64, ops: seq<HardwareOp>)

  /** The exceptions a MOV DR is refused with. */
  datatype Fault = GeneralProtection | InvalidOpcode
  {
    /** The exception vector; #GP(0) delivers its error code, #UD has none. */
    function Vector(): (v: u64)
      ensures v < 256
    {
      if this == GeneralProtection then GeneralProtectionException else InvalidOpcodeException
    }
  }

  /** The guest runs below ring 0: MOV DR is refused with #GP(0). */
  predicate Unprivileged(g: GuestArea)
  {
    GuestCpl(g) != 0
  }

  /** DR4 or DR5 with CR4.DE set: the access is refused with #UD. */
  predicate ReservedAlias(g: GuestArea, n: u64)
  {
    (n == 4 || n == 5) && g.control.cr4 & DebuggingExtensions != 0
  }

  /** A 64-bit MOV to DR6 or DR7 of a value with any of its upper 32 bits set. */
  predicate WideWrite(n: u64, moveFromDr: bool, v: u64)
  {
    !moveFromDr && (n == 6 || n == 7) && v >> 32 != 0
  }

  /**
   * The decision of `VmmpHandleDrAccess` for the guest state `g`, the
   * guest's registers and the decoded exit qualification `d`: the checks
   * on the privilege level and on DR4 and DR5, then the access to the
   * debug register the number names once aliased.
   */
  function MovDrAccess(g: GuestArea, regs: GpRegisters, hw: Hardware, d: MovDrQualification): DrAccess
    requires d.debugRegister < 8 && d.gpRegister < 16
  {
    if Unprivileged(g) then
      Refused(GeneralProtection)
    else if ReservedAlias(g, d.debugRegister) then
      Refused(InvalidOpcode)
    else
      AccessDebugRegister(g, regs, hw, AliasedRegister(d.debugRegister), d.moveFromDr, SelectRegister(d.gpRegister).value)
  }

  /**
   * An access by a ring-0 guest to debug register `n` (not DR4 or DR5)
   * through general-purpose register `reg`: the general-detect check, the
   * check on the upper bits of DR6 and DR7, then the read or the write.
   */
  function AccessDebugRegister(g: GuestArea, regs: GpRegisters, hw: Hardware, n: u64, moveFromDr: bool, reg: Reg): DrAccess
    requires n < 8 && n != 4 && n != 5
  {
    if g.dr7 & GeneralDetectEnable != 0 then
      GeneralDetect(GeneralDetectStatus(hw.dr6), ClearBits(g.dr7, GeneralDetectEnable))
    else if WideWrite(n, moveFromDr, Get(regs, reg)) then
      Refused(GeneralProtection)
    else if moveFromDr then
      Performed(Set(regs, reg, DebugRegisterValue(g, hw, n)), g.dr7, [])
    else if n == 7 then
      Performed(regs, CommittedDr7(Get(regs, reg)), [])
    else if n == 6 then
      Performed(regs, g.dr7, [WriteDr(6, CommittedDr6(Get(regs, reg)))])
    else
      Performed(regs, g.dr7, [WriteDr(n, Get(regs, reg))])
  }

  /** A guest below ring 0 gets #GP(0) and nothing else happens. */
  lemma UnprivilegedMovDr(g: GuestArea, regs: GpRegisters, hw: Hardware, d: MovDrQualification)
    requires d.debugRegister < 8 && d.gpRegister < 16
    requires Unprivileged(g)
    ensures MovDrAccess(g, regs, hw, d) == Refused(GeneralProtection)
  {
  }

  /** With CR4.DE set at ring 0, DR4 and DR5 are refused with #UD. */
  lemma ReservedAliasMovDr(g: GuestArea, regs: GpRegisters, hw: Hardware, d: MovDrQualification)
    requires d.debugRegister < 8 && d.gpRegister < 16
    requires !Unprivileged(g) && ReservedAlias(g, d.debugRegister)
    ensures MovDrAccess(g, regs, hw, d) == Refused(InvalidOpcode)
  {
  }

  /**
   * With CR4.DE clear, an access to DR4 is exactly an access to DR6, and
   * an access to DR5 exactly an access to DR7.
   */
  lemma AliasedMovDr(g: GuestArea, regs: GpRegisters, hw: Hardware, d: MovDrQualification)
    requires d.gpRegister < 16
    requires g.control.cr4 & DebuggingExtensions == 0
    ensures MovDrAccess(g, regs, hw, d.(debugRegister := 4)) == MovDrAccess(g, regs, hw, d.(debugRegister := 6))
    ensures MovDrAccess(g, regs, hw, d.(debugRegister := 5)) == MovDrAccess(g, regs, hw, d.(debugRegister := 7))
  {
  }

  /**
   * With DR7.GD set, an access that is not refused first raises a #DB
   * instead: DR6 gets BD and loses B0-B3, the guest's DR7 loses GD, and
   * neither the access nor anything else happens.
   */
  lemma GeneralDetectMovDr(g: GuestArea, regs: GpRegisters, hw: Hardware, n: u64, moveFromDr: bool, reg: Reg)
    requires n < 8 && n != 4 && n != 5
    requires g.dr7 & GeneralDetectEnable != 0
    ensures var r := AccessDebugRegister(g, regs, hw, n, moveFromDr, reg);
      && r.GeneralDetect?
      && r.dr6 & BreakpointsDetected == 0 && r.dr6 & AccessDetected != 0
      && r.dr6 & !(BreakpointsDetected | AccessDetected) == hw.dr6 & !(BreakpointsDetected | AccessDetected)
      && r.dr7 & GeneralDetectEnable == 0
      && r.dr7 & !GeneralDetectEnable == g.dr7 & !GeneralDetectEnable
  {
  }

  /**
   * The access is performed exactly when the guest runs at ring 0, does
   * not name a reserved alias, has DR7.GD clear, and does not write upper
   * bits into DR6 or DR7; in every other case it is refused or raises #DB.
   */
  lemma PerformedMovDr(g: GuestArea, regs: GpRegisters, hw: Hardware, d: MovDrQualification)
    requires d.debugRegister < 8 && d.gpRegister < 16
    ensures MovDrAccess(g, regs, hw, d).Performed? <==>
      && !Unprivileged(g) && !ReservedAlias(g, d.debugRegister)
      && g.dr7 & GeneralDetectEnable == 0
      && !WideWrite(AliasedRegister(d.debugRegister), d.moveFromDr, Get(regs, SelectRegister(d.gpRegister).value))
  {
  }

  /**
   * A performed MOV to DRn leaves the registers alone. DR0-DR3 receive the
   * value, DR6 the value with its fixed bits forced, and the guest's DR7 in
   * the VMCS the value with its fixed bits forced; only DR7 changes the VMCS.
   */
  lemma MovToDr(g: GuestArea, regs: GpRegisters, hw: Hardware, n: u64, reg: Reg)
    requires n < 8 && n != 4 && n != 5
    requires AccessDebugRegister(g, regs, hw, n, false, reg).Performed?
    ensures var r := AccessDebugRegister(g, regs, hw, n, false, reg);
      var v := Get(regs, reg);
      && r.regs == regs
      && (v >> 32 != 0 ==> n < 4)
      && (n < 4 ==> r.dr7 == g.dr7 && r.ops == [WriteDr(n, v)])
      && (n == 6 ==> r.dr7 == g.dr7 && r.ops == [WriteDr(6, CommittedDr6(v))])
      && (n == 7 ==> r.dr7 == CommittedDr7(v) && r.ops == [])
  {
  }

  /**
   * A performed MOV from DRn writes the register `reg` with DR0-DR3 or DR6
   * of the processor, or with the guest's DR7 from the VMCS; the VMCS and
   * the debug registers are kept.
   */
  lemma MovFromDr(g: GuestArea, regs: GpRegisters, hw: Hardware, n: u64, reg: Reg)
    requires n < 8 && n != 4 && n != 5
    requires AccessDebugRegister(g, regs, hw, n, true, reg).Performed?
    ensures var r := AccessDebugRegister(g, regs, hw, n, true, reg);
      && r.dr7 == g.dr7 && r.ops == []
      && (n == 0 ==> Get(r.regs, reg) == hw.dr0) && (n == 1 ==> Get(r.regs, reg) == hw.dr1)
      && (n == 2 ==> Get(r.regs, reg) == hw.dr2) && (n == 3 ==> Get(r.regs, reg) == hw.dr3)
      && (n == 6 ==> Get(r.regs, reg) == hw.dr6) && (n == 7 ==> Get(r.regs, reg) == g.dr7)
  {
    var r := AccessDebugRegister(g, regs, hw, n, true, reg);
    assert Get(r.regs, reg) == DebugRegisterValue(g, hw, n);
  }

  /** A performed MOV from a debug register changes no register but its destination. */
  lemma MovFromDrKeepsOthers(g: GuestArea, regs: GpRegisters, hw: Hardware, n: u64, reg: Reg)
    requires n < 8 && n != 4 && n != 5
    requires AccessDebugRegister(g, regs, hw, n, true, reg).Performed?
    ensures var r := AccessDebugRegister(g, regs, hw, n, true, reg);
      forall o: Reg | o != reg :: Get(r.regs, o) == Get(regs, o)
  {
  }

  /**
   * The guest's DR7 after a MOV to DR7 of `v` reads back as `v` with its
   * fixed bits forced, unless `v` sets GD: then the next debug-register
   * access, the read included, raises the general-detect #DB.
   */
  lemma Dr7WriteThenRead(g: GuestArea, regs: GpRegisters, hw: Hardware, reg: Reg, back: Reg)
    requires AccessDebugRegister(g, regs, hw, 7, false, reg).Performed?
    ensures var v := Get(regs, reg);
      var g' := g.(dr7 := AccessDebugRegister(g, regs, hw, 7, false, reg).dr7);
      var r := AccessDebugRegister(g', regs, hw, 7, true, back);
      && (v & GeneralDetectEnable == 0 ==> r.Performed? && Get(r.regs, back) == CommittedDr7(v))
      && (v & GeneralDetectEnable != 0 ==> r.GeneralDetect?)
  {
    var v := Get(regs, reg);
    assert AccessDebugRegister(g, regs, hw, 7, false, reg).dr7 == CommittedDr7(v);
    assert CommittedDr7(v) & GeneralDetectEnable == v & GeneralDetectEnable;
  }

  /**
   * `VmmpHandleDrAccess`: the access is decided by `MovDrAccess` and its
   * result committed to the guest. A refused access or a general-detect
   * #DB does not move the guest past the instruction.
   */
  method HandleDrAccess(ctx: GuestContext, vmcs: Vmcs, plat: Processor, exit: ExitInfo, hw: Hardware)
    modifies ctx.stack, vmcs, plat
    ensures plat.memory == old(plat.memory)
    ensures var r := MovDrAccess(old(vmcs.guest), old(ctx.stack.gpRegs), hw, DecodeMovDr(exit.qualification));
      && (r.Refused? ==>
            && ctx.stack.gpRegs == old(ctx.stack.gpRegs) && plat.ops == old(plat.ops)
            && vmcs.guest == old(vmcs.guest)
            && vmcs.entry == Injected(old(vmcs.entry), HardwareException, r.fault.Vector(), r.fault == GeneralProtection, 0))
      && (r.GeneralDetect? ==>
            && ctx.stack.gpRegs == old(ctx.stack.gpRegs) && plat.ops == old(plat.ops) + [WriteDr(6, r.dr6)]
            && vmcs.guest == old(vmcs.guest).(dr7 := r.dr7)
            && vmcs.entry == Injected(old(vmcs.entry), HardwareException, DebugException, false, 0))
      && (r.Performed? ==>
            && ctx.stack.gpRegs == r.regs && plat.ops == old(plat.ops) + r.ops
            && vmcs.guest == old(vmcs.guest).(dr7 := r.dr7, rip := ctx.ip + exit.instructionLength)
            && vmcs.entry == SteppedEntry(old(vmcs.entry), ctx.flagReg, exit.instructionLength))
  {
    var r := MovDrAccess(vmcs.guest, ctx.stack.gpRegs, hw, DecodeMovDr(exit.qualification));
    ApplyDrAccess(ctx, vmcs, plat, exit, r);
  }

  /** Commits the outcome of a MOV DR to the guest and the processor. */
  method ApplyDrAccess(ctx: GuestContext, vmcs: Vmcs, plat: Processor, exit: ExitInfo, r: DrAccess)
    modifies ctx.stack, vmcs, plat
    ensures plat.memory == old(plat.memory)
    ensures r.Refused? ==>
      && ctx.stack.gpRegs == old(ctx.stack.gpRegs) && plat.ops == old(plat.ops)
      && vmcs.guest == old(vmcs.guest)
      && vmcs.entry == Injected(old(vmcs.entry), HardwareException, r.fault.Vector(), r.fault == GeneralProtection, 0)
    ensures r.GeneralDetect? ==>
      && ctx.stack.gpRegs == old(ctx.stack.gpRegs) && plat.ops == old(plat.ops) + [WriteDr(6, r.dr6)]
      && vmcs.guest == old(vmcs.guest).(dr7 := r.dr7)
      && vmcs.entry == Injected(old(vmcs.entry), HardwareException, DebugException, false, 0)
    ensures r.Performed? ==>
      && ctx.stack.gpRegs == r.regs && plat.ops == old(plat.ops) + r.ops
      && vmcs.guest == old(vmcs.guest).(dr7 := r.dr7, rip := ctx.ip + exit.instructionLength)
      && vmcs.entry == SteppedEntry(old(vmcs.entry), ctx.flagReg, exit.instructionLength)
  {
    match r
    case Refused(fault) =>
      InjectInterruption(vmcs, HardwareException, fault.Vector(), fault == GeneralProtection, 0);
    case GeneralDetect(dr6, dr7) =>
      plat.ops := plat.ops + [WriteDr(6, dr6)];
      InjectInterruption(vmcs, HardwareException, DebugException, false, 0);
      vmcs.guest := vmcs.guest.(dr7 := dr7);
    case Performed(regs, dr7, ops) =>
      ctx.stack.gpRegs := regs;
      plat.ops := plat.ops + ops;
      vmcs.guest := vmcs.guest.(dr7 := dr7);
      AdjustGuestInstructionPointer(ctx, vmcs, exit);
  }
}
