/**
 * RDMSR and WRMSR emulation: which MSR numbers the guest may use, which
 * MSRs live in the VMCS rather than in the processor, and how a 64-bit MSR
 * value travels through EDX:EAX.
 */
module Msr {
  import opened Wrappers
  import opened Bits
  import opened Registers
  import opened Vmcs
  import opened ExitInfo
  import opened Context

  /** The error code the monitor gives the #GP for an MSR number it refuses. */
  const InvalidMsrErrorCode: u64 := 0x6A

  /**
   * The MSR numbers the monitor serves: the low range 0-0x1FFF, the high
   * range 0xC0000000-0xC0001FFF and, in the build for VMware guests (the
   * one this model follows), 0x400000F0. All of them fit in ECX, so the
   * 32-bit MSR number the handler uses is RCX itself.
   */
  function IsValidMsr(msr: u64): (ok: bool)
    ensures ok <==> msr <= 0x1FFF || 0xC000_0000 <= msr <= 0xC000_1FFF || msr == 0x4000_00F0
    ensures ok ==> LowPart(msr) == msr
  {
    msr <= 0x1FFF || (0xC000_0000 <= msr && msr <= 0xC000_1FFF) || msr == 0x4000_00F0
  }

  /** The MSRs whose guest values the VMCS holds. */
  datatype GuestMsr = SysenterCs | SysenterEsp | SysenterEip | Debugctl | GsBase | FsBase

  /** The architectural number of a VMCS-held MSR. */
  function MsrNumber(f: GuestMsr): u64
  {
    match f
    case SysenterCs => 0x174
    case SysenterEsp => 0x175
    case SysenterEip => 0x176
    case Debugctl => 0x1D9
    case FsBase => 0xC000_0100
    case GsBase => 0xC000_0101
  }

  /**
   * The VMCS-held MSR an MSR number names, if any: exactly the six numbers
   * of `MsrNumber` are redirected, each to the MSR it is the number of.
   */
  function Redirection(msr: u64): (f: Option<GuestMsr>)
    ensures f.Some? <==> msr in {0x174, 0x175, 0x176, 0x1D9, 0xC000_0100, 0xC000_0101}
    ensures f.Some? ==> MsrNumber(f.value) == msr
  {
    if msr == 0x174 then Some(SysenterCs)
    else if msr == 0x175 then Some(SysenterEsp)
    else if msr == 0x176 then Some(SysenterEip)
    else if msr == 0x1D9 then Some(Debugctl)
    else if msr == 0xC000_0101 then Some(GsBase)
    else if msr == 0xC000_0100 then Some(FsBase)
    else None
  }

  /** The guest value of a VMCS-held MSR. */
  function GuestMsrValue(g: GuestArea, f: GuestMsr): u64
  {
    match f
    case SysenterCs => g.msrs.sysenterCs
    case SysenterEsp => g.msrs.sysenterEsp
    case SysenterEip => g.msrs.sysenterEip
    case Debugctl => g.msrs.debugctl
    case GsBase => g.segments.gsBase
    case FsBase => g.segments.fsBase
  }

  /**
   * The guest area with a VMCS-held MSR set to `v`: that MSR reads back as
   * `v`, except IA32_SYSENTER_CS, whose VMCS field is 32 bits wide and
   * keeps only the low half; only the MSR fields and the FS and GS bases
   * can differ.
   */
  function WithGuestMsr(g: GuestArea, f: GuestMsr, v: u64): (out: GuestArea)
    ensures GuestMsrValue(out, f) == if f.SysenterCs? then LowPart(v) else v
    ensures out.(msrs := g.msrs, segments := g.segments) == g
    ensures out.segments.(fsBase := g.segments.fsBase, gsBase := g.segments.gsBase) == g.segments
  {
    match f
    case SysenterCs => g.(msrs := g.msrs.(sysenterCs := LowPart(v)))
    case SysenterEsp => g.(msrs := g.msrs.(sysenterEsp := v))
    case SysenterEip => g.(msrs := g.msrs.(sysenterEip := v))
    case Debugctl => g.(msrs := g.msrs.(debugctl := v))
    case GsBase => g.(segments := g.segments.(gsBase := v))
    case FsBase => g.(segments := g.segments.(fsBase := v))
  }

  /** Setting one VMCS-held MSR leaves every other one as it was. */
  lemma WithGuestMsrKeepsOthers(g: GuestArea, f: GuestMsr, o: GuestMsr, v: u64)
    requires o != f
    ensures GuestMsrValue(WithGuestMsr(g, f, v), o) == GuestMsrValue(g, o)
  {
    match f
    case SysenterCs =>
    case SysenterEsp =>
    case SysenterEip =>
    case Debugctl =>
    case GsBase =>
    case FsBase =>
  }

  /**
   * What RDMSR of `msr` returns to the guest: the VMCS copy for the MSRs
   * the VMCS holds, otherwise what the real RDMSR returned.
   */
  function RdmsrValue(g: GuestArea, msr: u64, native: u64): u64
  {
    match Redirection(msr)
    case Some(f) => GuestMsrValue(g, f)
    case None => native
  }

  /**
   * The register file after RDMSR returned `value`: EDX:EAX holds it, each
   * half zero-extended as the instruction does; every other register is
   * kept.
   */
  function RdmsrRegisters(regs: GpRegisters, value: u64): (out: GpRegisters)
    ensures MakeQuad(Get(out, Dx), Get(out, Ax)) == value
    ensures Get(out, Dx) >> 32 == 0 && Get(out, Ax) >> 32 == 0
    ensures forall o: Reg | o != Ax && o != Dx :: Get(out, o) == Get(regs, o)
  {
    Set(Set(regs, Ax, LowPart(value)), Dx, HighPart(value))
  }

  /** The 32-bit value `x` sign-extended to 64 bits (a `LONG` widened). */
  function SignExtend32(x: u64): u64
  {
    if x & 0x8000_0000 != 0 then x | 0xFFFF_FFFF_0000_0000 else x
  }

  /**
   * The register file after RDMSR as the source writes it: through a
   * `LARGE_INTEGER`, whose `HighPart` is a signed `LONG`, so RAX receives
   * the low half zero-extended and RDX the high half sign-extended (its
   * upper 32 bits copy bit 63 of the value); every other register is kept.
   */
  function RdmsrRegistersAsWritten(regs: GpRegisters, value: u64): (out: GpRegisters)
    ensures Get(out, Ax) == LowPart(value)
    ensures LowPart(Get(out, Dx)) == HighPart(value)
    ensures Get(out, Dx) >> 32 == if value >> 63 == 1 then 0xFFFF_FFFF else 0
    ensures forall o: Reg | o != Ax && o != Dx :: Get(out, o) == Get(regs, o)
  {
    Set(Set(regs, Ax, LowPart(value)), Dx, SignExtend32(HighPart(value)))
  }

  /**
   * The discrepancy: RDMSR of an MSR with bit 63 set, such as a kernel
   * address in IA32_LSTAR, leaves ones in the upper half of RDX, where the
   * instruction leaves zeros.
   */
  lemma RdmsrSignExtendsHighHalf(regs: GpRegisters)
    ensures Get(RdmsrRegistersAsWritten(regs, 0xFFFF_F800_1234_5678), Dx) == 0xFFFF_FFFF_FFFF_F800
    ensures Get(RdmsrRegisters(regs, 0xFFFF_F800_1234_5678), Dx) == 0xFFFF_F800
  {
  }

  /** The value WRMSR writes: EDX:EAX. */
  function WrmsrValue(regs: GpRegisters): (v: u64)
    ensures LowPart(v) == LowPart(Get(regs, Ax)) && v >> 32 == LowPart(Get(regs, Dx))
  {
    MakeQuad(Get(regs, Dx), Get(regs, Ax))
  }

  /**
   * What the guest reads back after writing: a VMCS-held MSR written by
   * WRMSR returns the written value to RDMSR, whatever the hardware holds;
   * IA32_SYSENTER_CS returns its low 32 bits only.
   */
  lemma WrmsrThenRdmsr(g: GuestArea, msr: u64, regs: GpRegisters, native: u64)
    requires Redirection(msr).Some?
    ensures RdmsrValue(WithGuestMsr(g, Redirection(msr).value, WrmsrValue(regs)), msr, native) ==
      if msr == 0x174 then LowPart(WrmsrValue(regs)) else WrmsrValue(regs)
  {
  }

  /**
   * The injection fields for a refused MSR number as the source leaves
   * them: the #GP is injected, then moving past the instruction injects
   * #DB when TF is set, which replaces the #GP. Without TF the #GP(0x6A)
   * stays pending.
   */
  function RefusedMsrEntryAsWritten(e: EntryEvent, flags: u64, length: u64): (r: EntryEvent)
    ensures flags & TrapFlag == 0 ==> r == RefusedMsrEntry(e)
    ensures flags & TrapFlag != 0 ==>
      && DecodeInterruption(r.interruptionInfo) == Interruption(DebugException, HardwareException, false, true)
      && r.instructionLength == length
  {
    SteppedEntry(Injected(e, HardwareException, GeneralProtectionException, true, InvalidMsrErrorCode),
      flags, length)
  }

  /**
   * The discrepancy: a single-stepping guest receives #DB and never the
   * #GP that the corrected entry keeps pending.
   */
  lemma RefusedMsrLosesGeneralProtection(e: EntryEvent, flags: u64, length: u64)
    requires flags & TrapFlag != 0
    ensures DecodeInterruption(RefusedMsrEntryAsWritten(e, flags, length).interruptionInfo).vector ==
      DebugException
    ensures RefusedMsrEntryAsWritten(e, flags, length) != RefusedMsrEntry(e)
  {
  }

  /**
   * The injection fields for a refused MSR number: a #GP with error code
   * 0x6A is pending, whatever TF is.
   */
  function RefusedMsrEntry(e: EntryEvent): (r: EntryEvent)
    ensures DecodeInterruption(r.interruptionInfo) ==
      Interruption(GeneralProtectionException, HardwareException, true, true)
    ensures r.errorCode == InvalidMsrErrorCode
    ensures r.instructionLength == e.instructionLength
  {
    Injected(e, HardwareException, GeneralProtectionException, true, InvalidMsrErrorCode)
  }

  /**
   * `VmmpHandleMsrAccess`. A refused MSR number gets #GP(0x6A) and the guest
   * moves past the instruction with nothing else touched, which under TF
   * replaces the #GP by #DB. Otherwise RDMSR loads EDX:EAX from the VMCS
   * copy or from the real MSR that RCX names (RDX sign-extended, as the
   * code writes it), and
   * WRMSR stores EDX:EAX into the VMCS copy or the real MSR; then the guest
   * moves past the instruction.
   */
  method HandleMsrAccess(ctx: GuestContext, vmcs: Vmcs, plat: Processor, exit: ExitInfo, hw: Hardware,
                         readAccess: bool)
    modifies ctx.stack, vmcs, plat
    ensures plat.memory == old(plat.memory)
    ensures var msr := Get(old(ctx.stack.gpRegs), Cx);
      !IsValidMsr(msr) ==>
        && ctx.stack.gpRegs == old(ctx.stack.gpRegs) && plat.ops == old(plat.ops)
        && vmcs.guest == old(vmcs.guest).(rip := ctx.ip + exit.instructionLength)
        && vmcs.entry == RefusedMsrEntryAsWritten(old(vmcs.entry), ctx.flagReg, exit.instructionLength)
    ensures var msr := Get(old(ctx.stack.gpRegs), Cx);
      IsValidMsr(msr) && readAccess ==>
        && ctx.stack.gpRegs ==
             RdmsrRegistersAsWritten(old(ctx.stack.gpRegs), RdmsrValue(old(vmcs.guest), msr, hw.msrValue(msr)))
        && plat.ops == old(plat.ops)
        && vmcs.guest == old(vmcs.guest).(rip := ctx.ip + exit.instructionLength)
        && vmcs.entry == SteppedEntry(old(vmcs.entry), ctx.flagReg, exit.instructionLength)
    ensures var msr := Get(old(ctx.stack.gpRegs), Cx);
      var value := WrmsrValue(old(ctx.stack.gpRegs));
      IsValidMsr(msr) && !readAccess ==>
        && ctx.stack.gpRegs == old(ctx.stack.gpRegs)
        && (Redirection(msr).Some? ==>
              && plat.ops == old(plat.ops)
              && vmcs.guest == WithGuestMsr(old(vmcs.guest), Redirection(msr).value, value)
                                 .(rip := ctx.ip + exit.instructionLength))
        && (Redirection(msr).None? ==>
              && plat.ops == old(plat.ops) + [WriteMsr(msr, value)]
              && vmcs.guest == old(vmcs.guest).(rip := ctx.ip + exit.instructionLength))
        && vmcs.entry == SteppedEntry(old(vmcs.entry), ctx.flagReg, exit.instructionLength)
  {
    var regs := ctx.stack.gpRegs;
    var msr := Get(regs, Cx);
    if !IsValidMsr(msr) {
      InjectInterruption(vmcs, HardwareException, GeneralProtectionException, true, InvalidMsrErrorCode);
      AdjustGuestInstructionPointer(ctx, vmcs, exit);
      return;
    }
    var field := Redirection(LowPart(msr));
    if readAccess {
      var value := RdmsrValue(vmcs.guest, LowPart(msr), hw.msrValue(LowPart(msr)));
      ctx.stack.gpRegs := RdmsrRegistersAsWritten(regs, value);
    } else {
      var value := WrmsrValue(regs);
      match field
      case Some(f) =>
        vmcs.guest := WithGuestMsr(vmcs.guest, f, value);
      case None =>
        plat.ops := plat.ops + [WriteMsr(LowPart(msr), value)];
    }
    AdjustGuestInstructionPointer(ctx, vmcs, exit);
  }
}
