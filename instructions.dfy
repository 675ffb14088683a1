/**
 * Emulation of the simple instructions that trap: RDTSC, RDTSCP, XSETBV,
 * INVD and INVLPG. Each performs the instruction on the real processor on
 * the guest's behalf and moves the guest past it.
 */
module Instructions {
  import opened Bits
  import opened Registers
  import opened Vmcs
  import opened ExitInfo
  import opened Context

  /**
   * The register file after a time-stamp read: EDX:EAX holds the 64-bit
   * counter (each half zero-extended), every other register is kept.
   */
  function WithTimeStamp(regs: GpRegisters, tsc: u64): (out: GpRegisters)
    ensures MakeQuad(Get(out, Dx), Get(out, Ax)) == tsc
    ensures Get(out, Dx) >> 32 == 0 && Get(out, Ax) >> 32 == 0
    ensures forall o: Reg | o != Ax && o != Dx :: Get(out, o) == Get(regs, o)
  {
    Set(Set(regs, Dx, HighPart(tsc)), Ax, LowPart(tsc))
  }

  /** `VmmpHandleRdtsc`: EDX:EAX receives the time-stamp counter. */
  method HandleRdtsc(ctx: GuestContext, vmcs: Vmcs, exit: ExitInfo, hw: Hardware)
    modifies ctx.stack, vmcs
    ensures ctx.stack.gpRegs == WithTimeStamp(old(ctx.stack.gpRegs), hw.tsc)
    ensures vmcs.guest == old(vmcs.guest).(rip := ctx.ip + exit.instructionLength)
    ensures vmcs.entry == SteppedEntry(old(vmcs.entry), ctx.flagReg, exit.instructionLength)
  {
    ctx.stack.gpRegs := WithTimeStamp(ctx.stack.gpRegs, hw.tsc);
    AdjustGuestInstructionPointer(ctx, vmcs, exit);
  }

  /** `VmmpHandleRdtscp`: EDX:EAX receives the counter and RCX the 32-bit TSC_AUX. */
  method HandleRdtscp(ctx: GuestContext, vmcs: Vmcs, exit: ExitInfo, hw: Hardware)
    modifies ctx.stack, vmcs
    ensures ctx.stack.gpRegs ==
      Set(WithTimeStamp(old(ctx.stack.gpRegs), hw.tsc), Cx, LowPart(hw.tscAux))
    ensures vmcs.guest == old(vmcs.guest).(rip := ctx.ip + exit.instructionLength)
    ensures vmcs.entry == SteppedEntry(old(vmcs.entry), ctx.flagReg, exit.instructionLength)
  {
    ctx.stack.gpRegs := Set(WithTimeStamp(ctx.stack.gpRegs, hw.tsc), Cx, LowPart(hw.tscAux));
    AdjustGuestInstructionPointer(ctx, vmcs, exit);
  }

  /**
   * `VmmpHandleXsetbv`: the extended control register numbered by ECX
   * receives EDX:EAX on the real processor.
   */
  method HandleXsetbv(ctx: GuestContext, vmcs: Vmcs, plat: Processor, exit: ExitInfo)
    modifies vmcs, plat
    ensures plat.ops == old(plat.ops) + [Xsetbv(LowPart(Get(ctx.stack.gpRegs, Cx)),
      MakeQuad(Get(ctx.stack.gpRegs, Dx), Get(ctx.stack.gpRegs, Ax)))]
    ensures plat.memory == old(plat.memory)
    ensures vmcs.guest == old(vmcs.guest).(rip := ctx.ip + exit.instructionLength)
    ensures vmcs.entry == SteppedEntry(old(vmcs.entry), ctx.flagReg, exit.instructionLength)
  {
    var regs := ctx.stack.gpRegs;
    plat.ops := plat.ops + [Xsetbv(LowPart(Get(regs, Cx)), MakeQuad(Get(regs, Dx), Get(regs, Ax)))];
    AdjustGuestInstructionPointer(ctx, vmcs, exit);
  }

  /** `VmmpHandleInvalidateInternalCaches`: INVD is performed on the real processor. */
  method HandleInvalidateInternalCaches(ctx: GuestContext, vmcs: Vmcs, plat: Processor, exit: ExitInfo)
    modifies vmcs, plat
    ensures plat.ops == old(plat.ops) + [InvalidateInternalCaches]
    ensures plat.memory == old(plat.memory)
    ensures vmcs.guest == old(vmcs.guest).(rip := ctx.ip + exit.instructionLength)
    ensures vmcs.entry == SteppedEntry(old(vmcs.entry), ctx.flagReg, exit.instructionLength)
  {
    plat.ops := plat.ops + [InvalidateInternalCaches];
    AdjustGuestInstructionPointer(ctx, vmcs, exit);
  }

  /**
   * The VPID the monitor gives the guest on a processor: its number plus
   * one, in 16 bits. VPID 0 belongs to the monitor itself, and no guest on
   * processors 0 to 65534 gets it.
   */
  function GuestVpid(processorNumber: u64): (vpid: u64)
    ensures vpid < 0x1_0000
    ensures processorNumber < 0xFFFF ==> vpid == processorNumber + 1 && vpid != 0
  {
    (processorNumber + 1) & 0xFFFF
  }

  /**
   * `VmmpHandleInvalidateTlbEntry`: INVLPG of the address in the exit
   * qualification becomes an INVVPID of that address for the guest's VPID.
   */
  method HandleInvalidateTlbEntry(ctx: GuestContext, vmcs: Vmcs, plat: Processor, exit: ExitInfo, hw: Hardware)
    modifies vmcs, plat
    ensures plat.ops == old(plat.ops) +
      [InvvpidIndividualAddress(GuestVpid(hw.processorNumber), exit.qualification)]
    ensures plat.memory == old(plat.memory)
    ensures vmcs.guest == old(vmcs.guest).(rip := ctx.ip + exit.instructionLength)
    ensures vmcs.entry == SteppedEntry(old(vmcs.entry), ctx.flagReg, exit.instructionLength)
  {
    plat.ops := plat.ops + [InvvpidIndividualAddress(GuestVpid(hw.processorNumber), exit.qualification)];
    AdjustGuestInstructionPointer(ctx, vmcs, exit);
  }
}
