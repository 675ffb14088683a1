/**
 * VMX instructions executed by the guest and the monitor's own hypercall
 * interface (`VmmpHandleVmx`, `VmmpHandleVmCall` and the helpers it
 * uses). A VMX instruction other than VMCALL always fails as if no VMCS
 * were current. A VMCALL carries its hypercall number in ECX and a pointer
 * in RDX: it can unload the monitor, answer a ping, or hand out the data
 * all processors share; anything else raises #UD in the guest.
 */
module VmCall {
  import opened Wrappers
  import opened Bits
  import opened Registers
  import opened Vmcs
  import opened ExitInfo
  import opened GuestMemory
  import opened Context

  // Hypercall numbers (`HypercallNumber`).
  const TerminateVmm: u64 := 0
  const PingVmm: u64 := 1
  const GetSharedProcessorData: u64 := 2
  /** The largest hypercall number the monitor knows (`kMaximumHypercallNumber`). */
  const MaximumHypercallNumber: u64 := GetSharedProcessorData

  /**
   * `VmmpHandleVmx`: the instruction reports VMfailInvalid in the guest's
   * RFLAGS, which are written back to the VMCS, and the guest moves past
   * it.
   */
  method HandleVmx(ctx: GuestContext, vmcs: Vmcs, exit: ExitInfo)
    modifies ctx, vmcs
    ensures ctx.flagReg == VmFailInvalid(old(ctx.flagReg))
    ensures ctx.cr8 == old(ctx.cr8) && ctx.vmContinue == old(ctx.vmContinue)
    ensures vmcs.guest == old(vmcs.guest).(rflags := ctx.flagReg, rip := ctx.ip + exit.instructionLength)
    ensures vmcs.entry == SteppedEntry(old(vmcs.entry), ctx.flagReg, exit.instructionLength)
  {
    ctx.flagReg := VmFailInvalid(ctx.flagReg);
    vmcs.guest := vmcs.guest.(rflags := ctx.flagReg);
    AdjustGuestInstructionPointer(ctx, vmcs, exit);
  }

  /** How a VMCALL ends. */
  datatype VmCallResult =
      /** Reported as successful, with guest memory as it is afterwards. */
    | Succeeded(memory: Memory)
      /** Refused: #UD is injected and the guest stays on the VMCALL. */
    | Refused
      /**
       * The monitor unloads on this processor and returns to the caller
       * with these registers and guest memory, after these operations.
       */
    | Terminated(memory: Memory, regs: GpRegisters, ops: seq<HardwareOp>)
      /** Writing the result to `address` faulted, after these operations. */
    | Faulted(address: u64, ops: seq<HardwareOp>)

  /**
   * The hypercall number: ECX, the low 32 bits of RCX (the cast to the
   * 32-bit `HypercallNumber`).
   */
  function HypercallNumber(regs: GpRegisters): (n: u64)
    ensures n >> 32 == 0
  {
    LowPart(Get(regs, Cx))
  }

  /**
   * The VMCALL of a guest with state `g`, registers `regs` and RFLAGS
   * `flags`, stopped at `ip` on an instruction of length `length`, on guest
   * memory `m`; `processorData` and `sharedData` are the addresses the
   * monitor hands out.
   */
  function VmCallOf(m: Memory, g: GuestArea, regs: GpRegisters, flags: u64, ip: u64, length: u64,
                    processorData: u64, sharedData: u64): VmCallResult
  {
    var number := HypercallNumber(regs);
    var context := Get(regs, Dx);
    if number > MaximumHypercallNumber then
      Refused
    else if number == TerminateVmm then
      if GuestCpl(g) != 0 then Refused
      else Termination(m, g, regs, flags, ip + length, processorData)
    else if number == PingVmm then
      Succeeded(m)
    else
      SharedData(m, context, sharedData)
  }

  /** `kGetSharedProcessorData`: the shared data's address is stored at `context`. */
  function SharedData(m: Memory, context: u64, sharedData: u64): VmCallResult
  {
    match StoreWord(m, context as int, sharedData, 8)
    case None => Faulted(context, [])
    case Some(m') => Succeeded(m')
  }

  /**
   * `VmmpHandleVmCallTermination`: GDTR and IDTR are reloaded from the
   * guest's values (the limits cut to 16 bits), the address of this
   * processor's data is stored at the pointer in RDX, and the registers
   * the unload path resumes the caller with are set: RCX the return
   * address, RDX the saved stack pointer, RAX the RFLAGS reporting success.
   */
  function Termination(m: Memory, g: GuestArea, regs: GpRegisters, flags: u64, returnAddress: u64,
                       processorData: u64): VmCallResult
  {
    var context := Get(regs, Dx);
    var ops := [Lgdt(g.tables.gdtrBase, g.tables.gdtrLimit & 0xFFFF),
                Lidt(g.tables.idtrBase, g.tables.idtrLimit & 0xFFFF)];
    match StoreWord(m, context as int, processorData, 8)
    case None => Faulted(context, ops)
    case Some(m') => Terminated(m', ResumeRegisters(regs, flags, returnAddress), ops)
  }

  /** The registers the unload path resumes the VMCALL's caller with. */
  function ResumeRegisters(regs: GpRegisters, flags: u64, returnAddress: u64): GpRegisters
  {
    var r1 := Set(regs, Cx, returnAddress);
    var r2 := Set(r1, Dx, Get(r1, Sp));
    Set(r2, Ax, VmSucceed(flags))
  }

  /**
   * Exactly a hypercall number above the largest known one, or an unload
   * request from outside ring 0, is refused.
   */
  lemma RefusedVmCall(m: Memory, g: GuestArea, regs: GpRegisters, flags: u64, ip: u64, length: u64,
                      processorData: u64, sharedData: u64)
    ensures VmCallOf(m, g, regs, flags, ip, length, processorData, sharedData).Refused? <==>
      || HypercallNumber(regs) > MaximumHypercallNumber
      || (HypercallNumber(regs) == TerminateVmm && GuestCpl(g) != 0)
  {
  }

  /** The hypercall number ignores the upper half of RCX. */
  lemma HypercallNumberIgnoresUpperHalf(regs: GpRegisters, high: u64)
    ensures HypercallNumber(Set(regs, Cx, (high << 32) | (Get(regs, Cx) & 0xFFFF_FFFF))) ==
      HypercallNumber(regs)
  {
  }

  /** A ping succeeds and changes no memory. */
  lemma PingSucceeds(m: Memory, g: GuestArea, regs: GpRegisters, flags: u64, ip: u64, length: u64,
                     processorData: u64, sharedData: u64)
    requires HypercallNumber(regs) == PingVmm
    ensures VmCallOf(m, g, regs, flags, ip, length, processorData, sharedData) == Succeeded(m)
  {
  }

  /** Each known hypercall from a caller allowed to make it reaches its operation. */
  lemma KnownVmCall(m: Memory, g: GuestArea, regs: GpRegisters, flags: u64, ip: u64, length: u64,
                    processorData: u64, sharedData: u64)
    ensures var r := VmCallOf(m, g, regs, flags, ip, length, processorData, sharedData);
      && (HypercallNumber(regs) == TerminateVmm && GuestCpl(g) == 0 ==>
            r == Termination(m, g, regs, flags, ip + length, processorData))
      && (HypercallNumber(regs) == GetSharedProcessorData ==>
            r == SharedData(m, Get(regs, Dx), sharedData))
  {
  }

  /**
   * Asking for the shared data stores its address at the pointer, where
   * the caller reads it back, and changes no other byte; an unmapped
   * pointer is a fault.
   */
  lemma SharedDataDelivered(m: Memory, context: u64, sharedData: u64)
    ensures var r := SharedData(m, context, sharedData);
      && (r.Faulted? <==> !Mapped(m, context as int, 8))
      && (r.Succeeded? ==>
            && LoadWord(r.memory, context as int, 8) == Some(sharedData)
            && r.memory.Keys == m.Keys
            && forall x | x in m && !(context as int <= x < context as int + 8) :: r.memory[x] == m[x])
  {
    if Mapped(m, context as int, 8) {
      LoadStoreWord(m, context as int, sharedData, 8);
      LowBytesEight(sharedData);
    }
  }

  /**
   * An unload with a mapped pointer hands the caller this processor's data
   * at the pointer and reloads GDTR and IDTR (limits cut to 16 bits).
   */
  lemma TerminationHandsOver(m: Memory, g: GuestArea, regs: GpRegisters, flags: u64, returnAddress: u64,
                             processorData: u64)
    requires Mapped(m, Get(regs, Dx) as int, 8)
    ensures var r := Termination(m, g, regs, flags, returnAddress, processorData);
      && r.Terminated?
      && LoadWord(r.memory, Get(regs, Dx) as int, 8) == Some(processorData)
      && r.ops == [Lgdt(g.tables.gdtrBase, g.tables.gdtrLimit & 0xFFFF),
                   Lidt(g.tables.idtrBase, g.tables.idtrLimit & 0xFFFF)]
      && r.regs == ResumeRegisters(regs, flags, returnAddress)
  {
    LoadStoreWord(m, Get(regs, Dx) as int, processorData, 8);
    LowBytesEight(processorData);
  }

  /**
   * The unload path resumes the caller after the VMCALL: RCX holds the
   * return address, RDX the stack pointer, RAX the RFLAGS with every
   * status flag clear, and no other register changes.
   */
  lemma ResumeRegistersReturn(regs: GpRegisters, flags: u64, returnAddress: u64)
    ensures var r := ResumeRegisters(regs, flags, returnAddress);
      && Get(r, Cx) == returnAddress && Get(r, Dx) == Get(regs, Sp)
      && Get(r, Ax) & StatusFlags == 0 && Get(r, Ax) & !StatusFlags == flags & !StatusFlags
      && forall o: Reg | o != Ax && o != Cx && o != Dx :: Get(r, o) == Get(regs, o)
  {
  }

  /**
   * `VmmpHandleVmCall`: the call is decided by `VmCallOf`. A successful
   * call reports success in RFLAGS (written back to the VMCS) and moves
   * the guest past the VMCALL; a refused one injects #UD with the VMCALL's
   * length and leaves RIP on it; an unload leaves the VMCS alone and
   * tells the monitor not to resume the guest; a fault stops the system.
   */
  method HandleVmCall(ctx: GuestContext, vmcs: Vmcs, plat: Processor, exit: ExitInfo)
    returns (outcome: Outcome)
    modifies ctx, ctx.stack, vmcs, plat
    ensures ctx.cr8 == old(ctx.cr8)
    ensures var r := VmCallOf(old(plat.memory), old(vmcs.guest), old(ctx.stack.gpRegs), old(ctx.flagReg),
                              ctx.ip, exit.instructionLength, ctx.stack.processorData, ctx.stack.sharedData);
      && (r.Succeeded? ==>
            && outcome == Handled && ctx.vmContinue == old(ctx.vmContinue)
            && ctx.flagReg == VmSucceed(old(ctx.flagReg))
            && ctx.stack.gpRegs == old(ctx.stack.gpRegs)
            && plat.memory == r.memory && plat.ops == old(plat.ops)
            && vmcs.guest == old(vmcs.guest).(rflags := ctx.flagReg, rip := ctx.ip + exit.instructionLength)
            && vmcs.entry == SteppedEntry(old(vmcs.entry), ctx.flagReg, exit.instructionLength))
      && (r.Refused? ==>
            && outcome == Handled && ctx.vmContinue == old(ctx.vmContinue)
            && ctx.flagReg == old(ctx.flagReg) && ctx.stack.gpRegs == old(ctx.stack.gpRegs)
            && plat.memory == old(plat.memory) && plat.ops == old(plat.ops)
            && vmcs.guest == old(vmcs.guest)
            && vmcs.entry == Injected(old(vmcs.entry), HardwareException, InvalidOpcodeException, false, 0)
                               .(instructionLength := exit.instructionLength))
      && (r.Terminated? ==>
            && outcome == Handled && !ctx.vmContinue
            && ctx.flagReg == VmSucceed(old(ctx.flagReg)) && ctx.stack.gpRegs == r.regs
            && plat.memory == r.memory && plat.ops == old(plat.ops) + r.ops
            && vmcs.guest == old(vmcs.guest) && vmcs.entry == old(vmcs.entry))
      && (r.Faulted? ==>
            && outcome == Fatal(GuestMemoryFault(r.address))
            && ctx.vmContinue == old(ctx.vmContinue)
            && ctx.flagReg == old(ctx.flagReg) && ctx.stack.gpRegs == old(ctx.stack.gpRegs)
            && plat.memory == old(plat.memory) && plat.ops == old(plat.ops) + r.ops
            && vmcs.guest == old(vmcs.guest) && vmcs.entry == old(vmcs.entry))
  {
    var r := VmCallOf(plat.memory, vmcs.guest, ctx.stack.gpRegs, ctx.flagReg,
                      ctx.ip, exit.instructionLength, ctx.stack.processorData, ctx.stack.sharedData);
    outcome := ApplyVmCall(ctx, vmcs, plat, exit, r);
  }

  /** Commits the outcome of a VMCALL to the guest and the processor. */
  method ApplyVmCall(ctx: GuestContext, vmcs: Vmcs, plat: Processor, exit: ExitInfo, r: VmCallResult)
    returns (outcome: Outcome)
    modifies ctx, ctx.stack, vmcs, plat
    ensures ctx.cr8 == old(ctx.cr8)
    ensures r.Succeeded? ==>
      && outcome == Handled && ctx.vmContinue == old(ctx.vmContinue)
      && ctx.flagReg == VmSucceed(old(ctx.flagReg))
      && ctx.stack.gpRegs == old(ctx.stack.gpRegs)
      && plat.memory == r.memory && plat.ops == old(plat.ops)
      && vmcs.guest == old(vmcs.guest).(rflags := ctx.flagReg, rip := ctx.ip + exit.instructionLength)
      && vmcs.entry == SteppedEntry(old(vmcs.entry), ctx.flagReg, exit.instructionLength)
    ensures r.Refused? ==>
      && outcome == Handled && ctx.vmContinue == old(ctx.vmContinue)
      && ctx.flagReg == old(ctx.flagReg) && ctx.stack.gpRegs == old(ctx.stack.gpRegs)
      && plat.memory == old(plat.memory) && plat.ops == old(plat.ops)
      && vmcs.guest == old(vmcs.guest)
      && vmcs.entry == Injected(old(vmcs.entry), HardwareException, InvalidOpcodeException, false, 0)
                         .(instructionLength := exit.instructionLength)
    ensures r.Terminated? ==>
      && outcome == Handled && !ctx.vmContinue
      && ctx.flagReg == VmSucceed(old(ctx.flagReg)) && ctx.stack.gpRegs == r.regs
      && plat.memory == r.memory && plat.ops == old(plat.ops) + r.ops
      && vmcs.guest == old(vmcs.guest) && vmcs.entry == old(vmcs.entry)
    ensures r.Faulted? ==>
      && outcome == Fatal(GuestMemoryFault(r.address))
      && ctx.vmContinue == old(ctx.vmContinue)
      && ctx.flagReg == old(ctx.flagReg) && ctx.stack.gpRegs == old(ctx.stack.gpRegs)
      && plat.memory == old(plat.memory) && plat.ops == old(plat.ops) + r.ops
      && vmcs.guest == old(vmcs.guest) && vmcs.entry == old(vmcs.entry)
  {
    match r
    case Succeeded(m') =>
      plat.memory := m';
      ctx.flagReg := VmSucceed(ctx.flagReg);
      vmcs.guest := vmcs.guest.(rflags := ctx.flagReg);
      AdjustGuestInstructionPointer(ctx, vmcs, exit);
      outcome := Handled;
    case Refused =>
      InjectInterruption(vmcs, HardwareException, InvalidOpcodeException, false, 0);
      vmcs.entry := vmcs.entry.(instructionLength := exit.instructionLength);
      outcome := Handled;
    case Terminated(m', regs, ops) =>
      plat.ops := plat.ops + ops;
      plat.memory := m';
      ctx.flagReg := VmSucceed(ctx.flagReg);
      ctx.stack.gpRegs := regs;
      ctx.vmContinue := false;
      outcome := Handled;
    case Faulted(address, ops) =>
      plat.ops := plat.ops + ops;
      outcome := Fatal(GuestMemoryFault(address));
  }
}
