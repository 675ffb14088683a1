/**
 * The state one VM exit works on: the registers the trampoline saved, the
 * guest context the handlers receive, the processor the monitor runs on
 * (its guest memory and the privileged operations it performs), the values
 * the real hardware supplies, and the steps every emulation ends with.
 */
module Context {
  import opened Bits
  import opened Registers
  import opened Vmcs
  import opened ExitInfo
  import opened GuestMemory

  /** The block the exit trampoline pushes before calling the monitor. */
  class InitialStack {
    var gpRegs: GpRegisters
    /** The address of this processor's `ProcessorData`. */
    const processorData: u64
    /** The address of the data all processors share (`processor_data->shared_data`). */
    const sharedData: u64

    constructor (gpRegs: GpRegisters, processorData: u64, sharedData: u64)
      ensures this.gpRegs == gpRegs
      ensures this.processorData == processorData && this.sharedData == sharedData
    {
      this.gpRegs := gpRegs;
      this.processorData := processorData;
      this.sharedData := sharedData;
    }
  }

  /** `GuestContext`: what every handler receives. */
  class GuestContext {
    const stack: InitialStack
    /** The guest's RFLAGS as read at the exit; handlers edit this copy. */
    var flagReg: u64
    /** The guest's RIP at the exit. */
    const ip: u64
    /** The guest's CR8, which the monitor keeps for the guest while it runs. */
    var cr8: u64
    /** Whether the monitor resumes the guest after this exit. */
    var vmContinue: bool

    constructor (stack: InitialStack, flagReg: u64, ip: u64, cr8: u64)
      ensures this.stack == stack && this.flagReg == flagReg && this.ip == ip
      ensures this.cr8 == cr8 && this.vmContinue
    {
      this.stack := stack;
      this.flagReg := flagReg;
      this.ip := ip;
      this.cr8 := cr8;
      this.vmContinue := true;
    }
  }

  /** A privileged operation the monitor performs on the real processor. */
  datatype HardwareOp =
    | WriteMsr(msr: u64, value: u64)
    | WriteDr(index: u64, value: u64)
    | WriteCr2(value: u64)
    | WriteCr8(value: u64)
    | Xsetbv(xcr: u64, value: u64)
    | LoadPdptes(cr3: u64)
    | InvalidateInternalCaches
    | InvvpidIndividualAddress(vpid: u64, address: u64)
    | InvvpidSingleContextExceptGlobal(vpid: u64)
    | InvvpidAllContext
    | InveptGlobal
    | PortIn(port: u64, size: u64)
    | PortOut(port: u64, size: u64, value: u64)
    | PortInString(port: u64, size: u64, address: u64, count: u64)
    | PortOutString(port: u64, size: u64, address: u64, count: u64)
    | Lgdt(base: u64, limit: u64)
    | Lidt(base: u64, limit: u64)
    | EptViolation(guestPhysicalAddress: u64)

  /**
   * The processor the monitor runs on: guest memory as the monitor sees it
   * through the guest's kernel address space, and the privileged operations
   * performed so far, oldest first.
   */
  class Processor {
    var memory: Memory
    var ops: seq<HardwareOp>

    constructor (memory: Memory)
      ensures this.memory == memory && this.ops == []
    {
      this.memory := memory;
      this.ops := [];
    }

    ghost predicate Valid()
      reads this
    {
      InAddressSpace(memory)
    }
  }

  /** The four result registers of CPUID, each holding a 32-bit value. */
  datatype CpuidRegisters = CpuidRegisters(eax: u64, ebx: u64, ecx: u64, edx: u64)

  /**
   * The values the real hardware supplies to this exit: what the real
   * instruction returns (CPUID for each leaf and subleaf, the time stamp
   * counter, RDMSR for each MSR number, the input port), the real debug
   * registers, the
   * VMX capability MSRs for CR0 and CR4, whether paging is 32-bit PAE
   * paging, the `DirectoryTableBase` of the current process, the current
   * processor number and its CR8.
   */
  datatype Hardware = Hardware(
    cpuid: (u64, u64) -> CpuidRegisters, tsc: u64, tscAux: u64, msrValue: u64 -> u64, portInValue: u64,
    dr0: u64, dr1: u64, dr2: u64, dr3: u64, dr6: u64,
    cr0Fixed0: u64, cr0Fixed1: u64, cr4Fixed0: u64, cr4Fixed1: u64,
    isX86Pae: bool, directoryTableBase: u64, processorNumber: u64, cr8: u64)

  /** Why the monitor stopped the system (the bug-check code and its parameters). */
  datatype BugCheck =
    | TripleFaultVmExit(ip: u64)
    | UnexpectedVmExit(ip: u64, qualification: u64)
    | EptMisconfigVmExit(guestPhysicalAddress: u64)
    | Unspecified
    | GuestMemoryFault(address: u64)

  /**
   * How an exit ended: the handler returned, the exit was passed to the
   * EPT collaborator, or the system was stopped.
   */
  datatype Outcome = Handled | Delegated | Fatal(check: BugCheck)

  /**
   * The guest's current privilege level (`VmmpGetGuestCpl`): the DPL of its
   * stack segment, bits 5-6 of the SS access rights.
   */
  function GuestCpl(g: GuestArea): (cpl: u64)
    ensures cpl < 4
    ensures cpl == 0 <==> g.segments.ssArBytes & 0x60 == 0
  {
    (g.segments.ssArBytes >> 5) & 3
  }

  /**
   * Moves the guest past the emulated instruction
   * (`VmmpAdjustGuestInstructionPointer`): RIP becomes the exit's RIP plus
   * the instruction length, and a single-stepping guest gets its #DB.
   */
  method AdjustGuestInstructionPointer(ctx: GuestContext, vmcs: Vmcs, exit: ExitInfo)
    modifies vmcs
    ensures vmcs.guest == old(vmcs.guest).(rip := ctx.ip + exit.instructionLength)
    ensures vmcs.entry == SteppedEntry(old(vmcs.entry), ctx.flagReg, exit.instructionLength)
  {
    vmcs.guest := vmcs.guest.(rip := ctx.ip + exit.instructionLength);
    if ctx.flagReg & TrapFlag != 0 {
      InjectInterruption(vmcs, HardwareException, DebugException, false, 0);
      vmcs.entry := vmcs.entry.(instructionLength := exit.instructionLength);
    }
  }
}
