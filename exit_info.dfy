/**
 * What the processor reports about a VM exit, and how the monitor decodes
 * it: the basic exit reason, the exit qualification of MOV CR, MOV DR and
 * I/O exits, and the instruction-information word of descriptor-table
 * exits.
 */
module ExitInfo {
  import opened Bits

  /** The read-only VM-exit information fields of the VMCS. */
  datatype ExitInfo = ExitInfo(
    reason: u64,                 // VmExitReason
    qualification: u64,          // ExitQualification
    instructionInfo: u64,        // VmxInstructionInfo
    instructionLength: u64,      // VmExitInstructionLen
    interruptionInfo: u64,       // VmExitIntrInfo
    interruptionErrorCode: u64,  // VmExitIntrErrorCode
    guestPhysicalAddress: u64)   // GuestPhysicalAddress

  /** The basic exit reason: bits 0-15 of the exit-reason field. */
  function BasicReason(e: ExitInfo): nat
  {
    (e.reason & 0xFFFF) as nat
  }

  // Basic exit reasons.
  const ExitExceptionOrNmi: nat := 0
  const ExitTripleFault: nat := 2
  const ExitCpuid: nat := 10
  const ExitInvd: nat := 13
  const ExitInvlpg: nat := 14
  const ExitRdtsc: nat := 16
  const ExitVmcall: nat := 18
  const ExitVmclear: nat := 19
  const ExitVmlaunch: nat := 20
  const ExitVmptrld: nat := 21
  const ExitVmptrst: nat := 22
  const ExitVmread: nat := 23
  const ExitVmresume: nat := 24
  const ExitVmwrite: nat := 25
  const ExitVmoff: nat := 26
  const ExitVmon: nat := 27
  const ExitCrAccess: nat := 28
  const ExitDrAccess: nat := 29
  const ExitIoInstruction: nat := 30
  const ExitMsrRead: nat := 31
  const ExitMsrWrite: nat := 32
  const ExitMonitorTrapFlag: nat := 37
  const ExitGdtrOrIdtrAccess: nat := 46
  const ExitLdtrOrTrAccess: nat := 47
  const ExitEptViolation: nat := 48
  const ExitEptMisconfig: nat := 49
  const ExitInvept: nat := 50
  const ExitRdtscp: nat := 51
  const ExitInvvpid: nat := 53
  const ExitXsetbv: nat := 55

  /** The exits caused by a VMX instruction executed in the guest. */
  predicate VmxInstruction(reason: nat)
  {
    || reason == ExitVmclear || reason == ExitVmlaunch || reason == ExitVmptrld || reason == ExitVmptrst
    || reason == ExitVmread || reason == ExitVmresume || reason == ExitVmwrite || reason == ExitVmoff
    || reason == ExitVmon || reason == ExitInvept || reason == ExitInvvpid
  }

  /** The exits the monitor emulates or passes on and then resumes from. */
  predicate Resumable(reason: nat)
  {
    || reason == ExitExceptionOrNmi || reason == ExitCpuid || reason == ExitInvd || reason == ExitInvlpg
    || reason == ExitRdtsc || reason == ExitCrAccess || reason == ExitDrAccess || reason == ExitIoInstruction
    || reason == ExitMsrRead || reason == ExitMsrWrite || reason == ExitGdtrOrIdtrAccess
    || reason == ExitLdtrOrTrAccess || reason == ExitEptViolation || reason == ExitVmcall
    || reason == ExitRdtscp || reason == ExitXsetbv || VmxInstruction(reason)
  }

  /** The handler an exit is dispatched to. */
  datatype Handler =
    | HandleException | HandleCpuid | HandleInvalidateInternalCaches
    | HandleInvalidateTlbEntry | HandleRdtsc | HandleCrAccess | HandleDrAccess
    | HandleIoPort | HandleMsrReadAccess | HandleMsrWriteAccess
    | HandleGdtrOrIdtrAccess | HandleLdtrOrTrAccess | HandleEptViolation
    | HandleVmCall | HandleVmx | HandleRdtscp | HandleXsetbv
      // The exits that end in a bug check.
    | HandleTripleFault | HandleMonitorTrap | HandleEptMisconfig | HandleUnexpectedExit
  {
    /** The handler never returns: it stops the system. */
    predicate Terminal()
    {
      HandleTripleFault? || HandleMonitorTrap? || HandleEptMisconfig? || HandleUnexpectedExit?
    }
  }

  /** The dispatch of `VmmpHandleVmExit`: the handler each basic exit reason goes to. */
  function Dispatch(reason: nat): Handler
  {
    if reason == ExitExceptionOrNmi then HandleException
    else if reason == ExitTripleFault then HandleTripleFault
    else if reason == ExitCpuid then HandleCpuid
    else if reason == ExitInvd then HandleInvalidateInternalCaches
    else if reason == ExitInvlpg then HandleInvalidateTlbEntry
    else if reason == ExitRdtsc then HandleRdtsc
    else if reason == ExitCrAccess then HandleCrAccess
    else if reason == ExitDrAccess then HandleDrAccess
    else if reason == ExitIoInstruction then HandleIoPort
    else if reason == ExitMsrRead then HandleMsrReadAccess
    else if reason == ExitMsrWrite then HandleMsrWriteAccess
    else if reason == ExitMonitorTrapFlag then HandleMonitorTrap
    else if reason == ExitGdtrOrIdtrAccess then HandleGdtrOrIdtrAccess
    else if reason == ExitLdtrOrTrAccess then HandleLdtrOrTrAccess
    else if reason == ExitEptViolation then HandleEptViolation
    else if reason == ExitEptMisconfig then HandleEptMisconfig
    else if reason == ExitVmcall then HandleVmCall
    else if VmxInstruction(reason) then HandleVmx
    else if reason == ExitRdtscp then HandleRdtscp
    else if reason == ExitXsetbv then HandleXsetbv
    else HandleUnexpectedExit
  }

  /** Exactly the resumable reasons reach a handler that returns. */
  lemma DispatchResumable(reason: nat)
    ensures !Dispatch(reason).Terminal() <==> Resumable(reason)
  {
  }

  /** Every VMX instruction, and nothing else, goes to the handler that fails it. */
  lemma DispatchVmx(reason: nat)
    ensures VmxInstruction(reason) <==> Dispatch(reason).HandleVmx?
  {
  }

  /** A reason the monitor does not know, and only such a reason, is unexpected. */
  lemma DispatchUnexpected(reason: nat)
    ensures (!Resumable(reason) && reason != ExitTripleFault && reason != ExitMonitorTrapFlag
             && reason != ExitEptMisconfig) <==> Dispatch(reason).HandleUnexpectedExit?
  {
  }

  /** The exit qualification of a control-register access. */
  datatype MovCrQualification = MovCrQualification(controlRegister: u64, accessType: u64, gpRegister: u64)

  // Access types of a control-register access.
  const MoveToCr: u64 := 0
  const MoveFromCr: u64 := 1
  const Clts: u64 := 2
  const Lmsw: u64 := 3

  /** Control register in bits 0-3, access type in bits 4-5, register in bits 8-11. */
  function DecodeMovCr(q: u64): (d: MovCrQualification)
    ensures d.controlRegister < 16 && d.accessType < 4 && d.gpRegister < 16
  {
    MovCrQualification(q & 0xF, (q >> 4) & 3, (q >> 8) & 0xF)
  }

  /** The exit qualification of a debug-register access. */
  datatype MovDrQualification = MovDrQualification(debugRegister: u64, moveFromDr: bool, gpRegister: u64)

  /** Debug register in bits 0-2, direction in bit 4 (1 = from), register in bits 8-11. */
  function DecodeMovDr(q: u64): (d: MovDrQualification)
    ensures d.debugRegister < 8 && d.gpRegister < 16
  {
    MovDrQualification(q & 7, q & 0x10 != 0, (q >> 8) & 0xF)
  }

  /** The exit qualification of an I/O instruction. */
  datatype IoQualification = IoQualification(
    sizeOfAccess: u64, inAccess: bool, stringInstruction: bool, repPrefixed: bool, port: u64)

  /**
   * Access size code in bits 0-2, direction in bit 3 (1 = IN), string in
   * bit 4, REP in bit 5, port in bits 16-31.
   */
  function DecodeIo(q: u64): (d: IoQualification)
    ensures d.sizeOfAccess < 8 && d.port < 0x1_0000
  {
    IoQualification(q & 7, q & 8 != 0, q & 0x10 != 0, q & 0x20 != 0, (q >> 16) & 0xFFFF)
  }

  /**
   * The instruction-information word of a descriptor-table exit; the
   * GDTR/IDTR and LDTR/TR layouts agree on every field they share.
   */
  datatype TableInstructionInfo = TableInstructionInfo(
    scaling: u64, register1: u64, addressSize: u64, registerAccess: bool,
    segmentRegister: u64, indexRegister: u64, indexRegisterInvalid: bool,
    baseRegister: u64, baseRegisterInvalid: bool, identity: u64)

  // Address sizes.
  const AddressSize16: u64 := 0
  const AddressSize32: u64 := 1
  const AddressSize64: u64 := 2

  /**
   * Scaling in bits 0-1, register 1 in bits 3-6, address size in bits 7-9,
   * register access in bit 10, segment in bits 15-17, index in bits 18-21,
   * index invalid in bit 22, base in bits 23-26, base invalid in bit 27,
   * instruction identity in bits 28-29.
   */
  function DecodeTableInstructionInfo(x: u64): (d: TableInstructionInfo)
    ensures d.scaling < 4 && d.register1 < 16 && d.addressSize < 8
    ensures d.segmentRegister < 8 && d.indexRegister < 16 && d.baseRegister < 16
    ensures d.identity < 4
  {
    TableInstructionInfo(
      x & 3, (x >> 3) & 0xF, (x >> 7) & 7, x & (1 << 10) != 0,
      (x >> 15) & 7, (x >> 18) & 0xF, x & (1 << 22) != 0,
      (x >> 23) & 0xF, x & (1 << 27) != 0, (x >> 28) & 3)
  }
}
