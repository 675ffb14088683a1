/**
 * The parts of the current VMCS the exit handlers read and write: the guest
 * state area and the VM-entry event-injection fields, plus the encoding of
 * the interruption-information field shared by VM exits and VM entries.
 */
module Vmcs {
  import opened Bits

  /** The guest-state fields of the VMCS the handlers use. */
  datatype GuestArea = GuestArea(
    rip: u64, rsp: u64, rflags: u64, dr7: u64,
    control: ControlRegisters, segments: Segments, tables: DescriptorTables, msrs: GuestMsrs)

  /** Guest CR0, CR3, CR4 and the read shadows the guest sees for CR0 and CR4. */
  datatype ControlRegisters = ControlRegisters(
    cr0: u64, cr3: u64, cr4: u64, cr0ReadShadow: u64, cr4ReadShadow: u64)

  /** Guest segment bases, the selectors the handlers use, and the SS access rights. */
  datatype Segments = Segments(
    esBase: u64, csBase: u64, ssBase: u64, dsBase: u64, fsBase: u64, gsBase: u64,
    csSelector: u64, ldtrSelector: u64, trSelector: u64, ssArBytes: u64)

  /** Guest GDTR and IDTR. */
  datatype DescriptorTables = DescriptorTables(
    gdtrBase: u64, gdtrLimit: u64, idtrBase: u64, idtrLimit: u64)

  /** The guest MSRs the VMCS holds, other than the FS and GS bases. */
  datatype GuestMsrs = GuestMsrs(sysenterCs: u64, sysenterEsp: u64, sysenterEip: u64, debugctl: u64)

  /**
   * The VM-entry event-injection fields: what the processor delivers to the
   * guest on the next VM entry (`VmEntryIntrInfoField`,
   * `VmEntryExceptionErrorCode`, `VmEntryInstructionLen`).
   */
  datatype EntryEvent = EntryEvent(interruptionInfo: u64, errorCode: u64, instructionLength: u64)

  /** The current VMCS of this processor. */
  class Vmcs {
    var guest: GuestArea
    var entry: EntryEvent

    constructor (guest: GuestArea, entry: EntryEvent)
      ensures this.guest == guest && this.entry == entry
    {
      this.guest := guest;
      this.entry := entry;
    }
  }

  // Interruption types.
  const ExternalInterrupt: u64 := 0
  const NonMaskableInterrupt: u64 := 2
  const HardwareException: u64 := 3
  const SoftwareInterrupt: u64 := 4
  const PrivilegedSoftwareException: u64 := 5
  const SoftwareException: u64 := 6
  const OtherEvent: u64 := 7

  // Exception vectors.
  const DebugException: u64 := 1
  const BreakpointException: u64 := 3
  const InvalidOpcodeException: u64 := 6
  const GeneralProtectionException: u64 := 13
  const PageFaultException: u64 := 14

  /** The fields of an interruption-information word. */
  datatype Interruption = Interruption(vector: u64, kind: u64, deliverErrorCode: bool, valid: bool)

  /** The vector fits in 8 bits and the type in 3. */
  predicate WellFormed(i: Interruption)
  {
    i.vector < 256 && i.kind < 8
  }

  /** Bit 11 (deliver error code) and bit 31 (valid) of an interruption-information word. */
  const DeliverErrorCodeFlag: u64 := 0x800
  const ValidFlag: u64 := 0x8000_0000

  /**
   * The interruption-information word: vector in bits 0-7, type in bits
   * 8-10, deliver-error-code in bit 11, valid in bit 31.
   */
  function EncodeInterruption(i: Interruption): (r: u64)
    requires WellFormed(i)
  {
    i.vector | (i.kind << 8)
      | (if i.deliverErrorCode then DeliverErrorCodeFlag else 0)
      | (if i.valid then ValidFlag else 0)
  }

  /** The fields of an interruption-information word; they are always well formed. */
  function DecodeInterruption(x: u64): (i: Interruption)
    ensures WellFormed(i)
  {
    Interruption(x & 0xFF, (x >> 8) & 7, x & DeliverErrorCodeFlag != 0, x & ValidFlag != 0)
  }

  /** An encoded interruption-information word decodes back to the same fields. */
  lemma DecodeEncodeInterruption(i: Interruption)
    requires WellFormed(i)
    ensures DecodeInterruption(EncodeInterruption(i)) == i
  {
    var d := DecodeInterruption(EncodeInterruption(i));
    EncodedVectorAndKind(i);
    EncodedFlags(i);
    assert d == Interruption(d.vector, d.kind, d.deliverErrorCode, d.valid);
  }

  /** The vector and type fields read back what was placed there. */
  lemma EncodedVectorAndKind(i: Interruption)
    requires WellFormed(i)
    ensures DecodeInterruption(EncodeInterruption(i)).vector == i.vector
    ensures DecodeInterruption(EncodeInterruption(i)).kind == i.kind
  {
  }

  /** The deliver-error-code and valid flags read back what was placed there. */
  lemma EncodedFlags(i: Interruption)
    requires WellFormed(i)
    ensures DecodeInterruption(EncodeInterruption(i)).deliverErrorCode == i.deliverErrorCode
    ensures DecodeInterruption(EncodeInterruption(i)).valid == i.valid
  {
  }

  /**
   * The injection fields after `VmmpInjectInterruption`: a valid event of the
   * given type and vector replaces whatever was pending; the error code is
   * written only when the event delivers one; the instruction length is kept.
   */
  function Injected(e: EntryEvent, kind: u64, vector: u64, deliverErrorCode: bool, errorCode: u64): (r: EntryEvent)
    requires kind < 8 && vector < 256
    ensures DecodeInterruption(r.interruptionInfo) == Interruption(vector, kind, deliverErrorCode, true)
    ensures r.errorCode == (if deliverErrorCode then errorCode else e.errorCode)
    ensures r.instructionLength == e.instructionLength
  {
    var info := EncodeInterruption(Interruption(vector, kind, deliverErrorCode, true));
    DecodeEncodeInterruption(Interruption(vector, kind, deliverErrorCode, true));
    EntryEvent(info, if deliverErrorCode then errorCode else e.errorCode, e.instructionLength)
  }

  /** Writes the injection fields as `Injected` describes (`VmmpInjectInterruption`). */
  method InjectInterruption(vmcs: Vmcs, kind: u64, vector: u64, deliverErrorCode: bool, errorCode: u64)
    requires kind < 8 && vector < 256
    modifies vmcs
    ensures vmcs.entry == Injected(old(vmcs.entry), kind, vector, deliverErrorCode, errorCode)
    ensures vmcs.guest == old(vmcs.guest)
  {
    var info := EncodeInterruption(Interruption(vector, kind, deliverErrorCode, true));
    vmcs.entry := vmcs.entry.(interruptionInfo := info);
    if deliverErrorCode {
      vmcs.entry := vmcs.entry.(errorCode := errorCode);
    }
  }

  /**
   * The injection fields after the guest's instruction pointer has been
   * moved past an emulated instruction of length `length`: when the guest's
   * RFLAGS has TF set, a hardware #DB without error code is pending with
   * the entry instruction length set to `length`; when TF is clear, nothing
   * changes.
   */
  function SteppedEntry(e: EntryEvent, flags: u64, length: u64): (r: EntryEvent)
    ensures flags & (1 << 8) != 0 ==>
      && DecodeInterruption(r.interruptionInfo) == Interruption(DebugException, HardwareException, false, true)
      && r.errorCode == e.errorCode
      && r.instructionLength == length
    ensures flags & (1 << 8) == 0 ==> r == e
  {
    if flags & (1 << 8) != 0 then
      Injected(e, HardwareException, DebugException, false, 0).(instructionLength := length)
    else
      e
  }
}
