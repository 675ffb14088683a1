/** CPUID emulation: what the guest sees for each leaf. */
module Cpuid {
  import opened Bits
  import opened Registers
  import opened Vmcs
  import opened ExitInfo
  import opened Context

  /** The hypervisor-present bit of CPUID leaf 1 ECX. */
  const HypervisorPresent: u64 := 1 << 31

  /** Leaf 0 as the guest sees it: highest basic leaf 16, vendor "GenuineIntel". */
  const VendorLeaf: CpuidRegisters := CpuidRegisters(16, 0x756E6547, 0x6C65746E, 0x49656E69)

  /**
   * What the guest's CPUID returns for `leaf` (the low 32 bits of RAX),
   * given what the native instruction returned. Leaf 0 is answered by the
   * monitor and says the processor is genuine Intel; leaf 1 hides the
   * hypervisor-present bit and passes every other bit through; every other
   * leaf is passed through. Each result is a zero-extended 32-bit value.
   */
  function GuestCpuid(leaf: u64, native: CpuidRegisters): (r: CpuidRegisters)
    ensures leaf == 0 ==> r == VendorLeaf
    ensures leaf == 1 ==>
      && r.eax == LowPart(native.eax) && r.ebx == LowPart(native.ebx) && r.edx == LowPart(native.edx)
      && r.ecx & HypervisorPresent == 0
      && r.ecx & !HypervisorPresent == LowPart(native.ecx) & !HypervisorPresent
    ensures leaf != 0 && leaf != 1 ==>
      r == CpuidRegisters(LowPart(native.eax), LowPart(native.ebx), LowPart(native.ecx), LowPart(native.edx))
  {
    if leaf == 0 then
      VendorLeaf
    else
      var ecx := if leaf == 1 then ClearBits(LowPart(native.ecx), HypervisorPresent) else LowPart(native.ecx);
      CpuidRegisters(LowPart(native.eax), LowPart(native.ebx), ecx, LowPart(native.edx))
  }

  /** The four ASCII characters a 32-bit register holds, lowest byte first. */
  function RegisterChars(x: u64): (s: string)
    ensures |s| == 4
  {
    [(x & 0xFF) as char, ((x >> 8) & 0xFF) as char,
     ((x >> 16) & 0xFF) as char, ((x >> 24) & 0xFF) as char]
  }

  /** The vendor string of leaf 0: EBX, EDX, ECX in that order. */
  function VendorString(r: CpuidRegisters): (s: string)
    ensures |s| == 12
  {
    RegisterChars(r.ebx) + RegisterChars(r.edx) + RegisterChars(r.ecx)
  }

  /** Every guest reads "GenuineIntel" from leaf 0, whatever the native processor is. */
  lemma GuestVendorIsGenuineIntel(native: CpuidRegisters)
    ensures VendorString(GuestCpuid(0, native)) == "GenuineIntel"
  {
  }

  /** The register file with the four CPUID results written to RAX, RBX, RCX, RDX. */
  function WithCpuidResult(regs: GpRegisters, r: CpuidRegisters): (out: GpRegisters)
    ensures Get(out, Ax) == r.eax && Get(out, Bx) == r.ebx
    ensures Get(out, Cx) == r.ecx && Get(out, Dx) == r.edx
    ensures forall o: Reg | o !in {Ax, Bx, Cx, Dx} :: Get(out, o) == Get(regs, o)
  {
    Set(Set(Set(Set(regs, Ax, r.eax), Bx, r.ebx), Cx, r.ecx), Dx, r.edx)
  }

  /**
   * `VmmpHandleCpuid`: the real CPUID runs for the guest's leaf (the low 32
   * bits of RAX) and subleaf (the low 32 bits of RCX); the guest's RAX,
   * RBX, RCX and RDX receive `GuestCpuid` of that answer and the guest
   * moves past the instruction.
   */
  method HandleCpuid(ctx: GuestContext, vmcs: Vmcs, exit: ExitInfo, hw: Hardware)
    modifies ctx.stack, vmcs
    ensures ctx.stack.gpRegs ==
      var leaf := LowPart(Get(old(ctx.stack.gpRegs), Ax));
      WithCpuidResult(old(ctx.stack.gpRegs), GuestCpuid(leaf, hw.cpuid(leaf, LowPart(Get(old(ctx.stack.gpRegs), Cx)))))
    ensures vmcs.guest == old(vmcs.guest).(rip := ctx.ip + exit.instructionLength)
    ensures vmcs.entry == SteppedEntry(old(vmcs.entry), ctx.flagReg, exit.instructionLength)
  {
    var leaf := LowPart(Get(ctx.stack.gpRegs, Ax));
    var subleaf := LowPart(Get(ctx.stack.gpRegs, Cx));
    var result := GuestCpuid(leaf, hw.cpuid(leaf, subleaf));
    ctx.stack.gpRegs := WithCpuidResult(ctx.stack.gpRegs, result);
    AdjustGuestInstructionPointer(ctx, vmcs, exit);
  }
}
