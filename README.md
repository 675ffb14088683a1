# VM-exit emulation of HyperPlatform, in Dafny

This project models the VM-exit handling core of the HyperPlatform
hypervisor (`HyperPlatform/vmm.cpp`, x64 build with `VMWARE` defined). The
model covers what the monitor does to the state the guest can see when a
trapped event arrives:

- the dispatcher, which maps each basic exit reason to its handler. Triple
  fault, monitor trap flag, EPT misconfiguration and any unknown reason stop
  the system.
- the emulation handlers: CPUID, RDTSC/RDTSCP, XSETBV, INVD, INVLPG, RDMSR and
  WRMSR, SGDT/SIDT/LGDT/LIDT, SLDT/STR/LLDT/LTR, MOV DR, IN/OUT and their
  string forms, MOV CR, VMX instructions, VMCALL, and exception re-injection.
- the shared steps: moving RIP past the instruction (with a #DB when the
  guest single-steps), building an interruption to inject, register
  selection by number, and the guest's privilege level.
- the epilogue of `VmmVmExitHandler`. It flushes EPT and VPID translations
  when the guest is not resumed and writes the guest's CR8 back.
- the per-processor history ring of recent exits. It wraps at 100 records.

The state is split as in the source:

- `InitialStack`: the saved general registers.
- `GuestContext`: the copy of RFLAGS, the exit RIP, the guest's CR8 and
  `vm_continue`.
- `Vmcs`: the guest-state area and the pending injection.
- `Processor`: guest memory, as a map from addresses to bytes, and the log
  of privileged operations the monitor performs on the real processor.

These are classes whose handlers update them in place. Values read from
the real hardware (CPUID output, the time stamp, MSR values, DR0-DR3 and
DR6, the VMX fixed-bit MSRs, the port input) come in as a `Hardware`
record. CPUID output is given for every leaf and subleaf, and MSR values
for every MSR number. The handlers apply them to what the guest named: the
low 32 bits of RAX and RCX for CPUID, and RCX for RDMSR. A bug check is
the outcome `Fatal`.

Each handler is a method whose postcondition ties the new state to a
specification function of the old state (`MovCr`, `MovDrAccess`,
`PortAccess`, `VmCallOf`, `GdtrOrIdtrExit`, `LdtrOrTrExit`). Lemmas then
state what those functions promise: round trips (SGDT then LGDT, SLDT then
LLDT, MOV to then from CR3/CR8/DR7, WRMSR then RDMSR), the exact conditions
under which an access is refused, and the frames of what stays unchanged.

The handlers follow the code as written, including the four behaviours
listed under "## Findings" (a #DB that replaces the #GP of a refused MSR,
the sign-extended RDX of RDMSR, the upper half of RAX kept by a doubleword
IN, and the 10-byte read of LGDT/LIDT). For each of those the corrected
definition is kept beside it as a reference, and a lemma shows where the
two differ.

The hypercall numbers (0 unload, 1 ping, 2 shared data) and the bit layouts
of DR6 and DR7, of the I/O, MOV CR and MOV DR exit qualifications, of the
segment descriptor's L bit and of the basic exit-reason numbers are taken
from the Intel SDM and the upstream HyperPlatform headers; `util.h` and
`ia32_type.h` are not part of this model.
The contracts of the qualification decoders (`ExitInfo.DecodeMovCr`,
`DecodeMovDr`, `DecodeIo`, `DecodeTableInstructionInfo`) state only that
each field fits its width; which bits each field is taken from is in their
bodies, following the SDM layouts.

Where the code and its description disagree, the model follows the code:

- A MOV to CR3 commits the written value with bit 63 cleared. It does not
  keep the old bit 63.
- A hypercall number above the largest known one injects #UD, and then
  nothing more happens.
- A refused hypercall leaves RIP on the VMCALL. The #UD is delivered with
  the VMCALL's length.
- A string I/O instruction passes only the low 32 bits of RCX to the port
  as its count. Its pointer register still moves by the whole RCX times
  the access size.

## Model

| member | source | states |
|---|---|---|
| Bits.SetBits | HyperPlatform/vmm.cpp:985 | every bit of the mask is one in the result and every other bit is kept |
| Bits.ClearBits | HyperPlatform/vmm.cpp:1305 | every bit of the mask is zero in the result and every other bit is kept |
| Bits.LowPart | HyperPlatform/vmm.cpp:592-595 | the `LowPart` of a 64-bit value holds its low 32 bits and nothing above them |
| Bits.HighPart | HyperPlatform/vmm.cpp:592-595 | the `HighPart` fits in 32 bits and recombines with the low part into the original value |
| Bits.MakeQuad | HyperPlatform/vmm.cpp:618-620 | combining EDX:EAX puts the low half of the first at bits 32-63 and the low half of the second at bits 0-31 |
| Registers.RegIndex | HyperPlatform/vmm.cpp:1474-1491 | every register has one of the 16 slots of the saved register file |
| Registers.Set | HyperPlatform/vmm.cpp:1470-1497 | writing through the selected register changes that register and no other |
| Registers.SelectRegister | HyperPlatform/vmm.cpp:1470-1497 | `VmmpSelectRegister`: a number selects a register exactly when it is below 16, and then the register whose slot it is |
| Registers.SaveOrderIndex | HyperPlatform/vmm.cpp:1474-1491 | the register selected by number i is saved in slot i |
| Registers.RegIndexOrder | HyperPlatform/vmm.cpp:1474-1491 | each register's slot holds that register in the save order |
| Registers.VmSucceed | HyperPlatform/vmm.cpp:1603-1610 | VMsucceed: CF, PF, AF, ZF, SF and OF are all cleared and every other RFLAGS bit is kept |
| Registers.VmFailInvalid | HyperPlatform/vmm.cpp:1377-1382 | VMfailInvalid: CF set, PF, AF, ZF, SF and OF cleared, every other RFLAGS bit kept |
| Vmcs.DecodeInterruption | HyperPlatform/vmm.cpp:456-460 | any interruption-information word decodes to a vector below 256 and a type below 8 |
| Vmcs.DecodeEncodeInterruption | HyperPlatform/vmm.cpp:1687-1692 | decoding the injected interruption-information word gives back the vector, type, error-code flag and valid flag encoded |
| Vmcs.EncodedVectorAndKind | HyperPlatform/vmm.cpp:1689-1690 | the encoded word carries the vector and the type unchanged |
| Vmcs.EncodedFlags | HyperPlatform/vmm.cpp:1688-1691 | the encoded word carries the deliver-error-code and valid flags unchanged |
| Vmcs.Injected | HyperPlatform/vmm.cpp:1684-1697 | the pending event decodes to the requested valid interruption; the error code is replaced exactly when one is delivered; the entry length is kept |
| Vmcs.InjectInterruption | HyperPlatform/vmm.cpp:1684-1697 | `VmmpInjectInterruption` sets the injection fields to `Injected` and leaves the guest-state area alone |
| Vmcs.SteppedEntry | HyperPlatform/vmm.cpp:1568-1583 | with TF set, a valid hardware #DB without error code is pending and the entry length is the exit's; with TF clear, the injection fields are unchanged |
| Context.GuestCpl | HyperPlatform/vmm.cpp:1676-1680 | the guest's CPL is below 4, and it is 0 exactly when the DPL bits of the SS access rights are clear |
| Context.AdjustGuestInstructionPointer | HyperPlatform/vmm.cpp:1558-1584 | guest RIP becomes the exit RIP plus the instruction length, and the injection fields become `SteppedEntry`; nothing else in the guest-state area changes |
| Context.InitialStack.constructor | HyperPlatform/vmm.cpp:208 | the saved registers and the processor-data addresses are those given |
| Context.GuestContext.constructor | HyperPlatform/vmm.cpp:251-256 | the context starts with the exit RFLAGS, RIP and CR8 and with `vm_continue` true |
| Context.Processor.constructor | HyperPlatform/vmm.cpp:817-819 | a processor starts with the given guest memory and no operations performed |
| GuestMemory.LeBytes | HyperPlatform/vmm.cpp:822-884 | a value's little-endian image has the requested number of bytes |
| GuestMemory.LeValue | HyperPlatform/vmm.cpp:822-884 | the value of n little-endian bytes is below 256^n |
| GuestMemory.LeValueOfBytes | HyperPlatform/vmm.cpp:822-884 | reading back the little-endian image of a value that fits gives the value |
| GuestMemory.LeBytesOfValue | HyperPlatform/vmm.cpp:822-884 | writing the value of a byte string gives back the same bytes |
| GuestMemory.Load | HyperPlatform/vmm.cpp:822-884 | a load of n mapped bytes returns exactly the bytes at a, a+1, ... |
| GuestMemory.Store | HyperPlatform/vmm.cpp:822-884 | a store to mapped bytes writes exactly those bytes, keeps every other byte and maps no new one |
| GuestMemory.LoadStore | HyperPlatform/vmm.cpp:822-884 | loading what was just stored gives back the stored bytes |
| GuestMemory.LoadWord | HyperPlatform/vmm.cpp:964-985 | a word load succeeds exactly when all its bytes are mapped |
| GuestMemory.StoreWord | HyperPlatform/vmm.cpp:964-985 | a word store succeeds exactly when all its bytes are mapped, and then keeps every byte outside them |
| GuestMemory.LoadStoreWord | HyperPlatform/vmm.cpp:964-985 | a word loaded right after storing it gives back its stored low bytes |
| GuestMemory.StoreWordBytes | HyperPlatform/vmm.cpp:964-985 | a word store leaves the little-endian image of the truncated value in memory |
| GuestMemory.LoadWordFrame | HyperPlatform/vmm.cpp:964-985 | a store does not change a word load from disjoint bytes |
| GuestMemory.LoadWordAgrees | HyperPlatform/vmm.cpp:964-985 | two memories that agree on a word's bytes give the same word load |
| Cpuid.GuestCpuid | HyperPlatform/vmm.cpp:555-582 | leaf 0 always reports max leaf 16 and the GenuineIntel vendor; leaf 1 reports the real leaf with ECX bit 31 (hypervisor present) cleared; any other leaf is passed through unchanged |
| Cpuid.RegisterChars | HyperPlatform/vmm.cpp:557-559 | a register's vendor characters are 4 long |
| Cpuid.VendorString | HyperPlatform/vmm.cpp:557-559 | the vendor string of EBX, EDX and ECX is 12 long |
| Cpuid.GuestVendorIsGenuineIntel | HyperPlatform/vmm.cpp:555-563 | whatever the real processor is, the guest reads the vendor "GenuineIntel" |
| Cpuid.WithCpuidResult | HyperPlatform/vmm.cpp:579-582 | EAX-EDX receive the four results and no other register changes |
| Cpuid.HandleCpuid | HyperPlatform/vmm.cpp:520-585 | the real CPUID answer for the guest's leaf (low 32 bits of RAX) and subleaf (low 32 bits of RCX) goes through `GuestCpuid` into RAX-RDX, and the guest moves past the instruction |
| Instructions.WithTimeStamp | HyperPlatform/vmm.cpp:592-595 | EDX:EAX recombine into the time stamp, each half zero-extended; no other register changes |
| Instructions.HandleRdtsc | HyperPlatform/vmm.cpp:589-598 | EDX:EAX receive the time stamp and the guest moves past the instruction |
| Instructions.HandleRdtscp | HyperPlatform/vmm.cpp:601-612 | EDX:EAX receive the time stamp and ECX the TSC_AUX value, and the guest moves past the instruction |
| Instructions.HandleXsetbv | HyperPlatform/vmm.cpp:615-624 | XCR number ECX is written with EDX:EAX, and the guest moves past the instruction |
| Instructions.HandleInvalidateInternalCaches | HyperPlatform/vmm.cpp:1428-1433 | INVD is performed once and the guest moves past the instruction |
| Instructions.GuestVpid | HyperPlatform/vmm.cpp:1441-1442 | the guest's VPID is the processor number plus one, cut to 16 bits, so never 0 on a real processor |
| Instructions.HandleInvalidateTlbEntry | HyperPlatform/vmm.cpp:1436-1445 | the page at the exit qualification is flushed for the guest's VPID, and the guest moves past the instruction |
| Exceptions.ReflectedEvent | HyperPlatform/vmm.cpp:462-516 | an event chosen for re-injection is a well-formed interruption |
| Exceptions.ReflectedUnchanged | HyperPlatform/vmm.cpp:462-516 | exactly a hardware #PF or #GP or a software #BP is re-injected; it is the same vector and type, valid, with an error code exactly for the hardware exceptions |
| Exceptions.HandleException | HyperPlatform/vmm.cpp:453-517 | the event goes back with the exit's error code; a #PF also loads CR2 with the fault address; a #BP sets the entry length to the INT3's; RIP is not moved; any other event is fatal and changes nothing |
| ExitInfo.DispatchResumable | HyperPlatform/vmm.cpp:344-418 | a reason dispatches to a non-terminal handler exactly when it is one of the handled reasons |
| ExitInfo.DispatchVmx | HyperPlatform/vmm.cpp:396-408 | exactly the eleven VMX-instruction reasons go to `VmmpHandleVmx` |
| ExitInfo.DispatchUnexpected | HyperPlatform/vmm.cpp:415-417 | exactly the reasons no case names go to `VmmpHandleUnexpectedExit` |
| ExitInfo.DecodeMovCr | HyperPlatform/vmm.cpp:1264-1270 | the MOV CR qualification decodes to a CR number below 16, an access type below 4 and a register number below 16 |
| ExitInfo.DecodeMovDr | HyperPlatform/vmm.cpp:1010-1012 | the MOV DR qualification decodes to a DR number below 8 and a register number below 16 |
| ExitInfo.DecodeIo | HyperPlatform/vmm.cpp:1137-1143 | the I/O qualification decodes to a size code below 8 and a 16-bit port |
| ExitInfo.DecodeTableInstructionInfo | HyperPlatform/vmm.cpp:760-761 | every field of the instruction information decodes within its width |
| ExitInfo.Dispatch | HyperPlatform/vmm.cpp:344-418 | the handler each basic exit reason goes to, one per `case` of the switch and `VmmpHandleUnexpectedExit` for the rest; its properties are `DispatchResumable`, `DispatchVmx` and `DispatchUnexpected` |
| ExitInfo.BasicReason | HyperPlatform/vmm.cpp:325-326 | `exit_reason.fields.reason`: the low 16 bits of the exit-reason field, on which the dispatch switches; `Dispatch` and its lemmas are stated over it |
| Msr.IsValidMsr | HyperPlatform/vmm.cpp:654-669 | an MSR number is accepted exactly when it is in 0-0x1FFF or 0xC0000000-0xC0001FFF or is 0x400000F0 |
| Msr.Redirection | HyperPlatform/vmm.cpp:691-720 | exactly SYSENTER_CS/ESP/EIP, DEBUGCTL, GS_BASE and FS_BASE are redirected, each to the VMCS field for that MSR |
| Msr.GuestMsrValue | HyperPlatform/vmm.cpp:691-733 | the guest value of a VMCS-held MSR is the VMCS field it is redirected to; with `WithGuestMsr` it reads back what was written (`WrmsrThenRdmsr`) |
| Msr.RdmsrValue | HyperPlatform/vmm.cpp:724-738 | RDMSR returns the VMCS copy for a redirected MSR and the real MSR's value otherwise; its round trip with WRMSR is `WrmsrThenRdmsr` |
| Msr.WithGuestMsr | HyperPlatform/vmm.cpp:742-747 | writing a VMCS-held MSR changes that field and no other part of the guest-state area; IA32_SYSENTER_CS, a 32-bit VMCS field, keeps only the low 32 bits |
| Msr.WithGuestMsrKeepsOthers | HyperPlatform/vmm.cpp:742-747 | writing one VMCS-held MSR leaves every other one unchanged |
| Msr.RdmsrRegisters | HyperPlatform/vmm.cpp:737-738 | corrected reference: RDMSR as the instruction behaves leaves the value in EDX:EAX, each half zero-extended, and no other register changed |
| Msr.RdmsrRegistersAsWritten | HyperPlatform/vmm.cpp:737-738 | as written: RAX gets the low half zero-extended, RDX's low half gets the high half and its upper half is all ones exactly when bit 63 is set; no other register changes |
| Msr.RdmsrSignExtendsHighHalf | HyperPlatform/vmm.cpp:726-738 | for an MSR value with bit 63 set, the code as written fills RDX's upper half with ones, where the corrected RDMSR leaves zeros |
| Msr.WrmsrValue | HyperPlatform/vmm.cpp:740-741 | WRMSR writes EDX:EAX: the low half of RAX below, the low half of RDX above |
| Msr.WrmsrThenRdmsr | HyperPlatform/vmm.cpp:726-750 | a VMCS-held MSR that was written reads back the written value, whatever the hardware holds; IA32_SYSENTER_CS reads back its low 32 bits |
| Msr.RefusedMsrLosesGeneralProtection | HyperPlatform/vmm.cpp:676-682 | as written, a refused MSR access by a single-stepping guest leaves a #DB pending instead of the #GP |
| Msr.RefusedMsrEntry | HyperPlatform/vmm.cpp:676-680 | corrected reference: a refused MSR number leaves a valid hardware #GP with error code 0x6A pending |
| Msr.RefusedMsrEntryAsWritten | HyperPlatform/vmm.cpp:676-683 | as written: with TF clear the #GP(0x6A) is pending; with TF set a valid hardware #DB without error code, of the instruction's length, is pending instead |
| Msr.HandleMsrAccess | HyperPlatform/vmm.cpp:648-754 | a refused number leaves the injection of `RefusedMsrEntryAsWritten` (#GP(0x6A), or #DB under TF) and RIP advanced with nothing else touched; RDMSR loads EDX:EAX from the VMCS copy or from the real MSR that RCX names, RDX sign-extended as written; WRMSR stores EDX:EAX to the VMCS copy or the real MSR |
| ControlRegisters.FixedBitsSet | HyperPlatform/vmm.cpp:1282-1283 | every bit fixed to one is one in the committed CR0/CR4 |
| ControlRegisters.FixedBitsCleared | HyperPlatform/vmm.cpp:1282-1283 | every bit fixed to zero is zero in the committed CR0/CR4 |
| ControlRegisters.FixedBitsKept | HyperPlatform/vmm.cpp:1282-1283 | every bit left free by the fixed MSRs is committed as the guest wrote it |
| ControlRegisters.FixedBitsHeld | HyperPlatform/vmm.cpp:1282-1283 | a value that already satisfies the fixed bits is committed unchanged |
| ControlRegisters.FixedBitsUnchanged | HyperPlatform/vmm.cpp:1282-1283 | a value is committed unchanged exactly when it already has every bit fixed to one and no bit fixed to zero |
| ControlRegisters.FixedBitsIdempotent | HyperPlatform/vmm.cpp:1282-1283 | applying the fixed bits twice gives the same value as once |
| ControlRegisters.FixedBitsApplied | HyperPlatform/vmm.cpp:1279-1283 | the CR0/CR4 value AND-ed with FIXED1 and OR-ed with FIXED0 (also vmm.cpp:1316-1320); `FixedBitsSet`, `FixedBitsCleared`, `FixedBitsKept`, `FixedBitsUnchanged` and `FixedBitsIdempotent` state what it leaves |
| ControlRegisters.KernelCr3 | HyperPlatform/vmm.cpp:1700-1721 | `VmmpGetKernelCr3` on x64: a guest CR3 with bit 0 set is replaced by the process's `DirectoryTableBase`; used by `Cr3WriteThenRead` |
| ControlRegisters.PdpteReload | HyperPlatform/vmm.cpp:1276-1278 | the PDPTEs are reloaded only under 32-bit PAE paging; stated per register by `Cr0Write`, `Cr4Write` and `Cr3WriteThenRead` |
| ControlRegisters.MovCr | HyperPlatform/vmm.cpp:1260-1371 | the decision of `VmmpHandleCrAccess`; its refusals are `UnsupportedCrAccess`, CLTS/LMSW `CltsAndLmswIgnored`, writes and reads the lemmas below |
| ControlRegisters.WriteControlRegister | HyperPlatform/vmm.cpp:1271-1338 | a MOV to CR0, CR3, CR4 or CR8 as `Cr0Write`, `Cr3WriteThenRead`, `Cr4Write` and `Cr8WriteThenRead` state, any other CR refused |
| ControlRegisters.ReadControlRegister | HyperPlatform/vmm.cpp:1340-1361 | a MOV from CR3 or CR8 as `ReadChangesOnlyDestination` states, any other CR refused |
| ControlRegisters.UnsupportedCrAccess | HyperPlatform/vmm.cpp:1333-1359 | exactly a MOV to a CR other than 0, 3, 4 and 8, or from a CR other than 3 and 8, stops the system |
| ControlRegisters.CltsAndLmswIgnored | HyperPlatform/vmm.cpp:1364-1367 | CLTS and LMSW change nothing but RIP |
| ControlRegisters.Cr0Write | HyperPlatform/vmm.cpp:1274-1287 | a MOV to CR0 commits the value with its fixed bits to CR0 and its shadow alike, reloads the PDPTEs only under PAE, and changes nothing else |
| ControlRegisters.Cr0Rewrite | HyperPlatform/vmm.cpp:1274-1287 | writing back the CR0 the guest reads through the shadow changes nothing |
| ControlRegisters.Cr4Write | HyperPlatform/vmm.cpp:1310-1324 | a MOV to CR4 commits the value with its fixed bits to CR4 and its shadow, and flushes every VPID |
| ControlRegisters.Cr4Rewrite | HyperPlatform/vmm.cpp:1310-1324 | writing back the CR4 the guest reads through the shadow changes nothing |
| ControlRegisters.Cr3WriteThenRead | HyperPlatform/vmm.cpp:1290-1307 | a MOV to CR3 then from CR3 gives back the written value with bit 63 cleared; the write flushes the guest's VPID after a PAE reload from the kernel CR3 |
| ControlRegisters.Cr8WriteThenRead | HyperPlatform/vmm.cpp:1327-1353 | a MOV to CR8 then from CR8 gives back the written value, and the write touches only the context's CR8 |
| ControlRegisters.ReadChangesOnlyDestination | HyperPlatform/vmm.cpp:1340-1354 | a MOV from CR3 or CR8 writes the VMCS CR3 or the context's CR8 into the destination register only |
| ControlRegisters.HandleCrAccess | HyperPlatform/vmm.cpp:1260-1371 | an unsupported access is fatal before anything changes; otherwise the control registers, registers, CR8 and operations are those of `MovCr`, and RIP moves past |
| ControlRegisters.ApplyCrAccess | HyperPlatform/vmm.cpp:1270-1370 | commits a decided CR access: fatal with nothing changed, or every new value in place and RIP moved past |
| DebugRegisters.CommittedDr6 | HyperPlatform/vmm.cpp:1096-1100 | a DR6 write has bits 4-11 and 17-31 forced to one, bit 12 forced to zero, and every other bit as written |
| DebugRegisters.CommittedDr7 | HyperPlatform/vmm.cpp:1105-1109 | a DR7 write has bit 10 forced to one, bits 12, 14 and 15 forced to zero, and every other bit as written |
| DebugRegisters.CommittedDr6Unchanged | HyperPlatform/vmm.cpp:1096-1100 | a DR6 value is committed unchanged exactly when its reserved bits already hold their values |
| DebugRegisters.CommittedDr6Idempotent | HyperPlatform/vmm.cpp:1096-1100 | committing a committed DR6 value changes nothing |
| DebugRegisters.CommittedDr7Unchanged | HyperPlatform/vmm.cpp:1105-1109 | a DR7 value is committed unchanged exactly when its reserved bits already hold their values |
| DebugRegisters.CommittedDr7Idempotent | HyperPlatform/vmm.cpp:1105-1109 | committing a committed DR7 value changes nothing |
| DebugRegisters.GeneralDetectStatus | HyperPlatform/vmm.cpp:1035-1046 | on a general-detect fault DR6.B0-B3 are cleared, DR6.BD is set, and the other bits are kept |
| DebugRegisters.AliasedRegister | HyperPlatform/vmm.cpp:1017-1029 | DR4 and DR5 are accessed as DR6 and DR7; every other number stands for itself |
| DebugRegisters.DebugRegisterValue | HyperPlatform/vmm.cpp:1116-1125 | DR0-DR3 and DR6 read from the processor, DR7 from the VMCS; stated by `MovFromDr` |
| DebugRegisters.Unprivileged | HyperPlatform/vmm.cpp:1003-1008 | the guest runs below ring 0; its effect is `UnprivilegedMovDr` |
| DebugRegisters.ReservedAlias | HyperPlatform/vmm.cpp:1017-1023 | DR4 or DR5 with CR4.DE set; its effect is `ReservedAliasMovDr` |
| DebugRegisters.WideWrite | HyperPlatform/vmm.cpp:1070-1078 | a 64-bit MOV to DR6 or DR7 with upper bits set, refused with #GP(0); stated in `PerformedMovDr` |
| DebugRegisters.MovDrAccess | HyperPlatform/vmm.cpp:995-1133 | the decision of `VmmpHandleDrAccess`, whose cases are stated by `UnprivilegedMovDr`, `ReservedAliasMovDr`, `AliasedMovDr`, `GeneralDetectMovDr`, `PerformedMovDr`, `MovToDr` and `MovFromDr` |
| DebugRegisters.AccessDebugRegister | HyperPlatform/vmm.cpp:1031-1128 | the ring-0 access after aliasing: the DR7.GD #DB, the #GP for a wide DR6/DR7 write, then the read or write; stated by `GeneralDetectMovDr`, `PerformedMovDr`, `MovToDr`, `MovFromDr` and `MovFromDrKeepsOthers` |
| DebugRegisters.Fault.Vector | HyperPlatform/vmm.cpp:1004-1022 | a refusal injects a valid exception vector |
| DebugRegisters.UnprivilegedMovDr | HyperPlatform/vmm.cpp:1003-1008 | below ring 0 a MOV DR is refused with #GP(0) |
| DebugRegisters.ReservedAliasMovDr | HyperPlatform/vmm.cpp:1017-1023 | in ring 0, DR4 or DR5 with CR4.DE set is refused with #UD |
| DebugRegisters.AliasedMovDr | HyperPlatform/vmm.cpp:1017-1029 | with CR4.DE clear, an access to DR4 is exactly one to DR6 and an access to DR5 exactly one to DR7 |
| DebugRegisters.GeneralDetectMovDr | HyperPlatform/vmm.cpp:1033-1060 | with DR7.GD set, no access is performed; DR6 gets BD and loses B0-B3, and GD is cleared in the guest's DR7 |
| DebugRegisters.PerformedMovDr | HyperPlatform/vmm.cpp:1003-1078 | the access is performed exactly in ring 0, not on DR4/DR5 with CR4.DE, without DR7.GD, and not for a 64-bit DR6/DR7 write with upper bits set |
| DebugRegisters.MovToDr | HyperPlatform/vmm.cpp:1080-1115 | a performed write puts DR0-DR3 as written and DR6 with its reserved bits forced into the processor, DR7 forced into the VMCS, and changes no register |
| DebugRegisters.MovFromDr | HyperPlatform/vmm.cpp:1116-1128 | a performed read loads DR0-DR3 and DR6 from the processor and DR7 from the VMCS into the register |
| DebugRegisters.MovFromDrKeepsOthers | HyperPlatform/vmm.cpp:1116-1128 | a read changes only its destination register and no debug register |
| DebugRegisters.Dr7WriteThenRead | HyperPlatform/vmm.cpp:1103-1124 | a MOV to DR7 then from DR7 gives back the written value with its reserved bits forced |
| DebugRegisters.HandleDrAccess | HyperPlatform/vmm.cpp:995-1132 | a refusal injects its fault and leaves RIP; a general-detect fault commits DR6 and DR7 and injects #DB without moving RIP; a performed access commits registers, DR7 and writes and moves RIP past |
| DebugRegisters.ApplyDrAccess | HyperPlatform/vmm.cpp:1003-1131 | commits a decided MOV DR in each of the three cases above |
| IoPort.AccessSize | HyperPlatform/vmm.cpp:1151-1167 | size codes 0, 1 and 3 mean 1, 2 and 4 bytes, and no other code names a size |
| IoPort.SizeMask | HyperPlatform/vmm.cpp:1225-1228 | the mask of an access size fits in 32 bits |
| IoPort.InputRegisterAsWritten | HyperPlatform/vmm.cpp:1225-1228 | as written, IN replaces only the low `size` bytes of RAX and keeps all the others, the doubleword case included |
| IoPort.InputRegister | HyperPlatform/vmm.cpp:1225-1228 | IN of a byte or word replaces those bytes of RAX; IN of a doubleword leaves RAX zero-extended |
| IoPort.InputKeepsUpperHalf | HyperPlatform/vmm.cpp:1228 | a doubleword IN into a RAX with ones above bit 31 keeps them as written, and clears them in the corrected model |
| IoPort.InputRegisterNarrow | HyperPlatform/vmm.cpp:1226-1227 | for byte and word IN the corrected and the as-written register agree |
| IoPort.Scaled | HyperPlatform/vmm.cpp:1180 | the byte span is the count times the access size, wrapping at 2^64 |
| IoPort.StringPointer | HyperPlatform/vmm.cpp:1144-1145 | RDI for INS and RSI for OUTS; used by `StringAccess` and `StringPointerMoves` |
| IoPort.ElementCount | HyperPlatform/vmm.cpp:1146-1147 | RCX under REP, otherwise one; used by `StringAccess` |
| IoPort.StringRegisters | HyperPlatform/vmm.cpp:1178-1193 | the registers a string instruction leaves, stated by `StringPointerMoves` and `StringCountCleared` |
| IoPort.PortAccess | HyperPlatform/vmm.cpp:1135-1257 | the decision of `VmmpHandleIoPort` and `VmmpIoWrapper`, stated by `PortAccessSize`, `StringAccess`, `OutAccess` and `InAccess` |
| IoPort.PortAccessSize | HyperPlatform/vmm.cpp:1216-1250 | an I/O exit is fatal exactly when its size code names no size |
| IoPort.StringPointerMoves | HyperPlatform/vmm.cpp:1184-1188 | a string instruction moves RDI (INS) or RSI (OUTS) down by the span when DF is set and up when it is clear |
| IoPort.StringCountCleared | HyperPlatform/vmm.cpp:1190-1192 | REP leaves RCX zero, without REP RCX is kept, and no register other than RCX and the pointer changes |
| IoPort.StringAccess | HyperPlatform/vmm.cpp:1144-1193 | a string instruction transfers, from or to RDI (INS) or RSI (OUTS), the low 32 bits of the count (RCX under REP, else 1) of elements, and leaves the registers of `StringRegisters` for the whole count times the size |
| IoPort.OutAccess | HyperPlatform/vmm.cpp:1245-1248 | OUT sends the low `size` bytes of RAX and changes no register |
| IoPort.InAccess | HyperPlatform/vmm.cpp:1225-1228 | IN reads the port, its low `size` bytes land in the low bytes of RAX, every other byte of RAX is kept as written (the doubleword case included), and no other register changes |
| IoPort.HandleIoPort | HyperPlatform/vmm.cpp:1135-1196 | a size code naming no size is fatal before anything changes; otherwise the port operation of `PortAccess` is performed, the registers updated as written (an IN keeps RAX's other bytes) and RIP moved past |
| IoPort.ApplyIoAccess | HyperPlatform/vmm.cpp:1174-1195 | commits a decided I/O access: fatal with nothing changed, or the operation logged, the registers set and RIP moved past |
| TableInstructions.ScaledIndex | HyperPlatform/vmm.cpp:780-792 | the index is multiplied by 1, 2, 4 or 8 as the scaling field says |
| TableInstructions.SizedAddress | HyperPlatform/vmm.cpp:810-813 | a 32-bit address size keeps only the low 32 bits of the operand address; other sizes keep all 64 |
| TableInstructions.SegmentBase | HyperPlatform/vmm.cpp:796-805 | the base of ES, CS, SS, DS, FS or GS for segment numbers 0-5 and 0 for any other; part of `OperandAddress`, whose register frame `OperandAddressReadsNamedRegisters` states |
| TableInstructions.BaseValueReadsBaseRegister | HyperPlatform/vmm.cpp:767-772 | the base term reads only the base register, and is 0 when that is marked invalid |
| TableInstructions.IndexValueReadsIndexRegister | HyperPlatform/vmm.cpp:775-793 | the index term reads only the index register, and is 0 when that is marked invalid |
| TableInstructions.OperandAddressReadsNamedRegisters | HyperPlatform/vmm.cpp:767-813 | the operand address depends on no register other than the base and index registers named |
| TableInstructions.SelectorOperand | HyperPlatform/vmm.cpp:901-955 | the register form targets the register named by register1; the memory form targets the operand address |
| TableInstructions.OperandAddress | HyperPlatform/vmm.cpp:764-813 | segment base plus base, scaled index and displacement, cut to 32 bits under 32-bit addressing; stated by `SizedAddress`, `ScaledIndex` and `OperandAddressReadsNamedRegisters` |
| TableInstructions.DescriptorAddress | HyperPlatform/vmm.cpp:837-840 | the GDT entry of a selector: its index times 8 past the GDT base; used by `CodeIs64` and `LoadTaskRegister` |
| TableInstructions.CodeIs64 | HyperPlatform/vmm.cpp:837-841 | the L bit of the code-segment descriptor, `None` when it is unmapped; `StoreKeepsCodeSegment` shows SGDT/SIDT keep it |
| TableInstructions.StoreTableRegister | HyperPlatform/vmm.cpp:825-876 | SGDT/SIDT succeed exactly when the 10-byte (64-bit code) or 6-byte image is mapped, and change no byte outside it |
| TableInstructions.LoadTableRegister | HyperPlatform/vmm.cpp:826-832 | reference reader: a table-register image of the operand size (10 bytes in 64-bit code, 6 otherwise) reads successfully exactly when it is mapped |
| TableInstructions.LoadTableRegisterAsWritten | HyperPlatform/vmm.cpp:877-884 | LGDT/LIDT as written read the 10-byte image whatever the operand size, and succeed exactly when those 10 bytes are mapped |
| TableInstructions.StoredTableWords | HyperPlatform/vmm.cpp:841-851 | the image holds the limit's 2 low bytes, then the base's 8 bytes (64-bit code) or 4 low bytes |
| TableInstructions.TableRegisterRoundTrip | HyperPlatform/vmm.cpp:825-884 | reading back a stored image in the same mode gives the 16-bit limit and the base as the operand size keeps it |
| TableInstructions.CompatReloadAsWritten | HyperPlatform/vmm.cpp:846-884 | after a 32-bit SGDT/SIDT stored 6 bytes, the as-written 10-byte reload returns the 16-bit limit and a base whose low 4 bytes are the stored ones and whose upper 4 bytes are the 4 memory bytes after the image |
| TableInstructions.CompatReloadAsWrittenDiffers | HyperPlatform/vmm.cpp:877-884 | a 6-byte image at the end of mapped memory stores fine, but the as-written 10-byte LGDT faults, where the corrected one reloads the stored register |
| TableInstructions.StoredRegister | HyperPlatform/vmm.cpp:833-867 | SGDT stores the GDTR and SIDT the IDTR |
| TableInstructions.LoadedTables | HyperPlatform/vmm.cpp:877-884 | LGDT loads the GDTR and LIDT the IDTR, leaving the other one alone |
| TableInstructions.GdtrOrIdtrAccess | HyperPlatform/vmm.cpp:822-886 | SGDT/SIDT store the register in the code segment's operand size, LGDT/LIDT read 10 bytes without reading the descriptor; stated by `StoreKeepsCodeSegment`, `LoadAccess` and `StoreThenLoadTableRegister` |
| TableInstructions.GdtrOrIdtrExit | HyperPlatform/vmm.cpp:757-889 | the decoded instruction applied to the decoded operand address; the effect `HandleGdtrOrIdtrAccess` commits |
| TableInstructions.StoreThenLoadTableRegister | HyperPlatform/vmm.cpp:757-889 | in 64-bit code, SGDT then LGDT (or SIDT then LIDT) at the same address, off the code-segment descriptor, restores the base and the 16-bit limit |
| TableInstructions.LoadAccess | HyperPlatform/vmm.cpp:877-884 | LGDT/LIDT load exactly the 10-byte image read, fault exactly when it is unmapped, leave memory alone, and do not depend on the code segment |
| TableInstructions.StoreKeepsCodeSegment | HyperPlatform/vmm.cpp:825-876 | SGDT/SIDT leave the GDTR and IDTR alone and, off the code-segment descriptor, keep the operand size the next access sees |
| TableInstructions.HandleGdtrOrIdtrAccess | HyperPlatform/vmm.cpp:757-889 | the instruction is emulated on memory and the GDTR/IDTR as `GdtrOrIdtrExit` decides (LGDT/LIDT reading 10 bytes as written) and RIP moves past; an unmapped access is fatal and changes nothing |
| TableInstructions.ApplyTableOutcome | HyperPlatform/vmm.cpp:822-888 | commits a decided GDTR/IDTR outcome, fatal with nothing changed or applied with RIP moved past |
| TableInstructions.StoredSelector | HyperPlatform/vmm.cpp:967-973 | SLDT stores the LDTR selector and STR the TR selector |
| TableInstructions.WithLowWord | HyperPlatform/vmm.cpp:968-972 | a 16-bit store into a register replaces its low 16 bits and keeps the rest |
| TableInstructions.StoreSelector | HyperPlatform/vmm.cpp:964-973 | SLDT/STR write the 16-bit selector into the operand; stated by `StoreSelectorEffects` and `StoreThenLoadSelector` |
| TableInstructions.StoreSelectorEffects | HyperPlatform/vmm.cpp:964-973 | SLDT/STR to a register never fault and change only its low word; to memory they fault exactly when unmapped and change only those 2 bytes |
| TableInstructions.LoadedSelector | HyperPlatform/vmm.cpp:974-981 | LLDT/LTR read the low 16 bits of the register, or the 2 bytes at the operand address |
| TableInstructions.LoadTaskRegister | HyperPlatform/vmm.cpp:977-986 | LTR sets the TR selector and marks the TSS descriptor busy; stated by `LoadTaskRegisterEffects` and `LoadTaskRegisterMarksBusy` |
| TableInstructions.LdtrOrTrAccess | HyperPlatform/vmm.cpp:963-988 | SLDT/STR store the selector, LLDT/LTR load it; stated by `StoreSelectorEffects`, `StoreThenLoadSelector` and the LTR lemmas |
| TableInstructions.LdtrOrTrExit | HyperPlatform/vmm.cpp:892-992 | the decoded instruction applied to the decoded operand; the effect `HandleLdtrOrTrAccess` commits |
| TableInstructions.StoreThenLoadSelector | HyperPlatform/vmm.cpp:964-981 | SLDT/STR then LLDT/LTR on the same operand read back the selector's 16 bits |
| TableInstructions.LoadTaskRegisterEffects | HyperPlatform/vmm.cpp:977-986 | LTR faults exactly when the TSS descriptor is unmapped, and otherwise changes only the TR selector and the descriptor's 8 bytes |
| TableInstructions.LoadTaskRegisterMarksBusy | HyperPlatform/vmm.cpp:981-985 | the TSS descriptor LTR leaves reads back with the busy bit set and every other bit as before |
| TableInstructions.HandleLdtrOrTrAccess | HyperPlatform/vmm.cpp:892-992 | the instruction is emulated on registers, memory and selectors as `LdtrOrTrExit` decides and RIP moves past; an unmapped access is fatal and changes nothing |
| TableInstructions.ApplySelectorOutcome | HyperPlatform/vmm.cpp:964-991 | commits a decided LDTR/TR outcome, fatal with nothing changed or applied with RIP moved past |
| VmCall.HandleVmx | HyperPlatform/vmm.cpp:1374-1385 | a VMX instruction fails with VMfailInvalid, written back to the guest's RFLAGS, and RIP moves past |
| VmCall.HypercallNumber | HyperPlatform/vmm.cpp:1394-1395 | the hypercall number is a 32-bit value |
| VmCall.HypercallNumberIgnoresUpperHalf | HyperPlatform/vmm.cpp:1394-1395 | the upper half of RCX does not change the hypercall number |
| VmCall.VmCallOf | HyperPlatform/vmm.cpp:1388-1425 | the decision of `VmmpHandleVmCall`, stated by `RefusedVmCall`, `PingSucceeds`, `KnownVmCall`, `SharedDataDelivered` and `TerminationHandsOver` |
| VmCall.SharedData | HyperPlatform/vmm.cpp:1419-1423 | the shared data's address stored at RDX; stated by `SharedDataDelivered` |
| VmCall.Termination | HyperPlatform/vmm.cpp:1627-1672 | the unload path; stated by `TerminationHandsOver` |
| VmCall.ResumeRegisters | HyperPlatform/vmm.cpp:1650-1671 | the registers the unloading caller resumes with; stated by `ResumeRegistersReturn` |
| VmCall.RefusedVmCall | HyperPlatform/vmm.cpp:1398-1412 | exactly a number above the largest known one, or an unload from outside ring 0, is refused |
| VmCall.PingSucceeds | HyperPlatform/vmm.cpp:1414-1418 | a ping succeeds and changes no memory |
| VmCall.KnownVmCall | HyperPlatform/vmm.cpp:1405-1424 | an unload from ring 0 goes to the termination path, and a shared-data request to the shared-data store |
| VmCall.SharedDataDelivered | HyperPlatform/vmm.cpp:1419-1423 | the shared data's address is stored at RDX and reads back there, no other byte changes, and an unmapped pointer faults |
| VmCall.TerminationHandsOver | HyperPlatform/vmm.cpp:1627-1672 | an unload stores this processor's data at RDX, reloads GDTR and IDTR (limits cut to 16 bits), and sets the resume registers |
| VmCall.ResumeRegistersReturn | HyperPlatform/vmm.cpp:1650-1671 | the caller resumes with RCX the return address, RDX the stack pointer and RAX the RFLAGS with every status flag clear; no other register changes |
| VmCall.HandleVmCall | HyperPlatform/vmm.cpp:1388-1425 | success sets VMsucceed in RFLAGS and moves RIP past; refusal injects #UD with the VMCALL's length and leaves RIP; an unload clears `vm_continue`; a fault is fatal |
| VmCall.ApplyVmCall | HyperPlatform/vmm.cpp:1600-1672 | commits each hypercall result in those four ways |
| Vmm.BugCheckedExits | HyperPlatform/vmm.cpp:344-418 | an exit stops the system exactly when its reason is not one the dispatcher handles |
| Vmm.ExitBugCheck | HyperPlatform/vmm.cpp:422-450 | the bug check of each handler that never returns; stated by `BugCheckedExits` and `ExitBugCheckArguments` |
| Vmm.ExitBugCheckArguments | HyperPlatform/vmm.cpp:422-450 | a triple fault reports the RIP; MTF reports the RIP and 0; EPT misconfiguration reports the guest-physical address; an unknown reason reports the RIP and the qualification |
| Vmm.PassEptViolation | HyperPlatform/vmm.cpp:1448-1453 | an EPT violation is handed on with its guest-physical address, and nothing else changes |
| Vmm.HandleVmExit | HyperPlatform/vmm.cpp:321-419 | a terminal reason is fatal with its bug check and changes nothing; only an EPT violation is delegated; only MOV CR changes CR8; only VMCALL changes `vm_continue`, and only to false |
| Vmm.RunHandler | HyperPlatform/vmm.cpp:344-418 | runs the handler chosen, with the same guarantees as `HandleVmExit` stated per handler |
| Vmm.RunResumableHandler | HyperPlatform/vmm.cpp:345-414 | runs a non-terminal handler: only an EPT violation is delegated, and the frames on CR8, `vm_continue`, RFLAGS and memory hold |
| Vmm.RunContextHandler | HyperPlatform/vmm.cpp:363-408 | the MOV CR, descriptor-table, VMCALL and VMX handlers are never delegated; MOV CR and VMX leave memory alone |
| Vmm.RunGuestStateHandler | HyperPlatform/vmm.cpp:345-414 | the remaining handlers are never delegated and never change guest memory, CR8, RFLAGS or `vm_continue` |
| Vmm.RunInstructionHandler | HyperPlatform/vmm.cpp:345-414 | the exception, CPUID, INVD, INVLPG, RDTSC and RDTSCP handlers change no memory and no context field |
| Vmm.RunRegisterHandler | HyperPlatform/vmm.cpp:366-414 | the MOV DR, I/O, MSR and XSETBV handlers change no memory and no context field |
| Vmm.EpilogueFlushesOnLeave | HyperPlatform/vmm.cpp:300-315 | the epilogue ends by writing the guest's CR8, and flushes EPT and VPID translations exactly when the guest is not resumed |
| Vmm.ExitEpilogue | HyperPlatform/vmm.cpp:300-315 | the flushes before leaving VMX operation, then the CR8 write; stated by `EpilogueFlushesOnLeave` |
| Vmm.VmExitHandler | HyperPlatform/vmm.cpp:208-317 | RSP is captured into the saved registers; a terminal exit is fatal with its bug check and no resume; an EPT violation is resumed after the epilogue; a non-fatal exit other than VMCALL resumes the guest; a non-fatal VMCALL resumes exactly when `VmCallOf` of the exit state is not an unload; the operation log ends with the epilogue |
| Vmm.FinishExit | HyperPlatform/vmm.cpp:300-316 | a fatal exit performs nothing more; otherwise the guest is resumed exactly when `vm_continue` holds, after the epilogue |
| History.NextIndex | HyperPlatform/vmm.cpp:339-341 | the `++index == kVmmpNumberOfRecords` wrap; `NextIndexModulo` states it is the next slot modulo 100 |
| History.NextIndexModulo | HyperPlatform/vmm.cpp:339-341 | from a valid slot, the next write position is the next slot modulo 100 and stays in the ring |
| History.AdvanceModulo | HyperPlatform/vmm.cpp:339-341 | after k records the write position is k slots further, modulo 100 |
| History.FullLapReturns | HyperPlatform/vmm.cpp:339-341 | exactly 100 records bring the write position back to where it started, and no fewer do |
| History.ExitHistory.constructor | HyperPlatform/vmm.cpp:328-342 | a ring starts with 100 empty records and its write position at 0 |
| History.ExitHistory.Record | HyperPlatform/vmm.cpp:331-341 | recording an exit writes its slot, keeps every other slot, and advances the write position with wrap-around |

## Left out

- The EPT collaborator (`EptHandleEptViolation`, `EptGetEptPtEntry`): an EPT violation is modelled as handed on, and the page-table entry in the misconfiguration bug check is not modelled. That logic is in `ept.cpp`, which is not part of this model.
- IRQL raise and lower in `VmmVmExitHandler`: scheduling only, with no effect on guest state.
- The trap-frame patching for the debugger and `VmmpDumpGuestState`, logging and performance measurement: diagnostics only.
- The history ring is disabled in the source by a constant (`kVmmpEnableRecordVmExit` is false), so the dispatcher in the model does not call `History.ExitHistory.Record`. The ring is modelled on its own.
- The CR3 switch to the guest's kernel address space around guest-memory accesses: guest memory is one map as the monitor sees it after the switch. The VMCALL stores through RDX (shared data and unload) are made without that switch in the source and go to the same map in the model. `VmmpGetKernelCr3` is modelled for the x64 branch; the EPROCESS `DirectoryTableBase` it reads is a hardware input.
- `VmmVmxFailureHandler`: it only bug-checks after a failed VMRESUME, which happens outside the exit handler.
- The bytes the real INS/OUTS and string port operations move: the port operation is logged with its address and count, not executed on guest memory.
- Guest-memory accesses that cross the end of the 64-bit address space: the operand address is used as a number and does not wrap for the bytes after it.
- A guest-memory access that faults part-way: a fault is modelled as fatal before any byte is written, where the real monitor could have written some bytes first.
- Concurrency across processors: each exit is processor-local and modelled one at a time.
- `HyperPlatform/driver.cpp`: driver entry and unload glue with no part in exit handling.
- The 32-bit build: only the x64 branches of `IsX64()` are modelled.
- Vmm.VmExitHandler: for a MOV CR exit it states only that the epilogue ends the operation log, not which CR8 value is written; the CR8 that MOV CR leaves is stated by `ControlRegisters.HandleCrAccess`.
- LoadTableRegister: it is the reference reader of the operand size; the handler does not use it, because LGDT/LIDT as written read 10 bytes through `LoadTableRegisterAsWritten`. The 32-bit round trip through the handler is stated by `CompatReloadAsWritten`, not as a restored register.
- RefusedMsrEntry, RdmsrRegisters, InputRegister: corrected references; the handlers use the as-written `RefusedMsrEntryAsWritten`, `RdmsrRegistersAsWritten` and `InputRegisterAsWritten`.
- Vmm.HandleVmExit: it states the frames each handler keeps and the delegation and bug-check cases; the full effect of each handler is stated by that handler's own method.

## Findings

| source | as written | input that shows it | evidently intended | confidence | as-written member | corrected member |
|---|---|---|---|---|---|---|
| HyperPlatform/vmm.cpp:676-682 | a refused MSR number injects #GP(0x6A), then `VmmpAdjustGuestInstructionPointer` injects #DB over it when TF is set | RDMSR of 0x40000000 by a guest with RFLAGS.TF set | the #GP is delivered, with no #DB replacing it | not executed | Msr.RefusedMsrLosesGeneralProtection | Msr.RefusedMsrEntry |
| HyperPlatform/vmm.cpp:877-884 | LGDT/LIDT always read the 10-byte image of 64-bit code | a 32-bit guest whose 6-byte SGDT image ends at the last mapped byte, loaded back with LGDT | the load reads the 6-byte image its operand size calls for, as SGDT/SIDT store it | not executed | TableInstructions.CompatReloadAsWrittenDiffers | TableInstructions.TableRegisterRoundTrip |
| HyperPlatform/vmm.cpp:726-738 | RDMSR passes the high half through the signed `LONG` `HighPart`, so RDX gets it sign-extended | RDMSR of an MSR holding 0xFFFFF80012345678 (a kernel address in IA32_LSTAR) | RDX holds 0xFFFFF800 with its upper half zero, as the instruction leaves it | not executed | Msr.RdmsrSignExtendsHighHalf | Msr.RdmsrRegisters |
| HyperPlatform/vmm.cpp:1228 | a doubleword IN stores 4 bytes into the saved RAX and keeps bits 32-63 | IN EAX, DX with RAX = 0xFFFFFFFF00000000 | RAX is zero-extended from EAX, as a 32-bit register write does | not executed | IoPort.InputKeepsUpperHalf | IoPort.InputRegister |
