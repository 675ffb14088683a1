/**
 * The monitor's entry from a VM exit (`VmmVmExitHandler`) and its dispatch
 * of the exit to a handler (`VmmpHandleVmExit`): the guest context is
 * captured, the handler `Dispatch` names runs, and the monitor either
 * resumes the guest or, after an unload hypercall, flushes the guest's
 * translations and leaves VMX operation.
 */
module Vmm {
  import opened Wrappers
  import opened Bits
  import opened Registers
  import opened Vmcs
  import opened ExitInfo
  import opened Context
  import Cpuid
  import Instructions
  import Msr
  import TableInstructions
  import DebugRegisters
  import IoPort
  import ControlRegisters
  import VmCall
  import Exceptions

  /**
   * The bug check a handler that never returns raises for an exit at
   * guest address `ip` (`VmmpHandleTripleFault`, `VmmpHandleMonitorTrap`,
   * `VmmpHandleEptMisconfig`, `VmmpHandleUnexpectedExit`), or `None` for a
   * handler that returns.
   */
  function ExitBugCheck(h: Handler, ip: u64, exit: ExitInfo): (r: Option<BugCheck>)
  {
    if h.HandleTripleFault? then Some(TripleFaultVmExit(ip))
    else if h.HandleMonitorTrap? then Some(UnexpectedVmExit(ip, 0))
    else if h.HandleEptMisconfig? then Some(EptMisconfigVmExit(exit.guestPhysicalAddress))
    else if h.HandleUnexpectedExit? then Some(UnexpectedVmExit(ip, exit.qualification))
    else None
  }

  /** Exactly the exit reasons the monitor does not resume from raise a bug check. */
  lemma BugCheckedExits(reason: nat, ip: u64, exit: ExitInfo)
    ensures ExitBugCheck(Dispatch(reason), ip, exit).Some? <==> !Resumable(reason)
  {
    var h := Dispatch(reason);
    assert ExitBugCheck(h, ip, exit).Some? <==> h.Terminal();
    DispatchResumable(reason);
  }

  /**
   * The bug check of each exit the monitor does not resume from: a triple
   * fault and an unexpected exit report the guest's RIP, an unexpected exit
   * also its exit qualification, a monitor-trap-flag exit reports it as an
   * unexpected exit with qualification 0, and an EPT misconfiguration
   * reports the guest-physical address.
   */
  lemma ExitBugCheckArguments(reason: nat, ip: u64, exit: ExitInfo)
    ensures reason == ExitTripleFault ==> ExitBugCheck(Dispatch(reason), ip, exit) == Some(TripleFaultVmExit(ip))
    ensures reason == ExitMonitorTrapFlag ==> ExitBugCheck(Dispatch(reason), ip, exit) == Some(UnexpectedVmExit(ip, 0))
    ensures reason == ExitEptMisconfig ==>
      ExitBugCheck(Dispatch(reason), ip, exit) == Some(EptMisconfigVmExit(exit.guestPhysicalAddress))
    ensures !Resumable(reason) && reason != ExitTripleFault && reason != ExitMonitorTrapFlag
            && reason != ExitEptMisconfig ==>
      ExitBugCheck(Dispatch(reason), ip, exit) == Some(UnexpectedVmExit(ip, exit.qualification))
  {
    DispatchUnexpected(reason);
  }

  /**
   * `VmmpHandleEptViolation`: the violation is passed on to the EPT code,
   * which handles it outside this model.
   */
  method PassEptViolation(plat: Processor, exit: ExitInfo) returns (outcome: Outcome)
    modifies plat
    ensures outcome == Delegated
    ensures plat.memory == old(plat.memory)
    ensures plat.ops == old(plat.ops) + [EptViolation(exit.guestPhysicalAddress)]
  {
    plat.ops := plat.ops + [EptViolation(exit.guestPhysicalAddress)];
    outcome := Delegated;
  }

  /**
   * `VmmpHandleVmExit`: the exit goes to the handler `Dispatch` names for
   * its basic reason. A handler that never returns stops the system with
   * its bug check before anything changes; only the EPT-violation handler
   * passes the exit on; only a MOV to CR8 changes the guest's CR8, only a
   * VMCALL can end VMX operation, only a VMX instruction or a VMCALL
   * changes the guest's RFLAGS, and only the descriptor-table exits and a
   * VMCALL write guest memory.
   */
  method HandleVmExit(ctx: GuestContext, vmcs: Vmcs, plat: Processor, exit: ExitInfo, hw: Hardware)
    returns (outcome: Outcome)
    modifies ctx, ctx.stack, vmcs, plat
    ensures var h := Dispatch(BasicReason(exit));
      ExitBugCheck(h, ctx.ip, exit).Some? ==>
        && outcome == Fatal(ExitBugCheck(h, ctx.ip, exit).value)
          && unchanged(ctx, ctx.stack, vmcs, plat)
    ensures Dispatch(BasicReason(exit)).HandleEptViolation? ==>
      && outcome == Delegated
      && unchanged(ctx, ctx.stack, vmcs) && plat.memory == old(plat.memory)
      && plat.ops == old(plat.ops) + [EptViolation(exit.guestPhysicalAddress)]
    ensures var h := Dispatch(BasicReason(exit));
      && (outcome.Delegated? ==> h.HandleEptViolation?)
      && (!h.HandleCrAccess? ==> ctx.cr8 == old(ctx.cr8))
      && (ctx.vmContinue ==> old(ctx.vmContinue))
      && (!h.HandleVmCall? ==> ctx.vmContinue == old(ctx.vmContinue))
      && (!h.HandleVmx? && !h.HandleVmCall? ==> ctx.flagReg == old(ctx.flagReg))
      && (!h.HandleGdtrOrIdtrAccess? && !h.HandleLdtrOrTrAccess? && !h.HandleVmCall? ==>
            plat.memory == old(plat.memory))
    ensures Dispatch(BasicReason(exit)).HandleVmCall? ==>
      (ctx.vmContinue <==> old(ctx.vmContinue) && !VmCall.VmCallOf(old(plat.memory), old(vmcs.guest),
         old(ctx.stack.gpRegs), old(ctx.flagReg), ctx.ip, exit.instructionLength,
         ctx.stack.processorData, ctx.stack.sharedData).Terminated?)
  {
    outcome := RunHandler(Dispatch(BasicReason(exit)), ctx, vmcs, plat, exit, hw);
  }

  /** Runs the handler `h` on the exit. */
  method RunHandler(h: Handler, ctx: GuestContext, vmcs: Vmcs, plat: Processor, exit: ExitInfo, hw: Hardware)
    returns (outcome: Outcome)
    modifies ctx, ctx.stack, vmcs, plat
    ensures ExitBugCheck(h, ctx.ip, exit).Some? ==>
      && outcome == Fatal(ExitBugCheck(h, ctx.ip, exit).value)
      && unchanged(ctx, ctx.stack, vmcs, plat)
    ensures h.HandleEptViolation? ==>
      && outcome == Delegated
      && unchanged(ctx, ctx.stack, vmcs) && plat.memory == old(plat.memory)
      && plat.ops == old(plat.ops) + [EptViolation(exit.guestPhysicalAddress)]
    ensures outcome.Delegated? ==> h.HandleEptViolation?
    ensures !h.HandleCrAccess? ==> ctx.cr8 == old(ctx.cr8)
    ensures ctx.vmContinue ==> old(ctx.vmContinue)
    ensures !h.HandleVmCall? ==> ctx.vmContinue == old(ctx.vmContinue)
    ensures h.HandleVmCall? ==>
      (ctx.vmContinue <==> old(ctx.vmContinue) && !VmCall.VmCallOf(old(plat.memory), old(vmcs.guest),
         old(ctx.stack.gpRegs), old(ctx.flagReg), ctx.ip, exit.instructionLength,
         ctx.stack.processorData, ctx.stack.sharedData).Terminated?)
    ensures !h.HandleVmx? && !h.HandleVmCall? ==> ctx.flagReg == old(ctx.flagReg)
    ensures !h.HandleGdtrOrIdtrAccess? && !h.HandleLdtrOrTrAccess? && !h.HandleVmCall? ==>
      plat.memory == old(plat.memory)
  {
    if ExitBugCheck(h, ctx.ip, exit).Some? {
      assert !h.HandleVmCall?;
      outcome := Fatal(ExitBugCheck(h, ctx.ip, exit).value);
    } else {
      outcome := RunResumableHandler(h, ctx, vmcs, plat, exit, hw);
    }
  }

  /** Runs a handler that returns. */
  method RunResumableHandler(h: Handler, ctx: GuestContext, vmcs: Vmcs, plat: Processor, exit: ExitInfo, hw: Hardware)
    returns (outcome: Outcome)
    modifies ctx, ctx.stack, vmcs, plat
    ensures h.HandleEptViolation? ==>
      && outcome == Delegated
      && unchanged(ctx, ctx.stack, vmcs) && plat.memory == old(plat.memory)
      && plat.ops == old(plat.ops) + [EptViolation(exit.guestPhysicalAddress)]
    ensures outcome.Delegated? ==> h.HandleEptViolation?
    ensures !h.HandleCrAccess? ==> ctx.cr8 == old(ctx.cr8)
    ensures ctx.vmContinue ==> old(ctx.vmContinue)
    ensures !h.HandleVmCall? ==> ctx.vmContinue == old(ctx.vmContinue)
    ensures h.HandleVmCall? ==>
      (ctx.vmContinue <==> old(ctx.vmContinue) && !VmCall.VmCallOf(old(plat.memory), old(vmcs.guest),
         old(ctx.stack.gpRegs), old(ctx.flagReg), ctx.ip, exit.instructionLength,
         ctx.stack.processorData, ctx.stack.sharedData).Terminated?)
    ensures !h.HandleVmx? && !h.HandleVmCall? ==> ctx.flagReg == old(ctx.flagReg)
    ensures !h.HandleGdtrOrIdtrAccess? && !h.HandleLdtrOrTrAccess? && !h.HandleVmCall? ==>
      plat.memory == old(plat.memory)
  {
    if h.HandleEptViolation? {
      outcome := PassEptViolation(plat, exit);
    } else if h.HandleCrAccess? || h.HandleGdtrOrIdtrAccess? || h.HandleLdtrOrTrAccess? || h.HandleVmCall? || h.HandleVmx? {
      outcome := RunContextHandler(h, ctx, vmcs, plat, exit, hw);
    } else {
      outcome := RunGuestStateHandler(h, ctx, vmcs, plat, exit, hw);
    }
  }

  /**
   * The handlers that may change the guest context itself: a MOV CR, the
   * descriptor-table instructions, VMCALL and the other VMX instructions.
   * None of them passes the exit on.
   */
  method RunContextHandler(h: Handler, ctx: GuestContext, vmcs: Vmcs, plat: Processor, exit: ExitInfo, hw: Hardware)
    returns (outcome: Outcome)
    requires h.HandleCrAccess? || h.HandleGdtrOrIdtrAccess? || h.HandleLdtrOrTrAccess? || h.HandleVmCall? || h.HandleVmx?
    modifies ctx, ctx.stack, vmcs, plat
    ensures !outcome.Delegated?
    ensures !h.HandleCrAccess? ==> ctx.cr8 == old(ctx.cr8)
    ensures ctx.vmContinue ==> old(ctx.vmContinue)
    ensures !h.HandleVmCall? ==> ctx.vmContinue == old(ctx.vmContinue)
    ensures h.HandleVmCall? ==>
      (ctx.vmContinue <==> old(ctx.vmContinue) && !VmCall.VmCallOf(old(plat.memory), old(vmcs.guest),
         old(ctx.stack.gpRegs), old(ctx.flagReg), ctx.ip, exit.instructionLength,
         ctx.stack.processorData, ctx.stack.sharedData).Terminated?)
    ensures !h.HandleVmx? && !h.HandleVmCall? ==> ctx.flagReg == old(ctx.flagReg)
    ensures h.HandleCrAccess? || h.HandleVmx? ==> plat.memory == old(plat.memory)
  {
    if h.HandleCrAccess? {
      outcome := ControlRegisters.HandleCrAccess(ctx, vmcs, plat, exit, hw);
    } else if h.HandleGdtrOrIdtrAccess? {
      outcome := TableInstructions.HandleGdtrOrIdtrAccess(ctx, vmcs, plat, exit);
    } else if h.HandleLdtrOrTrAccess? {
      outcome := TableInstructions.HandleLdtrOrTrAccess(ctx, vmcs, plat, exit);
    } else if h.HandleVmCall? {
      outcome := VmCall.HandleVmCall(ctx, vmcs, plat, exit);
    } else {
      VmCall.HandleVmx(ctx, vmcs, exit);
      outcome := Handled;
    }
  }

  /**
   * The handlers for exceptions, CPUID, INVD, INVLPG, RDTSC, RDTSCP, MOV DR,
   * I/O instructions, RDMSR, WRMSR and XSETBV: they change only the saved
   * registers, the VMCS and the processor, neither pass the exit on nor
   * touch guest memory.
   */
  method RunGuestStateHandler(h: Handler, ctx: GuestContext, vmcs: Vmcs, plat: Processor, exit: ExitInfo, hw: Hardware)
    returns (outcome: Outcome)
    modifies ctx.stack, vmcs, plat
    ensures !outcome.Delegated?
    ensures plat.memory == old(plat.memory)
  {
    if h.HandleException? || h.HandleCpuid? || h.HandleInvalidateInternalCaches? || h.HandleInvalidateTlbEntry?
       || h.HandleRdtsc? || h.HandleRdtscp? {
      outcome := RunInstructionHandler(h, ctx, vmcs, plat, exit, hw);
    } else {
      outcome := RunRegisterHandler(h, ctx, vmcs, plat, exit, hw);
    }
  }

  /**
   * The handlers for exceptions and for CPUID, INVD, INVLPG, RDTSC and
   * RDTSCP: they neither pass the exit on nor touch guest memory.
   */
  method RunInstructionHandler(h: Handler, ctx: GuestContext, vmcs: Vmcs, plat: Processor, exit: ExitInfo, hw: Hardware)
    returns (outcome: Outcome)
    requires h.HandleException? || h.HandleCpuid? || h.HandleInvalidateInternalCaches? || h.HandleInvalidateTlbEntry?
             || h.HandleRdtsc? || h.HandleRdtscp?
    modifies ctx.stack, vmcs, plat
    ensures !outcome.Delegated?
    ensures plat.memory == old(plat.memory)
  {
    if h.HandleException? {
      outcome := Exceptions.HandleException(vmcs, plat, exit);
    } else if h.HandleCpuid? {
      Cpuid.HandleCpuid(ctx, vmcs, exit, hw);
      outcome := Handled;
    } else if h.HandleInvalidateInternalCaches? {
      Instructions.HandleInvalidateInternalCaches(ctx, vmcs, plat, exit);
      outcome := Handled;
    } else if h.HandleInvalidateTlbEntry? {
      Instructions.HandleInvalidateTlbEntry(ctx, vmcs, plat, exit, hw);
      outcome := Handled;
    } else if h.HandleRdtsc? {
      Instructions.HandleRdtsc(ctx, vmcs, exit, hw);
      outcome := Handled;
    } else {
      Instructions.HandleRdtscp(ctx, vmcs, exit, hw);
      outcome := Handled;
    }
  }

  /**
   * The handlers for MOV DR, I/O instructions, RDMSR, WRMSR and XSETBV:
   * they neither pass the exit on nor touch guest memory.
   */
  method RunRegisterHandler(h: Handler, ctx: GuestContext, vmcs: Vmcs, plat: Processor, exit: ExitInfo, hw: Hardware)
    returns (outcome: Outcome)
    modifies ctx.stack, vmcs, plat
    ensures !outcome.Delegated?
    ensures plat.memory == old(plat.memory)
  {
    if h.HandleDrAccess? {
      DebugRegisters.HandleDrAccess(ctx, vmcs, plat, exit, hw);
      outcome := Handled;
    } else if h.HandleIoPort? {
      outcome := IoPort.HandleIoPort(ctx, vmcs, plat, exit, hw);
    } else if h.HandleMsrReadAccess? {
      Msr.HandleMsrAccess(ctx, vmcs, plat, exit, hw, true);
      outcome := Handled;
    } else if h.HandleMsrWriteAccess? {
      Msr.HandleMsrAccess(ctx, vmcs, plat, exit, hw, false);
      outcome := Handled;
    } else {
      Instructions.HandleXsetbv(ctx, vmcs, plat, exit);
      outcome := Handled;
    }
  }

  /**
   * The privileged operations the monitor performs after a handler has
   * returned: INVEPT and INVVPID of every context when it leaves VMX
   * operation, then loading the guest's CR8 back into the processor.
   */
  function ExitEpilogue(resume: bool, cr8: u64): (ops: seq<HardwareOp>)
  {
    (if resume then [] else [InveptGlobal, InvvpidAllContext]) + [WriteCr8(cr8)]
  }

  /**
   * The epilogue ends with the guest's CR8 being loaded, and flushes
   * every guest translation exactly when the monitor does not resume the
   * guest.
   */
  lemma EpilogueFlushesOnLeave(resume: bool, cr8: u64)
    ensures var ops := ExitEpilogue(resume, cr8);
      && |ops| > 0 && ops[|ops| - 1] == WriteCr8(cr8)
      && (InveptGlobal in ops <==> !resume) && (InvvpidAllContext in ops <==> !resume)
  {
    var ops := ExitEpilogue(resume, cr8);
    if resume {
      assert ops == [WriteCr8(cr8)];
    } else {
      assert ops[0] == InveptGlobal && ops[1] == InvvpidAllContext;
    }
  }

  /**
   * `VmmVmExitHandler`: captures the guest's RFLAGS, RIP and CR8, stores
   * the guest's RSP in the saved registers, dispatches the exit, and, if
   * the handler returned, performs `ExitEpilogue`. It answers whether the
   * guest is resumed; it is not after a bug check, and otherwise only an
   * unload hypercall stops it. Unless the exit was a MOV to CR8 the CR8
   * loaded at the end is the one captured at the start.
   */
  method VmExitHandler(stack: InitialStack, vmcs: Vmcs, plat: Processor, exit: ExitInfo, hw: Hardware)
    returns (resume: bool, outcome: Outcome)
    modifies stack, vmcs, plat
    ensures var h := Dispatch(BasicReason(exit));
      && (ExitBugCheck(h, old(vmcs.guest.rip), exit).Some? ==>
            && outcome == Fatal(ExitBugCheck(h, old(vmcs.guest.rip), exit).value) && !resume
            && stack.gpRegs == Set(old(stack.gpRegs), Sp, old(vmcs.guest.rsp))
            && vmcs.guest == old(vmcs.guest) && vmcs.entry == old(vmcs.entry)
            && plat.memory == old(plat.memory) && plat.ops == old(plat.ops))
      && (h.HandleEptViolation? ==>
            && outcome == Delegated && resume
            && plat.ops == old(plat.ops) + [EptViolation(exit.guestPhysicalAddress)] + ExitEpilogue(true, hw.cr8))
      && (outcome.Fatal? ==> !resume)
      && (!outcome.Fatal? && !h.HandleVmCall? ==> resume)
      && (!outcome.Fatal? && h.HandleVmCall? ==>
            (resume <==> !VmCall.VmCallOf(old(plat.memory), old(vmcs.guest), Set(old(stack.gpRegs), Sp, old(vmcs.guest.rsp)),
               old(vmcs.guest.rflags), old(vmcs.guest.rip), exit.instructionLength,
               stack.processorData, stack.sharedData).Terminated?))
      && (!outcome.Fatal? && !h.HandleCrAccess? ==>
            var tail := ExitEpilogue(resume, hw.cr8);
            |plat.ops| >= |tail| && plat.ops[|plat.ops| - |tail|..] == tail)
  {
    stack.gpRegs := Set(stack.gpRegs, Sp, vmcs.guest.rsp);
    var ctx := new GuestContext(stack, vmcs.guest.rflags, vmcs.guest.rip, hw.cr8);
    outcome := HandleVmExit(ctx, vmcs, plat, exit, hw);
    resume := FinishExit(ctx, plat, outcome);
  }

  /**
   * The end of `VmmVmExitHandler` once the handler has returned: the
   * epilogue, and the answer whether the guest is resumed. A bug check
   * never returns, so nothing follows it.
   */
  method FinishExit(ctx: GuestContext, plat: Processor, outcome: Outcome) returns (resume: bool)
    modifies plat
    ensures plat.memory == old(plat.memory)
    ensures outcome.Fatal? ==> !resume && plat.ops == old(plat.ops)
    ensures !outcome.Fatal? ==> resume == ctx.vmContinue && plat.ops == old(plat.ops) + ExitEpilogue(resume, ctx.cr8)
  {
    if outcome.Fatal? {
      return false;
    }
    resume := ctx.vmContinue;
    plat.ops := plat.ops + ExitEpilogue(resume, ctx.cr8);
  }
}
