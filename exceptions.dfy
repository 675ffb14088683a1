/**
 * Exceptions the guest raised that the monitor intercepts
 * (`VmmpHandleException`): a page fault, a general-protection fault or a
 * breakpoint is given back to the guest as it happened, and any other
 * intercepted event stops the system.
 */
module Exceptions {
  import opened Wrappers
  import opened Bits
  import opened Vmcs
  import opened ExitInfo
  import opened Context

  /**
   * The event the monitor injects back for the exit interruption
   * information `info`, or `None` when it does not handle the event: a
   * hardware #PF or #GP goes back with its error code, a software #BP
   * (INT3) without one.
   */
  function ReflectedEvent(info: u64): (r: Option<Interruption>)
    ensures r.Some? ==> WellFormed(r.value)
  {
    var e := DecodeInterruption(info);
    if e.kind == HardwareException && (e.vector == PageFaultException || e.vector == GeneralProtectionException) then
      Some(Interruption(e.vector, e.kind, true, true))
    else if e.kind == SoftwareException && e.vector == BreakpointException then
      Some(Interruption(e.vector, e.kind, false, true))
    else
      None
  }

  /**
   * Exactly a hardware #PF or #GP, or a software #BP, is handled; the
   * event injected is the one that caused the exit, valid, delivering an
   * error code exactly when it is a hardware exception.
   */
  lemma ReflectedUnchanged(info: u64)
    ensures var e := DecodeInterruption(info);
      && (ReflectedEvent(info).Some? <==>
            || (e.kind == HardwareException && (e.vector == PageFaultException || e.vector == GeneralProtectionException))
            || (e.kind == SoftwareException && e.vector == BreakpointException))
      && (ReflectedEvent(info).Some? ==>
            var i := ReflectedEvent(info).value;
            && i.vector == e.vector && i.kind == e.kind && i.valid
            && (i.deliverErrorCode <==> i.kind == HardwareException))
  {
  }

  /**
   * `VmmpHandleException`: the event is injected back with the exit's
   * error code (cut to 32 bits); a page fault also loads CR2 with the
   * faulting address from the exit qualification, and a breakpoint sets
   * the entry instruction length to that of the INT3. The guest's RIP is
   * not moved: delivering the event does that. An event not handled stops
   * the system before anything changes.
   */
  method HandleException(vmcs: Vmcs, plat: Processor, exit: ExitInfo) returns (outcome: Outcome)
    modifies vmcs, plat
    ensures plat.memory == old(plat.memory) && vmcs.guest == old(vmcs.guest)
    ensures var ev := ReflectedEvent(exit.interruptionInfo);
      && (ev.None? ==>
            outcome == Fatal(Unspecified) && plat.ops == old(plat.ops) && vmcs.entry == old(vmcs.entry))
      && (ev.Some? ==>
            && outcome == Handled
            && plat.ops == old(plat.ops) +
                 (if ev.value.vector == PageFaultException then [WriteCr2(exit.qualification)] else [])
            && vmcs.entry ==
                 Injected(old(vmcs.entry), ev.value.kind, ev.value.vector, ev.value.deliverErrorCode,
                          LowPart(exit.interruptionErrorCode))
                   .(instructionLength :=
                       if ev.value.kind == SoftwareException then exit.instructionLength
                       else old(vmcs.entry).instructionLength))
  {
    var ev := ReflectedEvent(exit.interruptionInfo);
    match ev
    case None =>
      outcome := Fatal(Unspecified);
    case Some(e) =>
      InjectInterruption(vmcs, e.kind, e.vector, e.deliverErrorCode, LowPart(exit.interruptionErrorCode));
      if e.vector == PageFaultException {
        plat.ops := plat.ops + [WriteCr2(exit.qualification)];
      }
      if e.kind == SoftwareException {
        vmcs.entry := vmcs.entry.(instructionLength := exit.instructionLength);
      }
      outcome := Handled;
  }
}
