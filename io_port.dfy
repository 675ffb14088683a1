/**
 * Emulation of IN, INS, OUT and OUTS (`VmmpHandleIoPort` and
 * `VmmpIoWrapper`): the port access is performed on the real processor and
 * the guest's registers are brought to the state the instruction leaves.
 */
module IoPort {
  import opened Wrappers
  import opened Bits
  import opened Registers
  import opened Vmcs
  import opened ExitInfo
  import opened Context

  /**
   * The number of bytes an access-size code stands for: 0 is a byte, 1 a
   * word and 3 a doubleword; no other code names a size.
   */
  function AccessSize(code: u64): (size: Option<u64>)
    ensures size.Some? <==> code == 0 || code == 1 || code == 3
    ensures size.Some? ==> size.value == 1 || size.value == 2 || size.value == 4
    ensures size == Some(1) <==> code == 0
    ensures size == Some(2) <==> code == 1
    ensures size == Some(4) <==> code == 3
  {
    if code == 0 then Some(1) else if code == 1 then Some(2) else if code == 3 then Some(4) else None
  }

  /** The bits an access of `size` bytes covers. */
  function SizeMask(size: u64): (mask: u64)
    requires size == 1 || size == 2 || size == 4
    ensures mask >> 32 == 0
  {
    if size == 1 then 0xFF else if size == 2 then 0xFFFF else 0xFFFF_FFFF
  }

  /**
   * RAX after an IN of `size` bytes as the code writes it: the low `size`
   * bytes of the register receive the input, every other byte is kept,
   * including the upper half after a doubleword IN.
   */
  function InputRegisterAsWritten(ax: u64, input: u64, size: u64): (r: u64)
    requires size == 1 || size == 2 || size == 4
    ensures r & SizeMask(size) == input & SizeMask(size)
    ensures r & !SizeMask(size) == ax & !SizeMask(size)
  {
    (ax & !SizeMask(size)) | (input & SizeMask(size))
  }

  /**
   * RAX after an IN of `size` bytes as the processor leaves it: the low
   * `size` bytes receive the input; a byte or word IN keeps the other
   * bytes, and a doubleword IN clears the upper half, as every 32-bit
   * result does in 64-bit mode.
   */
  function InputRegister(ax: u64, input: u64, size: u64): (r: u64)
    requires size == 1 || size == 2 || size == 4
    ensures r & SizeMask(size) == input & SizeMask(size)
    ensures size != 4 ==> r & !SizeMask(size) == ax & !SizeMask(size)
    ensures size == 4 ==> r >> 32 == 0
  {
    if size == 4 then input & SizeMask(size) else InputRegisterAsWritten(ax, input, size)
  }

  /** A doubleword IN as written leaves stale upper bits in RAX. */
  lemma InputKeepsUpperHalf()
    ensures InputRegisterAsWritten(0xFFFF_FFFF_0000_0000, 0x1234_5678, 4) == 0xFFFF_FFFF_1234_5678
    ensures InputRegister(0xFFFF_FFFF_0000_0000, 0x1234_5678, 4) == 0x1234_5678
  {
  }

  /** The two agree on byte and word input. */
  lemma InputRegisterNarrow(ax: u64, input: u64, size: u64)
    requires size == 1 || size == 2
    ensures InputRegister(ax, input, size) == InputRegisterAsWritten(ax, input, size)
  {
  }

  /** The register a string instruction walks through memory: RDI for INS, RSI for OUTS. */
  function StringPointer(inAccess: bool): Reg
  {
    if inAccess then Di else Si
  }

  /** How many elements a string instruction moves: RCX under REP, otherwise one. */
  function ElementCount(regs: GpRegisters, repPrefixed: bool): u64
  {
    if repPrefixed then Get(regs, Cx) else 1
  }

  /**
   * `count * size` for an access size, wrapping at 2^64 like the 64-bit
   * product the code computes: a doubling per factor of two.
   */
  function Scaled(count: u64, size: u64): (r: u64)
    requires size == 1 || size == 2 || size == 4
    ensures size == 1 ==> r == count
    ensures size == 2 ==> r == count + count
    ensures size == 4 ==> r == (count + count) + (count + count)
  {
    if size == 1 then count else if size == 2 then count << 1 else count << 2
  }

  /**
   * The registers after a string instruction whose elements span `delta`
   * bytes: the pointer register moves down by `delta` when RFLAGS.DF is
   * set and up when it is clear, and REP leaves RCX zero.
   */
  function StringRegisters(regs: GpRegisters, flags: u64, inAccess: bool, repPrefixed: bool, delta: u64): GpRegisters
  {
    var pointer := StringPointer(inAccess);
    var moved := if flags & DirectionFlag != 0 then Get(regs, pointer) - delta else Get(regs, pointer) + delta;
    var regs' := Set(regs, pointer, moved);
    if repPrefixed then Set(regs', Cx, 0) else regs'
  }

  /**
   * What an I/O exit comes to: the port operation performed and the
   * registers it leaves, or no access at all when the size code names no
   * size (the monitor stops the system).
   */
  datatype IoAccess = IoDone(regs: GpRegisters, op: HardwareOp) | IoUnsupportedSize

  /**
   * The decision of `VmmpHandleIoPort` for the guest's registers, its
   * RFLAGS, the value the port returns to an IN and the decoded exit
   * qualification `q`. An IN writes RAX as the code does
   * (`InputRegisterAsWritten`), keeping the bytes above the input.
   */
  function PortAccess(regs: GpRegisters, flags: u64, input: u64, q: IoQualification): IoAccess
  {
    match AccessSize(q.sizeOfAccess)
    case None => IoUnsupportedSize
    case Some(size) =>
      if q.stringInstruction then
        var address := Get(regs, StringPointer(q.inAccess));
        var count := LowPart(ElementCount(regs, q.repPrefixed));
        var op := if q.inAccess then PortInString(q.port, size, address, count)
                  else PortOutString(q.port, size, address, count);
        var delta := Scaled(ElementCount(regs, q.repPrefixed), size);
        IoDone(StringRegisters(regs, flags, q.inAccess, q.repPrefixed, delta), op)
      else if q.inAccess then
        IoDone(Set(regs, Ax, InputRegisterAsWritten(Get(regs, Ax), input, size)), PortIn(q.port, size))
      else
        IoDone(regs, PortOut(q.port, size, Get(regs, Ax) & SizeMask(size)))
  }

  /** An exit is refused exactly when its size code names no size. */
  lemma PortAccessSize(regs: GpRegisters, flags: u64, input: u64, q: IoQualification)
    ensures PortAccess(regs, flags, input, q) == IoUnsupportedSize <==> AccessSize(q.sizeOfAccess).None?
  {
  }

  /**
   * A string instruction moves its pointer register by `delta`: down when
   * DF is set, up when it is clear.
   */
  lemma StringPointerMoves(regs: GpRegisters, flags: u64, inAccess: bool, repPrefixed: bool, delta: u64)
    ensures var p := StringPointer(inAccess);
      Get(StringRegisters(regs, flags, inAccess, repPrefixed, delta), p) ==
        if flags & DirectionFlag != 0 then Get(regs, p) - delta else Get(regs, p) + delta
  {
  }

  /**
   * REP leaves RCX zero, and without REP RCX is kept; no register other
   * than RCX and the pointer changes.
   */
  lemma StringCountCleared(regs: GpRegisters, flags: u64, inAccess: bool, repPrefixed: bool, delta: u64)
    ensures var r := StringRegisters(regs, flags, inAccess, repPrefixed, delta);
      && Get(r, Cx) == (if repPrefixed then 0 else Get(regs, Cx))
      && (forall o: Reg | o != StringPointer(inAccess) && o != Cx :: Get(r, o) == Get(regs, o))
  {
  }

  /**
   * A string instruction transfers, from or to the address in RDI (INS)
   * or RSI (OUTS), as many elements as the low 32 bits of the count (RCX
   * under REP, otherwise one), and leaves the registers of
   * `StringRegisters` for the whole count times the access size: by
   * `StringPointerMoves` and `StringCountCleared`, the pointer moves by
   * that many bytes against DF, REP leaves RCX zero, and nothing else
   * changes.
   */
  lemma StringAccess(regs: GpRegisters, flags: u64, input: u64, q: IoQualification)
    requires q.stringInstruction && AccessSize(q.sizeOfAccess).Some?
    ensures var size := AccessSize(q.sizeOfAccess).value;
      var count := if q.repPrefixed then Get(regs, Cx) else 1;
      PortAccess(regs, flags, input, q) ==
        IoDone(StringRegisters(regs, flags, q.inAccess, q.repPrefixed, Scaled(count, size)),
        if q.inAccess then PortInString(q.port, size, Get(regs, Di), LowPart(count))
        else PortOutString(q.port, size, Get(regs, Si), LowPart(count)))
  {
  }

  /**
   * An OUT sends the low `size` bytes of RAX to the port and changes no
   * register.
   */
  lemma OutAccess(regs: GpRegisters, flags: u64, input: u64, q: IoQualification)
    requires !q.stringInstruction && !q.inAccess && AccessSize(q.sizeOfAccess).Some?
    ensures var size := AccessSize(q.sizeOfAccess).value;
      var r := PortAccess(regs, flags, input, q);
      && r.IoDone? && r.regs == regs
      && r.op == PortOut(q.port, size, Get(regs, Ax) & SizeMask(size))
  {
    OutAccessResult(regs, flags, input, q);
  }

  /** The outcome of an OUT, as `PortAccess` builds it. */
  lemma OutAccessResult(regs: GpRegisters, flags: u64, input: u64, q: IoQualification)
    requires !q.stringInstruction && !q.inAccess && AccessSize(q.sizeOfAccess).Some?
    ensures var size := AccessSize(q.sizeOfAccess).value;
      PortAccess(regs, flags, input, q) == IoDone(regs, PortOut(q.port, size, Get(regs, Ax) & SizeMask(size)))
  {
  }

  /**
   * An IN reads `size` bytes from the port into the low `size` bytes of
   * RAX. As the code writes it, every other byte of RAX is kept, even the
   * upper half after a doubleword IN, and no other register changes.
   */
  lemma InAccess(regs: GpRegisters, flags: u64, input: u64, q: IoQualification)
    requires !q.stringInstruction && q.inAccess && AccessSize(q.sizeOfAccess).Some?
    ensures var size := AccessSize(q.sizeOfAccess).value;
      var r := PortAccess(regs, flags, input, q);
      && r.IoDone? && r.op == PortIn(q.port, size)
      && Get(r.regs, Ax) & SizeMask(size) == input & SizeMask(size)
      && Get(r.regs, Ax) & !SizeMask(size) == Get(regs, Ax) & !SizeMask(size)
      && forall o: Reg | o != Ax :: Get(r.regs, o) == Get(regs, o)
  {
    var size := AccessSize(q.sizeOfAccess).value;
    InAccessResult(regs, flags, input, q);
    InputLowBytes(Get(regs, Ax), input, size);
    InputHighBytes(Get(regs, Ax), input, size);
  }

  /** The low `size` bytes of RAX after an IN are the input's. */
  lemma InputLowBytes(ax: u64, input: u64, size: u64)
    requires size == 1 || size == 2 || size == 4
    ensures InputRegisterAsWritten(ax, input, size) & SizeMask(size) == input & SizeMask(size)
  {
  }

  /** The bytes of RAX above the input's `size` are kept by the IN as written. */
  lemma InputHighBytes(ax: u64, input: u64, size: u64)
    requires size == 1 || size == 2 || size == 4
    ensures InputRegisterAsWritten(ax, input, size) & !SizeMask(size) == ax & !SizeMask(size)
  {
  }

  /** The outcome of an IN, as `PortAccess` builds it. */
  lemma InAccessResult(regs: GpRegisters, flags: u64, input: u64, q: IoQualification)
    requires !q.stringInstruction && q.inAccess && AccessSize(q.sizeOfAccess).Some?
    ensures var size := AccessSize(q.sizeOfAccess).value;
      PortAccess(regs, flags, input, q) ==
        IoDone(Set(regs, Ax, InputRegisterAsWritten(Get(regs, Ax), input, size)), PortIn(q.port, size))
  {
  }

  /**
   * `VmmpHandleIoPort`: the access is decided by `PortAccess`; a size
   * code that names no size stops the system before anything changes,
   * otherwise the port operation is performed, the registers updated and
   * the guest moved past the instruction.
   */
  method HandleIoPort(ctx: GuestContext, vmcs: Vmcs, plat: Processor, exit: ExitInfo, hw: Hardware)
    returns (outcome: Outcome)
    modifies ctx.stack, vmcs, plat
    ensures plat.memory == old(plat.memory)
    ensures var r := PortAccess(old(ctx.stack.gpRegs), ctx.flagReg, hw.portInValue, DecodeIo(exit.qualification));
      && (r.IoUnsupportedSize? ==>
            && outcome == Fatal(Unspecified)
            && ctx.stack.gpRegs == old(ctx.stack.gpRegs) && plat.ops == old(plat.ops)
            && vmcs.guest == old(vmcs.guest) && vmcs.entry == old(vmcs.entry))
      && (r.IoDone? ==>
            && outcome == Handled
            && ctx.stack.gpRegs == r.regs && plat.ops == old(plat.ops) + [r.op]
            && vmcs.guest == old(vmcs.guest).(rip := ctx.ip + exit.instructionLength)
            && vmcs.entry == SteppedEntry(old(vmcs.entry), ctx.flagReg, exit.instructionLength))
  {
    var r := PortAccess(ctx.stack.gpRegs, ctx.flagReg, hw.portInValue, DecodeIo(exit.qualification));
    outcome := ApplyIoAccess(ctx, vmcs, plat, exit, r);
  }

  /** Commits the outcome of an I/O instruction to the guest and the processor. */
  method ApplyIoAccess(ctx: GuestContext, vmcs: Vmcs, plat: Processor, exit: ExitInfo, r: IoAccess)
    returns (outcome: Outcome)
    modifies ctx.stack, vmcs, plat
    ensures plat.memory == old(plat.memory)
    ensures r.IoUnsupportedSize? ==>
      && outcome == Fatal(Unspecified)
      && ctx.stack.gpRegs == old(ctx.stack.gpRegs) && plat.ops == old(plat.ops)
      && vmcs.guest == old(vmcs.guest) && vmcs.entry == old(vmcs.entry)
    ensures r.IoDone? ==>
      && outcome == Handled
      && ctx.stack.gpRegs == r.regs && plat.ops == old(plat.ops) + [r.op]
      && vmcs.guest == old(vmcs.guest).(rip := ctx.ip + exit.instructionLength)
      && vmcs.entry == SteppedEntry(old(vmcs.entry), ctx.flagReg, exit.instructionLength)
  {
    match r
    case IoUnsupportedSize =>
      outcome := Fatal(Unspecified);
    case IoDone(regs, op) =>
      plat.ops := plat.ops + [op];
      ctx.stack.gpRegs := regs;
      AdjustGuestInstructionPointer(ctx, vmcs, exit);
      outcome := Handled;
  }
}
