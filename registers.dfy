/**
 * The guest's general-purpose registers as the exit trampoline saves them,
 * the register numbering VMX uses in exit qualifications and instruction
 * information, and the RFLAGS bits the handlers look at.
 */
module Registers {
  import opened Wrappers
  import opened Bits

  /** The sixteen general-purpose registers of x64. */
  datatype Reg = Ax | Cx | Dx | Bx | Sp | Bp | Si | Di
               | R8 | R9 | R10 | R11 | R12 | R13 | R14 | R15

  /**
   * The order in which the trampoline saves the registers (the layout of
   * `GpRegisters` in the x64 build), which is also the order VMX numbers
   * them in exit qualifications and instruction information.
   */
  const SaveOrder: seq<Reg> :=
    [Ax, Cx, Dx, Bx, Sp, Bp, Si, Di, R8, R9, R10, R11, R12, R13, R14, R15]

  /** The slot of register `r` in the saved register file. */
  function RegIndex(r: Reg): (i: nat)
    ensures i < 16
  {
    match r
    case Ax => 0   case Cx => 1   case Dx => 2   case Bx => 3
    case Sp => 4   case Bp => 5   case Si => 6   case Di => 7
    case R8 => 8   case R9 => 9   case R10 => 10 case R11 => 11
    case R12 => 12 case R13 => 13 case R14 => 14 case R15 => 15
  }

  /** The saved register file: one 64-bit value per register, in `SaveOrder`. */
  type GpRegisters = s: seq<u64> | |s| == 16
    witness [0, 0, 0, 0, 0, 0, 0, 0, 0, 0, 0, 0, 0, 0, 0, 0]

  /** The value of register `r`. */
  function Get(regs: GpRegisters, r: Reg): u64
  {
    regs[RegIndex(r)]
  }

  /** The register file with `r` replaced by `v` and every other register kept. */
  function Set(regs: GpRegisters, r: Reg, v: u64): (out: GpRegisters)
    ensures Get(out, r) == v
    ensures forall o: Reg | o != r :: Get(out, o) == Get(regs, o)
  {
    regs[RegIndex(r) := v]
  }

  /**
   * The register a VMX register index names (`VmmpSelectRegister`): index
   * `i` below 16 names the `i`-th register of `SaveOrder`, and no other
   * index names any.
   */
  function SelectRegister(index: u64): (r: Option<Reg>)
    ensures r.Some? <==> index < 16
    ensures r.Some? ==> RegIndex(r.value) == index as int
  {
    if index < 16 then SaveOrderIndex(index as int); Some(SaveOrder[index as int]) else None
  }

  /** `SaveOrder` and `RegIndex` agree: the register saved in slot `i` has index `i`. */
  lemma SaveOrderIndex(i: int)
    requires 0 <= i < 16
    ensures RegIndex(SaveOrder[i]) == i
  {
  }

  /** Every register is saved in the slot its index names. */
  lemma RegIndexOrder(r: Reg)
    ensures SaveOrder[RegIndex(r)] == r
  {
  }

  // RFLAGS bits.
  const CarryFlag: u64 := 1 << 0
  const ParityFlag: u64 := 1 << 2
  const AuxiliaryCarryFlag: u64 := 1 << 4
  const ZeroFlag: u64 := 1 << 6
  const SignFlag: u64 := 1 << 7
  const TrapFlag: u64 := 1 << 8
  const DirectionFlag: u64 := 1 << 10
  const OverflowFlag: u64 := 1 << 11

  /** The six arithmetic status flags VMX instructions report through. */
  const StatusFlags: u64 :=
    CarryFlag | ParityFlag | AuxiliaryCarryFlag | ZeroFlag | SignFlag | OverflowFlag

  /**
   * RFLAGS after a VMX instruction succeeded ("VMsucceed"): all six status
   * flags clear, every other flag as before.
   */
  function VmSucceed(flags: u64): (r: u64)
    ensures r & StatusFlags == 0
    ensures r & !StatusFlags == flags & !StatusFlags
  {
    ClearBits(flags, StatusFlags)
  }

  /**
   * RFLAGS after a VMX instruction failed without a current VMCS
   * ("VMfailInvalid"): CF set, the other five status flags clear, every
   * other flag as before.
   */
  function VmFailInvalid(flags: u64): (r: u64)
    ensures r & StatusFlags == CarryFlag
    ensures r & !StatusFlags == flags & !StatusFlags
  {
    SetBits(ClearBits(flags, StatusFlags), CarryFlag)
  }
}
