/**
 * The per-processor ring of recent VM exits that the dispatcher can keep
 * for post-mortem debugging: each exit overwrites the oldest record, and
 * the write position wraps after the last slot.
 */
module History {
  import opened Bits
  import opened Registers

  /** `kVmmpNumberOfRecords`: the slots in one processor's ring. */
  const NumberOfRecords: nat := 100

  /** `VmExitHistory`: what one exit leaves behind. */
  datatype ExitRecord = ExitRecord(
    gpRegs: GpRegisters, ip: u64, exitReason: u64, qualification: u64, instructionInfo: u64)

  const EmptyRecord: ExitRecord :=
    ExitRecord([0, 0, 0, 0, 0, 0, 0, 0, 0, 0, 0, 0, 0, 0, 0, 0], 0, 0, 0, 0)

  /** The write position after one record: one further, back to 0 past the last slot. */
  function NextIndex(index: nat): nat
  {
    if index + 1 == NumberOfRecords then 0 else index + 1
  }

  /** The write position after `count` records starting at `index`. */
  function Advance(index: nat, count: nat): nat
  {
    if count == 0 then index else NextIndex(Advance(index, count - 1))
  }

  /** From a valid position, one step is the next slot modulo the ring size. */
  lemma NextIndexModulo(index: nat)
    requires index < NumberOfRecords
    ensures NextIndex(index) == (index + 1) % NumberOfRecords
    ensures NextIndex(index) < NumberOfRecords
  {
  }

  /**
   * After `count` records the write position is `count` slots further,
   * modulo the ring size, so it never leaves the ring and the ring is
   * overwritten in order.
   */
  lemma {:induction false} AdvanceModulo(index: nat, count: nat)
    requires index < NumberOfRecords
    ensures Advance(index, count) == (index + count) % NumberOfRecords
  {
    if count > 0 {
      AdvanceModulo(index, count - 1);
      NextIndexModulo(Advance(index, count - 1));
      ModuloStep(index + count - 1);
    }
  }

  /** Taking the successor commutes with reduction modulo the ring size. */
  lemma ModuloStep(n: nat)
    ensures ((n % NumberOfRecords) + 1) % NumberOfRecords == (n + 1) % NumberOfRecords
  {
  }

  /** A full lap of records brings the write position back to where it started. */
  lemma FullLapReturns(index: nat)
    requires index < NumberOfRecords
    ensures Advance(index, NumberOfRecords) == index
    ensures forall k :: 0 < k < NumberOfRecords ==> Advance(index, k) != index
  {
    AdvanceModulo(index, NumberOfRecords);
    forall k | 0 < k < NumberOfRecords
      ensures Advance(index, k) != index
    {
      AdvanceModulo(index, k);
    }
  }

  /** One processor's slots of `g_vmmp_vm_exit_history` and its `g_vmmp_next_history_index`. */
  class ExitHistory {
    const records: array<ExitRecord>
    var index: nat

    ghost predicate Valid()
      reads this
    {
      records.Length == NumberOfRecords && index < NumberOfRecords
    }

    constructor ()
      ensures Valid() && fresh(records)
      ensures index == 0
      ensures forall i :: 0 <= i < records.Length ==> records[i] == EmptyRecord
    {
      records := new ExitRecord[NumberOfRecords](_ => EmptyRecord);
      index := 0;
    }

    /**
     * Records one exit: the slot at the write position receives it, every
     * other slot is kept, and the position moves on, wrapping at the end.
     */
    method Record(rec: ExitRecord)
      requires Valid()
      modifies this, records
      ensures Valid()
      ensures records[..] == old(records[..])[old(index) := rec]
      ensures index == NextIndex(old(index))
    {
      records[index] := rec;
      index := index + 1;
      if index == NumberOfRecords {
        index := 0;
      }
    }
  }
}
