/** Hypercall dispatch (hypervisor/src/hypercall/mod.rs). The handlers of the
    guest file-system services are parameters. Interrupts are enabled while a
    hypercall is served and disabled again before it returns. */
module Hypercall {
  import opened Common
  import opened Registers
  import opened Cpu

  const HYPERCALL_READ: uint64 := 0
  const HYPERCALL_WRITE: uint64 := 1

  datatype HypercallOutcome =
    | Served(ret: int64)
    /** the current task was ended; `hypercall` does not return */
    | ExitedCurrent(code: int32)

  /** `hypercall`. The frame is passed through untouched. An unknown id ends
      the current task with -1 before interrupts are disabled again. */
  method Hypercall(hart: Hart, tf: TrapFrameRef, hypercallId: uint64,
                   arg0: uint64, arg1: uint64, arg2: uint64,
                   hyperRead: (uint64, uint64, uint64) -> int64,
                   hyperWrite: (uint64, uint64, uint64) -> int64)
    returns (o: HypercallOutcome)
    modifies hart`irqEnabled
    ensures hypercallId == HYPERCALL_READ ==> o == Served(hyperRead(arg0, arg1, arg2))
    ensures hypercallId == HYPERCALL_WRITE ==> o == Served(hyperWrite(arg0, arg1, arg2))
    ensures hypercallId > HYPERCALL_WRITE ==> o == ExitedCurrent(-1)
    ensures o.Served? ==> !hart.irqEnabled
    ensures o.ExitedCurrent? ==> hart.irqEnabled
    ensures tf.frame == old(tf.frame)
  {
    hart.EnableIrqs();
    var ret: int64;
    if hypercallId == HYPERCALL_READ {
      ret := hyperRead(arg0, arg1, arg2);
    } else if hypercallId == HYPERCALL_WRITE {
      ret := hyperWrite(arg0, arg1, arg2);
    } else {
      return ExitedCurrent(-1);
    }
    hart.DisableIrqs();
    o := Served(ret);
  }
}
