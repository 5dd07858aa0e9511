/** The part of the hart's state that the core reads and writes: the
    callee-saved registers that a context switch exchanges, the active user
    page-table root, the supervisor interrupt-enable flag and the deadline last
    handed to the SBI timer. */
module Cpu {
  import opened Common

  /** The fourteen callee-saved registers in context-slot order (ra, sp,
      s0-s11), the layout shared by the hart and every switch context. */
  function CalleeSavedSlots(ra: uint64, sp: uint64, s: seq<uint64>): (r: seq<uint64>)
    requires |s| == 12
    ensures |r| == 14 && r[0] == ra && r[1] == sp && r[2..] == s
  {
    [ra, sp] + s
  }

  class Hart {
    var ra: uint64
    var sp: uint64
    /** s0 to s11 */
    var s: seq<uint64>
    /** the root installed by `instructions::set_user_page_table_root` */
    var pageTableRoot: uint64
    /** `sstatus.SIE`, set by `enable_irqs` and cleared by `disable_irqs` */
    var irqEnabled: bool
    /** the argument of the last `sbi::set_timer` call */
    var timerDeadline: uint64

    ghost predicate Valid()
      reads this
    {
      |s| == 12
    }

    /** The hart's callee-saved registers, in context-slot order. */
    function CalleeSaved(): seq<uint64>
      reads this
      requires Valid()
    {
      CalleeSavedSlots(ra, sp, s)
    }

    constructor (ra: uint64, sp: uint64, s: seq<uint64>, root: uint64, irqEnabled: bool)
      requires |s| == 12
      ensures Valid()
      ensures this.ra == ra && this.sp == sp && this.s == s
      ensures pageTableRoot == root && this.irqEnabled == irqEnabled && timerDeadline == 0
    {
      this.ra, this.sp, this.s := ra, sp, s;
      pageTableRoot := root;
      this.irqEnabled := irqEnabled;
      timerDeadline := 0;
    }

    /** `instructions::enable_irqs` */
    method EnableIrqs()
      modifies this`irqEnabled
      ensures irqEnabled
    {
      irqEnabled := true;
    }

    /** `instructions::disable_irqs` */
    method DisableIrqs()
      modifies this`irqEnabled
      ensures !irqEnabled
    {
      irqEnabled := false;
    }

    /** `instructions::set_user_page_table_root` */
    method SetUserPageTableRoot(root: uint64)
      modifies this`pageTableRoot
      ensures pageTableRoot == root
    {
      pageTableRoot := root;
    }
  }
}
