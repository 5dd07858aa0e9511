/** The switch context of a native process (hypervisor/src/arch/riscv64/context.rs):
    the callee-saved registers and the address-space root that a voluntary
    switch between kernel execution contexts saves and restores. */
module Context {
  import opened Common
  import opened Cpu

  class ProcessContext {
    var ra: uint64
    var sp: uint64
    /** s0 to s11 */
    var s: seq<uint64>
    var satp: uint64

    ghost predicate Valid()
      reads this
    {
      |s| == 12
    }

    /** The fourteen slots that `context_switch` saves and loads, in slot
        order: ra, sp, s0-s11. */
    function Slots(): seq<uint64>
      reads this
      requires Valid()
    {
      CalleeSavedSlots(ra, sp, s)
    }

    /** `ProcessContext::default`: the zeroed context. */
    constructor Default()
      ensures Valid()
      ensures ra == 0 && sp == 0 && satp == 0
      ensures forall i :: 0 <= i < 12 ==> s[i] == 0
    {
      ra, sp, satp := 0, 0, 0;
      s := seq(12, _ => 0);
    }

    /** `Context::init`: a context that starts at `entry` on the kernel stack
        `kstackTop` in the address space `pageTableRoot`. The flag `isKernel`
        is accepted and ignored. */
    method Init(entry: uint64, kstackTop: uint64, pageTableRoot: uint64, isKernel: bool)
      modifies this`ra, this`sp, this`satp
      ensures sp == kstackTop && ra == entry && satp == pageTableRoot
    {
      sp := kstackTop;
      ra := entry;
      satp := pageTableRoot;
    }

    /** A `ProcessContext` always reports itself as a process context. */
    function IsProcess(): (r: bool)
      ensures r
    {
      true
    }

    /** `switch_to_process`: install the incoming address space, then exchange
        the callee-saved registers. */
    method SwitchToProcess(hart: Hart, next: ProcessContext)
      requires Valid() && next.Valid() && hart.Valid() && next != this
      modifies hart`pageTableRoot, hart`ra, hart`sp, hart`s, this`ra, this`sp, this`s
      ensures Valid() && hart.Valid()
      ensures hart.pageTableRoot == next.satp
      ensures Slots() == old(hart.CalleeSaved())
      ensures hart.CalleeSaved() == next.Slots()
      ensures satp == old(satp) && unchanged(next)
    {
      hart.SetUserPageTableRoot(next.satp);
      ContextSwitch(hart, this, next);
    }

    /** `switch_to_guest` is not supported for process contexts. */
    method SwitchToGuest(next: GuestContext) returns (o: Outcome<()>)
      ensures o == Panicked
    {
      o := Panicked;
    }
  }

  /** The guest's switch context: the same layout as a process context. */
  class GuestContext {
    var ra: uint64
    var sp: uint64
    var s: seq<uint64>
    var satp: uint64
  }

  /** The effect of the naked `context_switch` routine on memory and registers:
      slots 0-13 of `current` receive ra, sp and s0-s11 of the hart, and the
      hart then loads the same fourteen registers from `next`. The `satp` slot
      of either context is neither read nor written. */
  method ContextSwitch(hart: Hart, current: ProcessContext, next: ProcessContext)
    requires hart.Valid() && current.Valid() && next.Valid() && current != next
    modifies hart`ra, hart`sp, hart`s, current`ra, current`sp, current`s
    ensures hart.Valid() && current.Valid()
    ensures current.Slots() == old(hart.CalleeSaved())
    ensures hart.CalleeSaved() == old(next.Slots())
    ensures current.satp == old(current.satp) && unchanged(next)
  {
    current.ra, current.sp, current.s := hart.ra, hart.sp, hart.s;
    hart.ra, hart.sp, hart.s := next.ra, next.sp, next.s;
  }
}
