/** The trap frame and switch context of the hypervisor-nimbos kernel
    (hypervisor-nimbos/src/arch/riscv64/context.rs). Its trap frame adds the
    hypervisor status register `hstatus` to the process frame, so that the same
    frame can resume either a user program or a guest kernel. Its `TaskContext`
    has exactly the layout, `default`, `init` and `context_switch` of
    `Context.ProcessContext`, which models it. */
module NimbosContext {
  import opened Common
  import opened Registers
  import opened Cpu
  import Context

  datatype TrapFrame = TrapFrame(regs: GeneralRegisters, sepc: uint64, sstatus: bv64, hstatus: bv64)

  /** The privilege level that `sret` from HS-mode enters: `hstatus.SPV`
      selects a virtualised level and `sstatus.SPP` selects supervisor over
      user. */
  function ReturnMode(tf: TrapFrame): Mode {
    if Bit(tf.hstatus, 7) then
      if Bit(tf.sstatus, 8) then VirtualSupervisor else VirtualUser
    else
      if Bit(tf.sstatus, 8) then Supervisor else User
  }

  /** `TrapFrame::new_user` */
  function NewUser(entry: uint64, ustackTop: uint64, arg0: uint64): (tf: TrapFrame)
    ensures tf.regs.a0 == arg0 && tf.regs.sp == ustackTop
    ensures forall x: Reg :: x != A0 && x != Sp ==> tf.regs.Get(x) == 0
    ensures tf.sepc == entry && tf.sstatus == SPIE | SUM && tf.hstatus == 0
    ensures ReturnMode(tf) == User && Bit(tf.sstatus, 5) && Bit(tf.sstatus, 18)
  {
    TrapFrame(ZERO_REGS.(a0 := arg0, sp := ustackTop), entry, SPIE | SUM, 0)
  }

  /** `TrapFrame::new_guest`: as `new_user`, but `sret` enters the guest's
      virtual supervisor mode. */
  function NewGuest(entry: uint64, ustackTop: uint64, arg0: uint64): (tf: TrapFrame)
    ensures tf.sstatus == SPIE | SUM | SPP && tf.hstatus == SPV
    ensures tf.regs == NewUser(entry, ustackTop, arg0).regs && tf.sepc == NewUser(entry, ustackTop, arg0).sepc
    ensures ReturnMode(tf) == VirtualSupervisor && Bit(tf.sstatus, 5) && Bit(tf.sstatus, 18)
  {
    TrapFrame(ZERO_REGS.(a0 := arg0, sp := ustackTop), entry, SPIE | SUM | SPP, SPV)
  }

  /** `TrapFrame::new_clone` */
  function NewClone(parent: TrapFrame, ustackTop: uint64): (tf: TrapFrame)
    ensures tf.regs.sp == ustackTop && tf.regs.a0 == 0
    ensures forall x: Reg :: x != Sp && x != A0 ==> tf.regs.Get(x) == parent.regs.Get(x)
    ensures tf.sepc == parent.sepc && tf.sstatus == parent.sstatus && tf.hstatus == parent.hstatus
  {
    parent.(regs := parent.regs.(sp := ustackTop, a0 := 0))
  }

  /** `TrapFrame::new_fork` */
  function NewFork(parent: TrapFrame): (tf: TrapFrame)
    ensures tf.regs.a0 == 0
    ensures forall x: Reg :: x != A0 ==> tf.regs.Get(x) == parent.regs.Get(x)
    ensures tf.sepc == parent.sepc && tf.sstatus == parent.sstatus && tf.hstatus == parent.hstatus
  {
    parent.(regs := parent.regs.(a0 := 0))
  }

  /** A cloned or forked guest stays a guest: children resume at the parent's
      privilege level. */
  lemma ChildResumesLikeParent(tf: TrapFrame, ustackTop: uint64)
    ensures ReturnMode(NewClone(tf, ustackTop)) == ReturnMode(tf)
    ensures ReturnMode(NewFork(tf)) == ReturnMode(tf)
  {
  }

  type TaskContext = Context.ProcessContext

  /** `TaskContext::switch_to`: install the incoming address space, then
      exchange the callee-saved registers. */
  method SwitchTo(hart: Hart, current: TaskContext, next: TaskContext)
    requires current.Valid() && next.Valid() && hart.Valid() && next != current
    modifies hart`pageTableRoot, hart`ra, hart`sp, hart`s, current`ra, current`sp, current`s
    ensures current.Valid() && hart.Valid()
    ensures hart.pageTableRoot == next.satp
    ensures current.Slots() == old(hart.CalleeSaved())
    ensures hart.CalleeSaved() == next.Slots()
    ensures current.satp == old(current.satp) && unchanged(next)
  {
    hart.SetUserPageTableRoot(next.satp);
    Context.ContextSwitch(hart, current, next);
  }
}
