/** The trap handler of the hypervisor (hypervisor/src/arch/riscv64/trap.rs):
    classify `scause` and route the trap to the system-call dispatcher, to the
    exit of the current task, to the interrupt handler, or to a panic. The
    system-call dispatcher is a parameter; it receives the frame and may
    change it, like the kernel's `syscall`. */
module Trap {
  import opened Common
  import opened Registers

  /** bit 63 of `scause` marks an interrupt; the rest is the cause code */
  const INTERRUPT_BIT: uint64 := 0x8000_0000_0000_0000

  /** Exception codes of the RISC-V privileged architecture (with the
      hypervisor extension). */
  const USER_ENV_CALL: nat := 8
  const VIRTUAL_SUPERVISOR_ENV_CALL: nat := 10
  const INSTRUCTION_PAGE_FAULT: nat := 12
  const LOAD_PAGE_FAULT: nat := 13
  const STORE_PAGE_FAULT: nat := 15
  const INSTRUCTION_GUEST_PAGE_FAULT: nat := 20
  const LOAD_GUEST_PAGE_FAULT: nat := 21
  const STORE_GUEST_PAGE_FAULT: nat := 23

  datatype Cause = Interrupt(code: nat) | Exception(code: nat)

  /** `scause.cause()` */
  function Classify(scause: uint64): (c: Cause)
    ensures c.Interrupt? <==> scause >= INTERRUPT_BIT
    ensures c.code < INTERRUPT_BIT && scause == (if c.Interrupt? then INTERRUPT_BIT else 0) + c.code
  {
    if scause >= INTERRUPT_BIT then Interrupt(scause - INTERRUPT_BIT) else Exception(scause)
  }

  predicate IsPageFault(c: Cause) {
    c == Exception(LOAD_PAGE_FAULT) || c == Exception(STORE_PAGE_FAULT)
    || c == Exception(INSTRUCTION_PAGE_FAULT)
  }

  predicate IsGuestPageFault(c: Cause) {
    c == Exception(LOAD_GUEST_PAGE_FAULT) || c == Exception(STORE_GUEST_PAGE_FAULT)
    || c == Exception(INSTRUCTION_GUEST_PAGE_FAULT)
  }

  /** Where the handler sends a trap. */
  datatype Route = ToSyscall | KillCurrent | Fatal | ToIrq

  /** The `match` of `riscv_trap_handler`. */
  function Dispatch(c: Cause, fromUser: bool): (r: Route)
    ensures r == ToSyscall <==> c == Exception(USER_ENV_CALL)
    ensures r == KillCurrent <==> IsPageFault(c) && fromUser
    ensures r == ToIrq <==> c.Interrupt?
    ensures r == Fatal <==>
              (IsPageFault(c) && !fromUser) || IsGuestPageFault(c)
              || c == Exception(VIRTUAL_SUPERVISOR_ENV_CALL)
              || (c.Exception? && !IsPageFault(c) && !IsGuestPageFault(c)
                  && c.code != USER_ENV_CALL && c.code != VIRTUAL_SUPERVISOR_ENV_CALL)
  {
    if c == Exception(USER_ENV_CALL) then ToSyscall
    else if IsPageFault(c) then (if fromUser then KillCurrent else Fatal)
    else if IsGuestPageFault(c) then Fatal
    else if c == Exception(VIRTUAL_SUPERVISOR_ENV_CALL) then Fatal
    else if c.Interrupt? then ToIrq
    else Fatal
  }

  /** Guest-stage page faults and environment calls from the guest kernel are
      fatal wherever they come from. */
  lemma GuestTrapsAreFatal(c: Cause, fromUser: bool)
    requires IsGuestPageFault(c) || c == Exception(VIRTUAL_SUPERVISOR_ENV_CALL)
    ensures Dispatch(c, fromUser) == Fatal
  {
  }

  /** What the handler did, besides changing the frame. */
  datatype TrapAction =
    | DidSyscall(id: uint64, ret: int64)
    | ExitedCurrent(code: int32)
    | PanickedOnTrap
    | HandledIrq(scauseBits: uint64)

  datatype SyscallResult = SyscallResult(frame: ProcessTrapFrame, ret: int64)

  /** `riscv_trap_handler`. On an environment call from user mode the saved
      pc is moved past the 4-byte `ecall`, the call number is taken from a7
      and the arguments from a0-a2, and the result, as a usize, overwrites a0.
      A user page fault ends the current task with -1; an interrupt goes to
      the interrupt handler with the raw `scause`; everything else panics. */
  method RiscvTrapHandler(tf: TrapFrameRef, fromUser: bool, scause: uint64,
                          syscall: (ProcessTrapFrame, uint64, uint64, uint64, uint64) -> SyscallResult)
    returns (action: TrapAction)
    modifies tf
    ensures Dispatch(Classify(scause), fromUser) == ToSyscall ==>
              var f := old(tf.frame);
              var entered := f.(sepc := WrappingAdd(f.sepc, 4));
              var res := syscall(entered, f.regs.a7, f.regs.a0, f.regs.a1, f.regs.a2);
              action == DidSyscall(f.regs.a7, res.ret)
              && tf.frame == res.frame.(regs := res.frame.regs.(a0 := AsUsize(res.ret)))
    ensures Dispatch(Classify(scause), fromUser) == KillCurrent ==>
              action == ExitedCurrent(-1) && tf.frame == old(tf.frame)
    ensures Dispatch(Classify(scause), fromUser) == ToIrq ==>
              action == HandledIrq(scause) && tf.frame == old(tf.frame)
    ensures Dispatch(Classify(scause), fromUser) == Fatal ==> action == PanickedOnTrap
  {
    match Dispatch(Classify(scause), fromUser)
    case ToSyscall =>
      tf.frame := tf.frame.(sepc := WrappingAdd(tf.frame.sepc, 4));
      var regs := tf.frame.regs;
      var res := syscall(tf.frame, regs.a7, regs.a0, regs.a1, regs.a2);
      tf.frame := res.frame;
      tf.frame := tf.frame.(regs := tf.frame.regs.(a0 := AsUsize(res.ret)));
      action := DidSyscall(regs.a7, res.ret);
    case KillCurrent =>
      action := ExitedCurrent(-1);
    case ToIrq =>
      action := HandledIrq(scause);
    case Fatal =>
      action := PanickedOnTrap;
  }

  /** When the system call leaves the frame it was given alone, a user
      `ecall` changes exactly two fields of the frame: the pc advances by 4
      and a0 receives the result. */
  lemma {:induction false} EcallChangesOnlyPcAndA0(
      f: ProcessTrapFrame, syscall: (ProcessTrapFrame, uint64, uint64, uint64, uint64) -> SyscallResult)
    requires
      var entered := f.(sepc := WrappingAdd(f.sepc, 4));
      syscall(entered, f.regs.a7, f.regs.a0, f.regs.a1, f.regs.a2).frame == entered
    ensures
      var entered := f.(sepc := WrappingAdd(f.sepc, 4));
      var res := syscall(entered, f.regs.a7, f.regs.a0, f.regs.a1, f.regs.a2);
      var g := res.frame.(regs := res.frame.regs.(a0 := AsUsize(res.ret)));
      && g.sepc == WrappingAdd(f.sepc, 4) && g.sstatus == f.sstatus
      && g.regs.a0 == AsUsize(res.ret)
      && forall x: Reg :: x != A0 ==> g.regs.Get(x) == f.regs.Get(x)
  {
  }
}
