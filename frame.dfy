/** The trap frame of a native process on RISC-V 64
    (hypervisor/src/arch/riscv64/frame.rs): the 31 general registers saved at
    a trap, the trapped program counter and `sstatus`. The frame is a plain
    copyable value, so every constructor is a function. */
module Registers {
  import opened Common

  /** The general registers, in the order of their slots in the frame. */
  datatype Reg =
    | Ra | Sp | Gp | Tp | T0 | T1 | T2 | S0 | S1
    | A0 | A1 | A2 | A3 | A4 | A5 | A6 | A7
    | S2 | S3 | S4 | S5 | S6 | S7 | S8 | S9 | S10 | S11
    | T3 | T4 | T5 | T6

  datatype GeneralRegisters = GeneralRegisters(
    ra: uint64, sp: uint64, gp: uint64, tp: uint64,
    t0: uint64, t1: uint64, t2: uint64, s0: uint64, s1: uint64,
    a0: uint64, a1: uint64, a2: uint64, a3: uint64,
    a4: uint64, a5: uint64, a6: uint64, a7: uint64,
    s2: uint64, s3: uint64, s4: uint64, s5: uint64, s6: uint64,
    s7: uint64, s8: uint64, s9: uint64, s10: uint64, s11: uint64,
    t3: uint64, t4: uint64, t5: uint64, t6: uint64)
  {
    /** The value held in register `x`. */
    function Get(x: Reg): uint64 {
      match x
      case Ra => ra  case Sp => sp  case Gp => gp  case Tp => tp
      case T0 => t0  case T1 => t1  case T2 => t2  case S0 => s0  case S1 => s1
      case A0 => a0  case A1 => a1  case A2 => a2  case A3 => a3
      case A4 => a4  case A5 => a5  case A6 => a6  case A7 => a7
      case S2 => s2  case S3 => s3  case S4 => s4  case S5 => s5  case S6 => s6
      case S7 => s7  case S8 => s8  case S9 => s9  case S10 => s10  case S11 => s11
      case T3 => t3  case T4 => t4  case T5 => t5  case T6 => t6
    }
  }

  /** `GeneralRegisters::default()`: every register zero. */
  const ZERO_REGS: GeneralRegisters :=
    GeneralRegisters(0, 0, 0, 0, 0, 0, 0, 0, 0, 0, 0, 0, 0, 0, 0, 0,
                     0, 0, 0, 0, 0, 0, 0, 0, 0, 0, 0, 0, 0, 0, 0)

  /** Bits of `sstatus` and `hstatus` (RISC-V privileged architecture). */
  const SPIE: bv64 := 1 << 5
  const SPV: bv64 := 1 << 7
  const SPP: bv64 := 1 << 8
  const SUM: bv64 := 1 << 18

  predicate Bit(x: bv64, i: nat)
    requires i < 64
  {
    (x >> i) & 1 == 1
  }

  datatype ProcessTrapFrame = ProcessTrapFrame(regs: GeneralRegisters, sepc: uint64, sstatus: bv64)

  /** The privilege level that `sret` enters when it resumes a frame. */
  datatype Mode = User | Supervisor | VirtualUser | VirtualSupervisor

  /** Without the hypervisor's `hstatus`, `sret` goes to S-mode when SPP is set
      and to U-mode otherwise. */
  function ReturnMode(tf: ProcessTrapFrame): Mode {
    if Bit(tf.sstatus, 8) then Supervisor else User
  }

  /** `ProcessTrapFrame::new_user`: the frame of a program about to run for the
      first time from `entry` on the stack `ustackTop`, with `arg0` in a0. */
  function NewUser(entry: uint64, ustackTop: uint64, arg0: uint64): (tf: ProcessTrapFrame)
    ensures tf.regs.a0 == arg0 && tf.regs.sp == ustackTop
    ensures forall x: Reg :: x != A0 && x != Sp ==> tf.regs.Get(x) == 0
    ensures tf.sepc == entry
    ensures tf.sstatus == SPIE | SUM
    ensures ReturnMode(tf) == User && Bit(tf.sstatus, 5) && Bit(tf.sstatus, 18)
  {
    ProcessTrapFrame(ZERO_REGS.(a0 := arg0, sp := ustackTop), entry, SPIE | SUM)
  }

  /** `ProcessTrapFrame::new_clone`: the first frame of a thread created by
      clone, which resumes where its parent trapped, on its own stack, and sees
      0 as the result of the call. */
  function NewClone(parent: ProcessTrapFrame, ustackTop: uint64): (tf: ProcessTrapFrame)
    ensures tf.regs.sp == ustackTop && tf.regs.a0 == 0
    ensures forall x: Reg :: x != Sp && x != A0 ==> tf.regs.Get(x) == parent.regs.Get(x)
    ensures tf.sepc == parent.sepc && tf.sstatus == parent.sstatus
  {
    parent.(regs := parent.regs.(sp := ustackTop, a0 := 0))
  }

  /** `ProcessTrapFrame::new_fork`: the child of fork resumes where its parent
      trapped and sees 0 as the result of the call. */
  function NewFork(parent: ProcessTrapFrame): (tf: ProcessTrapFrame)
    ensures tf.regs.a0 == 0
    ensures forall x: Reg :: x != A0 ==> tf.regs.Get(x) == parent.regs.Get(x)
    ensures tf.sepc == parent.sepc && tf.sstatus == parent.sstatus
  {
    parent.(regs := parent.regs.(a0 := 0))
  }

  /** Forking a frame whose return value is already 0 changes nothing, so
      forking twice is forking once, and forking a clone's frame gives it back. */
  lemma ForkFixesZeroReturn(tf: ProcessTrapFrame)
    ensures NewFork(tf) == tf <==> tf.regs.a0 == 0
  {
  }

  lemma ForkIdempotent(tf: ProcessTrapFrame)
    ensures NewFork(NewFork(tf)) == NewFork(tf)
  {
    ForkFixesZeroReturn(NewFork(tf));
  }

  lemma ForkOfClone(tf: ProcessTrapFrame, ustackTop: uint64)
    ensures NewFork(NewClone(tf, ustackTop)) == NewClone(tf, ustackTop)
  {
    ForkFixesZeroReturn(NewClone(tf, ustackTop));
  }

  /** A clone's frame is the fork's frame on another stack. */
  lemma CloneIsForkOnNewStack(tf: ProcessTrapFrame, ustackTop: uint64)
    ensures NewClone(tf, ustackTop) == NewFork(tf).(regs := NewFork(tf).regs.(sp := ustackTop))
  {
  }

  /** Children created by clone or fork resume with their parent's privilege
      level and interrupt setting. */
  lemma ChildResumesLikeParent(tf: ProcessTrapFrame, ustackTop: uint64)
    ensures ReturnMode(NewClone(tf, ustackTop)) == ReturnMode(tf)
    ensures ReturnMode(NewFork(tf)) == ReturnMode(tf)
    ensures Bit(NewClone(tf, ustackTop).sstatus, 5) == Bit(tf.sstatus, 5)
    ensures Bit(NewFork(tf).sstatus, 5) == Bit(tf.sstatus, 5)
  {
  }

  /** The `&mut ProcessTrapFrame` that the trap entry code hands to the kernel:
      the frame saved on the kernel stack, which the kernel may overwrite. */
  class TrapFrameRef {
    var frame: ProcessTrapFrame

    constructor (tf: ProcessTrapFrame)
      ensures frame == tf
    {
      frame := tf;
    }
  }
}
