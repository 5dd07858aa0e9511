# hcHyper core in Dafny

hcHyper is a small RISC-V hypervisor written in Rust. This project models its
core and proves properties of the model. The core covers:

- the task abstraction: task states and their byte encoding, task ids, processes, and the parent/child tree;
- the register frames that a trap saves and that a new task starts from;
- the switch contexts that a voluntary task switch saves and restores;
- the trap and hypercall decision tables;
- a few helpers of its C library shim;
- the nanosecond/tick conversions of the RISC-V timer driver;
- the translation of memory-region flags into page-table flags.

Modules, one per source file, plus two shared ones:

| module | file | source |
|---|---|---|
| `Common` | common.dfy | machine integer ranges, two's-complement casts, `Option`, `Result`, and `Outcome`, where `Outcome.Panicked` stands for a `panic!` |
| `Cpu` | cpu.dfy | the hart state the core touches: the callee-saved registers, the user page-table root, the interrupt-enable bit (`sstatus.SIE`) and the last SBI timer deadline |
| `Registers` | frame.dfy | `GeneralRegisters`, `ProcessTrapFrame` and its constructors, and `TrapFrameRef`, the `&mut` frame handed to trap handlers |
| `Context` | context.dfy | `ProcessContext`: `default`, `init`, `is_process`, `switch_to_process`, `switch_to_guest`, and the effect of the naked `context_switch` |
| `NimbosContext` | nimbos_context.dfy | the nimbos `TrapFrame` (which adds `hstatus`) and `TaskContext` |
| `Trap` | trap.dfy | `riscv_trap_handler` |
| `Hypercall` | hypercall.dfy | `hypercall` |
| `FileShim` | file.dfy | `flags_to_options`, `ax_lseek`, `stat_file`, `ax_stat`, `ax_lstat`, `ax_getcwd` |
| `Timer` | timer.dfy | `nanos_to_ticks`, `ticks_to_nanos`, `set_oneshot_timer` |
| `Paging` | paging.dfy | `From<MemRegionFlags> for MappingFlags` |
| `Task` | task.dfy | `TaskState`, `TaskId`, `Process`, and the `CurrentTask` operations `exit`, `exec` and `waitpid` |

How the model represents things:

- Pure Rust code (record builders, decoders, conversions) is written as functions with field-by-field postconditions.
- Code that updates state in place is written as classes and methods with `modifies` clauses. This covers the switch contexts, the trap frame handed to handlers, the process fields (the atomics, the child list, the parent link), the address space and the caller buffers of the shim.
- A `panic!` or a failed `assert!` is modelled as an explicit result (`Outcome.Panicked`, `TrapAction.PanickedOnTrap`), not as a precondition.
- Code the core calls but that is not part of this model is modelled as a parameter:
  - the application loader, the layout chosen by `MemorySet::load_user`, the kernel page-table root and the address of `task_entry`, all collected in `Task.Platform`;
  - `syscall`, `hyper_read` and `hyper_write`;
  - the file lookup, the seek call and `env::current_dir`.
- The `ROOT_TASK` global is passed explicitly, and `NEXT_PID` is the `Task.IdAllocator` object.
- An address space (`Arc<Mutex<MemorySet>>`) is the class `Task.Vm`. It holds the `Arc` strong count, the loaded image, and its page-table root.
- The tree of processes is described by the ghost predicate `Task.IdOrdered`: every child link leads to a task with a larger id, and every id lies below the allocator's counter. Every constructor that adds a child preserves it. `Process.Traverse` is proved to terminate, and to visit tasks in the order given by `Task.PreorderOf`, on any tree of that shape.

Where the code's comments promise more than the code does, the model follows the code:

- **Hypercall interrupts.** The comment at hypervisor/src/hypercall/mod.rs:18 asks for interrupts to be allowed while a hypercall is handled. The code enables them on entry (line 19) and disables them unconditionally before returning (line 33), whatever their state was on entry.
- **Unknown hypercall ids.** On an unknown id the task exits inside the `match` (hypervisor/src/hypercall/mod.rs:27-30), so on that path interrupts stay enabled. `Hypercall.Hypercall` states this.
- **Hypercall services.** The table is marked unfinished (hypervisor/src/hypercall/mod.rs:10). It serves only ids 0 (read) and 1 (write).
- **Trap origin.** The comments at hypervisor/src/arch/riscv64/trap.rs:27-29 and :36 describe a check of the virtualisation state before an `ecall` or a page fault is handled. `riscv_trap_handler` does not perform it. Guest-stage faults and environment calls from the virtual supervisor panic.

## Model

| member | source | states |
|---|---|---|
| Registers.NewUser | hypervisor/src/arch/riscv64/frame.rs:59-72 | a0 is `arg0`, sp is the user stack top, every other register is 0, sepc is the entry, sstatus is exactly SPIE\|SUM, and the frame returns to U-mode |
| Registers.NewClone | hypervisor/src/arch/riscv64/frame.rs:74-79 | the parent's frame with sp replaced and a0 zeroed; every other register, sepc and sstatus are the parent's |
| Registers.NewFork | hypervisor/src/arch/riscv64/frame.rs:81-85 | the parent's frame with a0 zeroed; everything else is the parent's |
| Registers.ForkFixesZeroReturn | hypervisor/src/arch/riscv64/frame.rs:81-85 | forking leaves a frame unchanged exactly when its a0 is already 0 |
| Registers.ForkIdempotent | hypervisor/src/arch/riscv64/frame.rs:81-85 | forking twice is forking once |
| Registers.ForkOfClone | hypervisor/src/arch/riscv64/frame.rs:74-85 | forking a clone's frame gives the clone's frame back |
| Registers.CloneIsForkOnNewStack | hypervisor/src/arch/riscv64/frame.rs:74-85 | a clone's frame is the fork's frame with sp replaced |
| Registers.ChildResumesLikeParent | hypervisor/src/arch/riscv64/frame.rs:74-85 | clone and fork children return to the parent's privilege level with the parent's SPIE bit |
| Context.ProcessContext.Default | hypervisor/src/arch/riscv64/context.rs:48-52 | every slot of the default context is zero; this is also the nimbos `TaskContext::default` |
| Context.ProcessContext.Init | hypervisor/src/arch/riscv64/context.rs:55-65 | `init` writes only sp, ra and satp, from the stack top, the entry and the root; s0-s11 keep their values and the kernel flag has no effect; the nimbos `TaskContext::init` is the same |
| Context.ProcessContext.IsProcess | hypervisor/src/arch/riscv64/context.rs:67-69 | a process context always reports that it is one |
| Context.ProcessContext.SwitchToProcess | hypervisor/src/arch/riscv64/context.rs:71-76 | installs the incoming satp as the user page-table root, then the outgoing context holds the hart's old 14 callee-saved registers and the hart holds the incoming context's; no satp slot changes and the incoming context is untouched |
| Context.ProcessContext.SwitchToGuest | hypervisor/src/arch/riscv64/context.rs:78-80 | always panics |
| Context.ContextSwitch | hypervisor/src/arch/riscv64/context.rs:104-143 | slots 0-13 (ra, sp, s0-s11) of the current context receive the hart's registers, and the hart loads the same 14 registers from the next context; satp is neither read nor written, and the next context is unchanged |
| NimbosContext.NewUser | hypervisor-nimbos/src/arch/riscv64/context.rs:56-69 | a0 is `arg0`, sp is the stack top, every other register is 0, sepc is the entry, sstatus is SPIE\|SUM, hstatus is 0, and the frame returns to U-mode |
| NimbosContext.NewGuest | hypervisor-nimbos/src/arch/riscv64/context.rs:71-86 | sstatus is SPIE\|SUM\|SPP and hstatus is SPV; the registers and sepc are those of `new_user`; the frame returns to the guest's virtual supervisor mode |
| NimbosContext.NewClone | hypervisor-nimbos/src/arch/riscv64/context.rs:88-93 | the parent's frame with sp replaced and a0 zeroed; sepc, sstatus and hstatus are kept |
| NimbosContext.NewFork | hypervisor-nimbos/src/arch/riscv64/context.rs:95-99 | the parent's frame with a0 zeroed; sepc, sstatus and hstatus are kept |
| NimbosContext.ChildResumesLikeParent | hypervisor-nimbos/src/arch/riscv64/context.rs:88-99 | a cloned or forked frame returns to the same privilege level as its parent, so a guest stays a guest |
| NimbosContext.SwitchTo | hypervisor-nimbos/src/arch/riscv64/context.rs:179-226 | installs `next.satp` as the page-table root, then applies `context_switch`: the current context receives the hart's 14 callee-saved registers, the hart loads them from `next`, and neither satp slot is touched |
| Trap.Classify | hypervisor/src/arch/riscv64/trap.rs:23-25 | a cause is an interrupt exactly when bit 63 of `scause` is set, and the code is the remaining bits |
| Trap.Dispatch | hypervisor/src/arch/riscv64/trap.rs:25-73 | the route of a trap as a set of if-and-only-ifs: syscall exactly on a user environment call; kill exactly on a page fault from user mode; interrupt handler exactly on interrupts; panic on everything else, including kernel page faults, guest page faults and environment calls from the virtual supervisor |
| Trap.GuestTrapsAreFatal | hypervisor/src/arch/riscv64/trap.rs:54-63 | guest-stage page faults and virtual-supervisor environment calls panic whatever `from_user` is |
| Trap.RiscvTrapHandler | hypervisor/src/arch/riscv64/trap.rs:21-74 | on a user `ecall` the dispatcher sees the frame with sepc advanced by 4 and the arguments a7, a0, a1, a2, and a0 then holds its result as a usize; a user page fault exits with -1 and an interrupt passes the raw `scause` to the handler, both leaving the frame alone; everything else panics |
| Trap.EcallChangesOnlyPcAndA0 | hypervisor/src/arch/riscv64/trap.rs:26-32 | when the dispatcher leaves its frame alone, an `ecall` changes only sepc (+4) and a0 |
| Hypercall.Hypercall | hypervisor/src/hypercall/mod.rs:11-35 | id 0 returns `hyper_read(arg0, arg1, arg2)` and id 1 returns `hyper_write(arg0, arg1, arg2)`, with interrupts disabled on return; any other id exits the task with -1 with interrupts left enabled; the trap frame is never changed |
| FileShim.FlagsToOptions | hypervisor/ulib/libax/src/cbindings/file.rs:11-32 | read unless the access mode is O_WRONLY, write unless it is O_RDONLY, and append, truncate, create and create_new each exactly when O_APPEND, O_TRUNC, O_CREAT and O_EXEC respectively are set |
| FileShim.DecodeWhence | hypervisor/ulib/libax/src/cbindings/file.rs:64-69 | whence 0, 1 and 2 give Start (the offset as usize), Current and End, each if and only if; anything else gives EINVAL |
| FileShim.Lseek | hypervisor/ulib/libax/src/cbindings/file.rs:57-73 | an invalid whence fails with EINVAL whatever the descriptor; otherwise the result is the seek on the decoded position |
| FileShim.StatMode | hypervisor/ulib/libax/src/cbindings/file.rs:78-80 | the low 12 bits of `st_mode` are the permission bits, and with permissions below 0x1000 the bits from 12 up are the file type |
| FileShim.StatFile | hypervisor/ulib/libax/src/cbindings/file.rs:75-92 | a metadata error is passed on; otherwise ino and nlink are 1, uid and gid are 1000, blksize is 512, size and blocks are the metadata's as i64, and the mode holds type and permissions |
| FileShim.AxStat | hypervisor/ulib/libax/src/cbindings/file.rs:98-111 | a null buffer gives EFAULT before the path is looked at; a bad path or failed lookup passes the error on and leaves the buffer alone; on success the buffer holds `stat_file` of the file and the result is 0 |
| FileShim.AxLstat | hypervisor/ulib/libax/src/cbindings/file.rs:117-127 | EFAULT exactly for a null buffer; otherwise a zeroed `stat` and 0 |
| FileShim.AxGetcwd | hypervisor/ulib/libax/src/cbindings/file.rs:131-148 | a null buffer returns null; a cwd shorter than `size` is copied to the front of the buffer, then a NUL, and the rest of the buffer is kept; otherwise ERANGE, and on every error the buffer is unchanged |
| Timer.NanosPerTick | hypervisor-nimbos/src/drivers/timer/riscv.rs:6 | NANOS_PER_TICK is the floor of NANOS_PER_SEC over the timer frequency |
| Timer.NanosToTicks | hypervisor-nimbos/src/drivers/timer/riscv.rs:14-16 | the number of whole ticks in the given nanoseconds (floor division) |
| Timer.TicksToNanos | hypervisor-nimbos/src/drivers/timer/riscv.rs:18-20 | ticks times NANOS_PER_TICK whenever the product fits in u64 |
| Timer.TicksRoundTrip | hypervisor-nimbos/src/drivers/timer/riscv.rs:14-20 | ticks to nanoseconds and back is the identity when the product fits in u64 |
| Timer.NanosRoundTrip | hypervisor-nimbos/src/drivers/timer/riscv.rs:14-20 | nanoseconds to ticks and back is at most the input and less than one tick below it |
| Timer.NanosToTicksMonotone | hypervisor-nimbos/src/drivers/timer/riscv.rs:14-16 | a later time never converts to fewer ticks |
| Timer.SetOneshotTimer | hypervisor-nimbos/src/drivers/timer/riscv.rs:22-24 | the deadline handed to the SBI timer is `nanos_to_ticks` of the argument |
| Paging.MappingFlagsFrom | hypervisor/modules/axhal/src/paging.rs:11-28 | READ, WRITE, EXECUTE and DEVICE are in the result exactly when they are in the region flags, and nothing else ever is |
| Paging.OnlyFourFlagsMatter | hypervisor/modules/axhal/src/paging.rs:11-28 | region flags that agree on READ, WRITE, EXECUTE and DEVICE translate alike |
| Paging.DistributesOverUnion | hypervisor/modules/axhal/src/paging.rs:11-28 | the translation of a union is the union of the translations, and no flags translate to no flags |
| Task.StateToByte | hypervisor/src/task/structs.rs:56-63 | every state is stored as a byte in 1..4 |
| Task.StateFromByte | hypervisor/src/task/structs.rs:65-75 | a byte decodes exactly when it lies in 1..4; every other byte panics |
| Task.StateRoundTrip | hypervisor/src/task/structs.rs:56-75 | storing a state and loading it back gives the same state |
| Task.ByteRoundTrip | hypervisor/src/task/structs.rs:65-75 | a byte that decodes is the encoding of its state |
| Task.IdAllocator.constructor | hypervisor/src/task/structs.rs:37 | the counter starts at 1, the root id |
| Task.IdAllocator.Alloc | hypervisor/src/task/structs.rs:36-39 | returns the counter and advances it by one, so ids grow strictly and the idle id 0 is never handed out |
| Task.Process.NewCommon | hypervisor/src/task/structs.rs:128-149 | a fresh process is Ready with exit code 0 and no pending reschedule; it has no vm, no parent and no children; it is neither kernel nor shared; its entry is kernel (0, 0); it has a fresh zeroed context |
| Task.Process.State | hypervisor/src/task/structs.rs:157-159 | the state decoded from the stored byte, and encoding it gives the byte back |
| Task.Process.SetState | hypervisor/src/task/structs.rs:165-167 | after storing a state, `state()` returns it; only the state byte changes |
| Task.Process.SetExitCode | hypervisor/src/task/structs.rs:173-175 | the exit code is the value written; only that field changes |
| Task.Process.ClearNeedResched | hypervisor/src/task/structs.rs:183-185 | the flag is false; only that field changes |
| Task.Process.SetNeedResched | hypervisor/src/task/structs.rs:187-189 | the flag is true; only that field changes |
| Task.Process.AddChild | hypervisor/src/task/structs.rs:217-220 | the child's parent link is this task, and the child is appended after the earlier children, which stay in order; the id-ordered tree shape is kept |
| Task.Process.NewIdle | hypervisor/src/task/structs.rs:222-226 | a fresh kernel task with the idle id; it is Ready with exit code 0, no pending reschedule, entry kernel (0, 0), no vm, parent or children, not shared, and a zeroed context |
| Task.Process.IsRoot | hypervisor/src/task/structs.rs:314-316 | `is_root` holds exactly when the id is 1 |
| Task.Process.IsIdle | hypervisor/src/task/structs.rs:318-320 | `is_idle` holds exactly when the id is 0 |
| Task.Process.NewKernel | hypervisor/src/task/structs.rs:238-257 | a kernel task with the next id and the given entry, whose context starts at `task_entry` on its stack in the kernel address space; it becomes the root's last child unless it is the root itself, and of the root only the child list changes |
| Task.Process.NewUser | hypervisor/src/task/structs.rs:259-274 | a missing application panics without taking an id; otherwise a user task with the next id, a new address space holding the image (one owner), a new user frame at the image's entry and stack top, a context on that address space, appended to the root's children |
| Task.Process.NewClone | hypervisor/src/task/structs.rs:276-293 | a kernel parent panics before an id is taken, a parent without a vm after; otherwise the child shares the parent's vm object, whose count rises by one, is marked shared, resumes from the clone frame, and is appended to the parent's children |
| Task.Process.NewFork | hypervisor/src/task/structs.rs:295-308 | panics like clone; otherwise the child gets a distinct new vm with the same contents and one owner, is not shared, resumes from the fork frame, and is appended to the parent's children |
| Task.Process.Traverse | hypervisor/src/task/structs.rs:326-331 | the visitor is called on the tasks of `PreorderOf`: this task first, then the subtree of each child in list order |
| Task.PreorderOf | hypervisor/src/task/structs.rs:326-331 | a pre-order visit starts with its root and only visits tasks of the tree |
| Task.PreorderList | hypervisor/src/task/structs.rs:328-330 | the subtrees of a list of children, visited one after another, stay inside the tree |
| Task.PreorderListSnoc | hypervisor/src/task/structs.rs:328-330 | visiting one more child appends that child's subtree to the visit |
| Task.TraverseVisitsChildren | hypervisor/src/task/structs.rs:326-331 | `traverse` visits the task itself first and every one of its children |
| Task.Process.Exit | hypervisor/src/task/structs.rs:392-400 | the address space is cleared exactly when this task is its only owner, and the count is unchanged |
| Task.Process.Exec | hypervisor/src/task/structs.rs:405-418 | panics exactly for a kernel task, a task without a vm, or a vm with more than one owner; a missing application returns -1 and leaves the frame and vm alone; otherwise the vm holds the new image, the frame is `new_user(entry, stack top, 0)`, and the result is 0 |
| Task.FirstZombie | hypervisor/src/task/structs.rs:438-446 | the position of the first child that matches the pid and is a zombie, and, when there is none, that no child qualifies |
| Task.Process.Waitpid | hypervisor/src/task/structs.rs:423-446 | with no matching child (pid -1 matches any), `None` with the children unchanged; otherwise exactly the first matching zombie in list order is removed, the rest keep their order, and its id and exit code are returned; with no zombie yet, nothing changes |

## Left out

- Inline assembly: the register moves of `context_switch` are modelled only by their effect on the fields. `ProcessTrapFrame::exec` and `TrapFrame::exec` (the `sret` sequences), `trap.S`, `trap::init` and `stvec` are not part of this model.
- Locking and concurrency: the `TASK_MANAGER` lock, `force_unlock` in `task_entry`, `PerCpu::current_task`, and the memory orderings of the atomics are left out. The model is sequential.
- Task.Process.Exit: the hand-over to `TASK_MANAGER.exit_current`, which does not return, is not part of this model. Only the clearing of the address space is.
- Task.Process.Waitpid: models one pass over the children. The blocking `wait_children_exit.wait()` loop becomes the `Blocked` result, and the `options` argument is ignored as in the source.
- Task.Process.Waitpid: the `assert_eq!(Arc::strong_count(&child), 1)` on the reaped child is not modelled, because the model does not count references to processes.
- Task.IdAllocator.Alloc: does not model the 64-bit wrap-around of `NEXT_PID`; ids are unbounded, so "never returns 0" holds only up to 2^64 allocations.
- Task.Process.NewKernel: requires `ROOT_TASK` to be initialised whenever the new task is not the root. In the source an uninitialised `LazyInit` panics instead.
- Task.Process.NewUser: requires `ROOT_TASK` to be initialised, on the same grounds.
- `init_idle`, `task_entry` and `yield_now`/`sleep` are left out. They drive the scheduler and the kernel address space, neither of which is part of this model.
- `flush_tlb_all` in `exec` has no effect on the modelled state.
- The scheduler (`SchedulerState`, the round-robin queue) is not part of this model. So are `sched_state` and the trait methods `process`, `guest` and `is_guest`, which only return `self`, panic or return a constant.
- `Guest` is an empty struct, and `GuestContext` is modelled by its fields only.
- `Stack` is modelled only as its top address, a parameter of every constructor.
- The loader and `MemorySet` are collaborators known only through `Task.Platform` and the abstract class `Task.Vm`. This covers `get_app_data_by_name`, `load_user`, `dup`, `clear`, `page_table_root`, `kernel_aspace`, the page-table roots of new address spaces (parameters) and the `Arc` strong count.
- Collaborators that are parameters and are not looked into: `syscall`, `hyper_read`/`hyper_write` (the hypercall `fs` module), `File`, `OpenOptions::open`, `Filelike::from_fd`, the seek itself and `env::current_dir`.
- `ax_open`, the `ax_call_body!` macro (which turns an error into a negative C return) and `char_ptr_to_str` are not part of this model. A path conversion is a `Result` parameter.
- `Stat` carries only the fields that `stat_file` sets; the other fields of `ctypes::stat` are left at their default and not modelled.
- The values of `O_RDONLY`, `O_WRONLY`, `O_CREAT`, `O_TRUNC`, `O_APPEND` and `O_EXEC` are the Linux/musl `fcntl.h` values; the generated `ctypes` module that defines them is not part of this model.
- Trap.RiscvTrapHandler: `sepc += 4` is modelled as a wrapping addition. A debug build would panic on overflow instead, which cannot happen for a real `ecall` address.
- Timer.TicksToNanos: `ticks * NANOS_PER_TICK` is modelled as a multiplication modulo 2^64, as a release build computes it. A debug build would panic on overflow instead. The contract speaks only of products that fit in u64.
- The frame type of `trap.rs` is modelled as `ProcessTrapFrame`. The `TrapFrame` of `arch::riscv64` is a re-export that hypervisor/src/arch/riscv64/context.rs does not define.
- Hardware: CSR access (`hregister.rs`, `init_hypervisor`), the interrupt controller, the UART, and `alloc_frames`/`dealloc_frames` of paging.rs are left out, as are the SBI calls other than the timer deadline. The ARM generic timer is also left out.
