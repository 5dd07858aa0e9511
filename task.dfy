/** The task abstraction of the hypervisor (hypervisor/src/task/structs.rs):
    task states and their byte encoding, task ids, the `Process` record with
    its address space and its place in the parent/child tree, and the
    operations of the current task (`exit`, `exec`, one pass of `waitpid`).

    The loader, the kernel address space, the address of `task_entry` and the
    layout computed by `MemorySet::load_user` are collected in a `Platform`
    value; `ROOT_TASK` is passed explicitly. */
module Task {
  import opened Common
  import opened Registers
  import Context

  /* ---------------- Task states and their encoding ---------------- */

  datatype TaskState = Ready | Running | Sleeping | Zombie

  /** `state as u8` */
  function StateToByte(s: TaskState): (b: uint8)
    ensures 1 <= b <= 4
  {
    match s
    case Ready => 1
    case Running => 2
    case Sleeping => 3
    case Zombie => 4
  }

  /** `TaskState::from(u8)`; `None` is the panic on an unknown byte. */
  function StateFromByte(b: uint8): (r: Option<TaskState>)
    ensures r.Some? <==> 1 <= b <= 4
  {
    match b
    case 1 => Some(Ready)
    case 2 => Some(Running)
    case 3 => Some(Sleeping)
    case 4 => Some(Zombie)
    case _ => None
  }

  /** Storing a state and loading it back gives the same state. */
  lemma StateRoundTrip(s: TaskState)
    ensures StateFromByte(StateToByte(s)) == Some(s)
  {
  }

  /** Every byte that decodes is the encoding of what it decodes to. */
  lemma ByteRoundTrip(b: uint8)
    requires StateFromByte(b).Some?
    ensures StateToByte(StateFromByte(b).value) == b
  {
  }

  /* ---------------- Task ids ---------------- */

  /** `TaskId`; the 64-bit width of the counter is not modelled. */
  type TaskId = nat

  const IDLE_TASK_ID: TaskId := 0
  const ROOT_TASK_ID: TaskId := 1

  /** The `NEXT_PID` counter of `TaskId::alloc`. */
  class IdAllocator {
    var next: TaskId

    ghost predicate Valid()
      reads this
    {
      next >= 1
    }

    constructor ()
      ensures Valid() && next == ROOT_TASK_ID
    {
      next := ROOT_TASK_ID;
    }

    /** `TaskId::alloc`: hand out the counter and advance it. Ids grow strictly,
        so the idle id is never handed out. */
    method Alloc() returns (id: TaskId)
      requires Valid()
      modifies this
      ensures Valid()
      ensures id == old(next) && next == id + 1
      ensures id != IDLE_TASK_ID
    {
      id := next;
      next := next + 1;
    }
  }

  /* ---------------- Address spaces ---------------- */

  type Elf = seq<uint8>

  /** What `MemorySet::load_user` reports for an image: the entry point and
      the top of the user stack. */
  datatype UserLayout = UserLayout(entry: uint64, ustackTop: uint64)

  /** The collaborators of the task code that this model does not look into. */
  datatype Platform = Platform(
    /** the address of `task_entry` */
    taskEntry: uint64,
    /** `kernel_aspace().page_table_root()` */
    kernelRoot: uint64,
    /** `loader::get_app_data_by_name` */
    apps: map<string, Elf>,
    /** the entry point and stack top that `load_user` chooses for an image */
    layout: Elf -> UserLayout)

  /** An `Arc<Mutex<MemorySet>>`: the strong count of the `Arc`, the user
      image mapped in it (`None` once cleared or before anything is loaded)
      and the root of its page table. */
  class Vm {
    var refCount: nat
    var image: Option<Elf>
    const root: uint64

    /** `Arc::new(Mutex::new(MemorySet::new()))` */
    constructor (root: uint64)
      ensures refCount == 1 && image == None && this.root == root
    {
      refCount := 1;
      image := None;
      this.root := root;
    }

    /** `Arc::clone`: one more owner. */
    method Share()
      modifies this`refCount
      ensures refCount == old(refCount) + 1
    {
      refCount := refCount + 1;
    }

    /** `MemorySet::clear` */
    method Clear()
      modifies this`image
      ensures image == None
    {
      image := None;
    }

    /** `MemorySet::load_user` */
    method LoadUser(elf: Elf, layout: Elf -> UserLayout) returns (entry: uint64, ustackTop: uint64)
      modifies this`image
      ensures image == Some(elf)
      ensures UserLayout(entry, ustackTop) == layout(elf)
    {
      image := Some(elf);
      entry, ustackTop := layout(elf).entry, layout(elf).ustackTop;
    }

    /** `Arc::new(Mutex::new(self.dup()))`: a separate address space with the
        same contents under a new page table. */
    method Dup(newRoot: uint64) returns (copy: Vm)
      ensures fresh(copy)
      ensures copy.image == image && copy.refCount == 1 && copy.root == newRoot
    {
      copy := new Vm(newRoot);
      copy.image := image;
    }
  }

  /* ---------------- Processes ---------------- */

  /** Where a new task starts: a kernel function with its argument, or a
      user trap frame to return through. */
  datatype EntryState = Kernel(pc: uint64, arg: uint64) | UserFrame(tf: ProcessTrapFrame)

  /** What one pass of `waitpid` finds. `NoSuchChild` is the `None` result;
      `Blocked` is where the source goes to sleep on `wait_children_exit`. */
  datatype WaitResult = NoSuchChild | Reaped(id: TaskId, exitCode: int32) | Blocked

  /** `pid == -1 || t.pid().as_usize() == pid as usize` */
  predicate Matches(pid: int64, id: TaskId) {
    pid == -1 || id == AsUsize(pid)
  }

  class Process {
    const id: TaskId
    var isKernel: bool
    var isShared: bool
    var entry: EntryState
    /** the `AtomicU8` holding the encoded state */
    var stateByte: uint8
    var exitCode: int32
    var needResched: bool
    /** `kstack.top()` */
    const kstackTop: uint64
    const ctx: Context.ProcessContext
    var vm: Vm?
    /** `Weak<Process>`; `null` is the default, dangling `Weak` */
    var parent: Process?
    var children: seq<Process>

    /** The state byte always holds an encoded state. */
    ghost predicate Valid()
      reads this
    {
      1 <= stateByte <= 4
    }

    /** `Process::new_common`: a ready user task with no address space, no
        parent and no children, a zeroed switch context, and everything else
        zero or false. */
    constructor NewCommon(id: TaskId, kstackTop: uint64)
      ensures Valid()
      ensures this.id == id && this.kstackTop == kstackTop
      ensures !isKernel && !isShared && entry == Kernel(0, 0)
      ensures State() == Ready && exitCode == 0 && !needResched
      ensures vm == null && parent == null && children == []
      ensures fresh(ctx) && ctx.Valid() && ctx.ra == 0 && ctx.sp == 0 && ctx.satp == 0
      ensures forall i :: 0 <= i < 12 ==> ctx.s[i] == 0
    {
      this.id := id;
      isKernel := false;
      isShared := false;
      entry := Kernel(0, 0);
      stateByte := StateToByte(Ready);
      exitCode := 0;
      needResched := false;
      this.kstackTop := kstackTop;
      ctx := new Context.ProcessContext.Default();
      vm := null;
      parent := null;
      children := [];
    }

    /** `Task::state` */
    function State(): (s: TaskState)
      reads this
      requires Valid()
      ensures StateToByte(s) == stateByte
    {
      StateFromByte(stateByte).value
    }

    /** `Task::set_state` */
    method SetState(s: TaskState)
      modifies this`stateByte
      ensures Valid() && State() == s
    {
      stateByte := StateToByte(s);
    }

    /** `Task::set_exit_code` */
    method SetExitCode(code: int32)
      modifies this`exitCode
      ensures exitCode == code
    {
      exitCode := code;
    }

    /** `Task::set_need_resched` */
    method SetNeedResched()
      modifies this`needResched
      ensures needResched
    {
      needResched := true;
    }

    /** `Task::clear_need_resched` */
    method ClearNeedResched()
      modifies this`needResched
      ensures !needResched
    {
      needResched := false;
    }

    /** `Process::is_root` */
    function IsRoot(): (r: bool)
      reads this
      ensures r <==> id == 1
    {
      id == ROOT_TASK_ID
    }

    /** `Process::is_idle` */
    function IsIdle(): (r: bool)
      reads this
      ensures r <==> id == 0
    {
      id == IDLE_TASK_ID
    }

    /** `Process::add_child`: point the child's parent link here and append the
        child to the children, keeping the earlier children as they were. A
        child with a larger id, added to a tree whose links all point to
        larger ids, keeps that tree well-founded. */
    method AddChild(child: Process, ghost procs: set<Process>, ghost bound: nat)
      requires IdOrdered(procs, bound) && this in procs
      requires child.children == [] && id < child.id < bound
      modifies this`children, child`parent
      ensures child.parent == this && children == old(children) + [child]
      ensures IdOrdered(procs + {child}, bound)
    {
      child.parent := this;
      children := children + [child];
    }

    /** `Process::new_idle`: the kernel task with the idle id. */
    static method NewIdle(kstackTop: uint64) returns (t: Process)
      ensures fresh(t) && fresh(t.ctx) && t.Valid()
      ensures t.IsIdle() && t.isKernel && !t.isShared && t.State() == Ready
      ensures t.exitCode == 0 && !t.needResched && t.entry == Kernel(0, 0)
      ensures t.vm == null && t.parent == null && t.children == []
      ensures t.kstackTop == kstackTop && t.ctx.Valid()
      ensures t.ctx.ra == 0 && t.ctx.sp == 0 && t.ctx.satp == 0
      ensures forall i :: 0 <= i < 12 ==> t.ctx.s[i] == 0
    {
      t := new Process.NewCommon(IDLE_TASK_ID, kstackTop);
      t.isKernel := true;
    }

    /** `Process::new_kernel`: a kernel task with a fresh id that starts at
        `task_entry` in the kernel address space and then calls `pc(arg)`.
        Every kernel task except the root itself becomes a child of the root. */
    static method NewKernel(alloc: IdAllocator, root: Process?, pc: uint64, arg: uint64,
                            kstackTop: uint64, platform: Platform,
                            ghost procs: set<Process>) returns (t: Process)
      requires alloc.Valid() && IdOrdered(procs, alloc.next)
      requires alloc.next != ROOT_TASK_ID ==> root != null && root in procs
      modifies alloc, (if root == null then {} else {root})`children
      ensures alloc.Valid() && fresh(t) && fresh(t.ctx) && t.Valid()
      ensures t.id == old(alloc.next) && alloc.next == t.id + 1
      ensures t.isKernel && !t.isShared && t.entry == Kernel(pc, arg) && t.State() == Ready
      ensures t.ctx.ra == platform.taskEntry && t.ctx.sp == kstackTop && t.ctx.satp == platform.kernelRoot
      ensures t.vm == null && t.children == []
      ensures t.IsRoot() ==> t.parent == null
      ensures !t.IsRoot() ==> t.parent == root && root.children == old(root.children) + [t]
      ensures IdOrdered(procs + {t}, alloc.next)
    {
      var id := alloc.Alloc();
      t := new Process.NewCommon(id, kstackTop);
      t.isKernel := true;
      t.entry := Kernel(pc, arg);
      t.ctx.Init(platform.taskEntry, kstackTop, platform.kernelRoot, true);
      if !t.IsRoot() {
        root.AddChild(t, procs, alloc.next);
      } else {
        IdOrderedGrows(procs, t, alloc.next);
      }
    }

    /** `Process::new_user`: load the named application into a new address
        space and make it a child of the root, starting in user mode at the
        image's entry point with its stack top and a zero argument. A missing
        application panics before an id is taken. */
    static method NewUser(alloc: IdAllocator, root: Process, path: string, kstackTop: uint64,
                          vmRoot: uint64, platform: Platform,
                          ghost procs: set<Process>) returns (o: Outcome<Process>)
      requires alloc.Valid() && IdOrdered(procs, alloc.next) && root in procs
      modifies alloc, root`children
      ensures alloc.Valid()
      ensures o.Panicked? ==> IdOrdered(procs, alloc.next)
      ensures o.Panicked? <==> path !in platform.apps
      ensures o.Panicked? ==> alloc.next == old(alloc.next) && root.children == old(root.children)
      ensures o.Returned? ==>
                var t := o.value;
                var elf := platform.apps[path];
                var l := platform.layout(elf);
                && fresh(t) && fresh(t.ctx) && fresh(t.vm) && t.Valid()
                && t.id == old(alloc.next) && alloc.next == t.id + 1
                && !t.isKernel && !t.isShared && t.State() == Ready
                && t.entry == UserFrame(Registers.NewUser(l.entry, l.ustackTop, 0))
                && t.vm.image == Some(elf) && t.vm.refCount == 1 && t.vm.root == vmRoot
                && t.ctx.ra == platform.taskEntry && t.ctx.sp == kstackTop && t.ctx.satp == vmRoot
                && t.parent == root && root.children == old(root.children) + [t] && t.children == []
                && IdOrdered(procs + {t}, alloc.next)
    {
      if path !in platform.apps {
        return Panicked;
      }
      var elf := platform.apps[path];
      var vm := new Vm(vmRoot);
      var entry, ustackTop := vm.LoadUser(elf, platform.layout);
      IdOrderedMonotone(procs, alloc.next);
      var id := alloc.Alloc();
      var t := new Process.NewCommon(id, kstackTop);
      t.entry := UserFrame(Registers.NewUser(entry, ustackTop, 0));
      t.ctx.Init(platform.taskEntry, kstackTop, vm.root, false);
      t.vm := vm;
      root.AddChild(t, procs, alloc.next);
      o := Returned(t);
    }

    /** `Process::new_clone`: a thread of this user task. It shares this
        task's address space, which gains an owner, is marked as shared, and
        resumes from `tf` on the stack `newsp`. A kernel task panics before
        an id is taken; a task without an address space panics after. */
    method NewClone(alloc: IdAllocator, newsp: uint64, tf: ProcessTrapFrame, kstackTop: uint64,
                    platform: Platform, ghost procs: set<Process>) returns (o: Outcome<Process>)
      requires alloc.Valid() && IdOrdered(procs, alloc.next) && this in procs
      modifies alloc, this`children, vm
      ensures alloc.Valid()
      ensures o.Panicked? ==> IdOrdered(procs, alloc.next)
      ensures o.Panicked? <==> isKernel || vm == null
      ensures isKernel ==> alloc.next == old(alloc.next)
      ensures !isKernel && vm == null ==> alloc.next == old(alloc.next) + 1
      ensures o.Panicked? ==> children == old(children) && (vm != null ==> vm.refCount == old(vm.refCount))
      ensures o.Returned? ==>
                var t := o.value;
                && fresh(t) && fresh(t.ctx) && t.Valid()
                && t.id == old(alloc.next) && alloc.next == t.id + 1
                && !t.isKernel && t.isShared && t.State() == Ready
                && t.vm == vm && vm.refCount == old(vm.refCount) + 1 && vm.image == old(vm.image)
                && t.entry == UserFrame(Registers.NewClone(tf, newsp))
                && t.ctx.ra == platform.taskEntry && t.ctx.sp == kstackTop && t.ctx.satp == vm.root
                && t.parent == this && children == old(children) + [t] && t.children == []
                && IdOrdered(procs + {t}, alloc.next)
    {
      if isKernel {
        return Panicked;
      }
      IdOrderedMonotone(procs, alloc.next);
      var id := alloc.Alloc();
      var t := new Process.NewCommon(id, kstackTop);
      t.isShared := true;
      if vm == null {
        return Panicked;
      }
      vm.Share();
      t.entry := UserFrame(Registers.NewClone(tf, newsp));
      t.ctx.Init(platform.taskEntry, kstackTop, vm.root, false);
      t.vm := vm;
      AddChild(t, procs, alloc.next);
      o := Returned(t);
    }

    /** `Process::new_fork`: a child with its own copy of this task's address
        space under the new root `forkRoot`, not shared, that resumes from
        `tf` with a zero return value. It panics like `NewClone`. */
    method NewFork(alloc: IdAllocator, tf: ProcessTrapFrame, kstackTop: uint64, forkRoot: uint64,
                   platform: Platform, ghost procs: set<Process>) returns (o: Outcome<Process>)
      requires alloc.Valid() && IdOrdered(procs, alloc.next) && this in procs
      modifies alloc, this`children
      ensures alloc.Valid()
      ensures o.Panicked? ==> IdOrdered(procs, alloc.next)
      ensures o.Panicked? <==> isKernel || vm == null
      ensures isKernel ==> alloc.next == old(alloc.next)
      ensures !isKernel && vm == null ==> alloc.next == old(alloc.next) + 1
      ensures o.Panicked? ==> children == old(children)
      ensures o.Returned? ==>
                var t := o.value;
                && fresh(t) && fresh(t.ctx) && fresh(t.vm) && t.Valid()
                && t.id == old(alloc.next) && alloc.next == t.id + 1
                && !t.isKernel && !t.isShared && t.State() == Ready
                && t.vm != vm && t.vm.image == vm.image && t.vm.refCount == 1 && t.vm.root == forkRoot
                && t.entry == UserFrame(Registers.NewFork(tf))
                && t.ctx.ra == platform.taskEntry && t.ctx.sp == kstackTop && t.ctx.satp == forkRoot
                && t.parent == this && children == old(children) + [t] && t.children == []
                && IdOrdered(procs + {t}, alloc.next)
    {
      if isKernel {
        return Panicked;
      }
      IdOrderedMonotone(procs, alloc.next);
      var id := alloc.Alloc();
      var t := new Process.NewCommon(id, kstackTop);
      if vm == null {
        return Panicked;
      }
      var copy := vm.Dup(forkRoot);
      t.entry := UserFrame(Registers.NewFork(tf));
      t.ctx.Init(platform.taskEntry, kstackTop, copy.root, false);
      t.vm := copy;
      AddChild(t, procs, alloc.next);
      o := Returned(t);
    }

    /** `Process::traverse`: call the visitor on this task, then traverse each
        child in turn. The result is the sequence of tasks the visitor is
        called on. */
    method Traverse(ghost procs: set<Process>, ghost bound: nat) returns (visited: seq<Process>)
      requires IdOrdered(procs, bound) && this in procs
      decreases bound - id
      ensures visited == PreorderOf(this, procs, bound)
    {
      visited := [this];
      for i := 0 to |children|
        invariant visited == [this] + PreorderList(children[..i], id, procs, bound)
      {
        var sub := children[i].Traverse(procs, bound);
        PreorderListSnoc(children[..i], children[i], id, procs, bound);
        assert children[..i + 1] == children[..i] + [children[i]];
        visited := visited + sub;
      }
      assert children[..|children|] == children;
    }

    /** `CurrentTask::exit`, up to the hand-over to the task manager: the
        address space is cleared only when this task is its sole owner. */
    method Exit(code: int32)
      modifies vm
      ensures vm != null && old(vm.refCount) == 1 ==> vm.image == None
      ensures vm != null && old(vm.refCount) != 1 ==> vm.image == old(vm.image)
      ensures vm != null ==> vm.refCount == old(vm.refCount)
    {
      if vm != null {
        if vm.refCount == 1 {
          vm.Clear();
        }
      }
    }

    /** `CurrentTask::exec`: replace the image of this user task by the named
        application. A kernel task, a missing address space or a shared one
        panics. A missing application returns -1 and changes nothing;
        otherwise the address space is cleared and reloaded, the trap frame
        becomes a fresh user frame for the new image, and the result is 0. */
    method Exec(path: string, tf: TrapFrameRef, platform: Platform) returns (o: Outcome<int>)
      modifies tf, vm
      ensures o.Panicked? <==> isKernel || vm == null || old(vm.refCount) != 1
      ensures o == Returned(-1) <==> o.Returned? && path !in platform.apps
      ensures o.Returned? && path !in platform.apps ==>
                tf.frame == old(tf.frame) && vm.image == old(vm.image)
      ensures o.Returned? && path in platform.apps ==>
                var elf := platform.apps[path];
                var l := platform.layout(elf);
                && o.value == 0 && vm.image == Some(elf)
                && tf.frame == Registers.NewUser(l.entry, l.ustackTop, 0)
      ensures vm != null ==> vm.refCount == old(vm.refCount)
    {
      if isKernel || vm == null || vm.refCount != 1 {
        return Panicked;
      }
      if path in platform.apps {
        var elf := platform.apps[path];
        vm.Clear();
        var entry, ustackTop := vm.LoadUser(elf, platform.layout);
        tf.frame := Registers.NewUser(entry, ustackTop, 0);
        o := Returned(0);
      } else {
        o := Returned(-1);
      }
    }

    /** One non-blocking pass of `CurrentTask::waitpid`. Without a matching
        child the result is `NoSuchChild`. Otherwise the first matching child
        in list order that is a zombie is removed and its id and exit code
        are returned; the other children keep their order. When no matching
        child is a zombie yet, the children are left alone and the source
        would wait. */
    method Waitpid(pid: int64, options: uint32) returns (r: WaitResult)
      requires forall i :: 0 <= i < |children| ==> children[i].Valid()
      modifies this`children
      ensures r == NoSuchChild <==> !HasMatch(pid, old(children))
      ensures r.Reaped? <==> HasMatch(pid, old(children)) && FirstZombie(pid, old(children)).Some?
      ensures r.Reaped? ==>
                var k := FirstZombie(pid, old(children)).value;
                && r == Reaped(old(children)[k].id, old(children)[k].exitCode)
                && children == old(children)[..k] + old(children)[k + 1..]
      ensures !r.Reaped? ==> children == old(children)
    {
      var found := false;
      for i := 0 to |children|
        invariant !found ==> forall j :: 0 <= j < i ==> !Matches(pid, children[j].id)
        invariant found ==> HasMatch(pid, children)
      {
        if Matches(pid, children[i].id) {
          found := true;
          break;
        }
      }
      if !found {
        return NoSuchChild;
      }
      for idx := 0 to |children|
        invariant forall j :: 0 <= j < idx ==> !ReapableBy(pid, children[j])
      {
        var t := children[idx];
        if Matches(pid, t.id) && t.State() == Zombie {
          assert ReapableBy(pid, t);
          children := children[..idx] + children[idx + 1..];
          return Reaped(t.id, t.exitCode);
        }
      }
      r := Blocked;
    }
  }

  /** Some child of the list matches `pid`. */
  predicate HasMatch(pid: int64, cs: seq<Process>) {
    exists i :: 0 <= i < |cs| && Matches(pid, cs[i].id)
  }

  /** A matching child that has already exited. */
  predicate ReapableBy(pid: int64, c: Process)
    reads c
  {
    Matches(pid, c.id) && StateFromByte(c.stateByte) == Some(Zombie)
  }

  /** The position of the first child that `waitpid` may reap. */
  function FirstZombie(pid: int64, cs: seq<Process>): (r: Option<nat>)
    reads cs
    ensures r.Some? ==> r.value < |cs| && ReapableBy(pid, cs[r.value])
    ensures r.Some? ==> forall j :: 0 <= j < r.value ==> !ReapableBy(pid, cs[j])
    ensures r.None? ==> forall j :: 0 <= j < |cs| ==> !ReapableBy(pid, cs[j])
  {
    if cs == [] then None
    else if ReapableBy(pid, cs[0]) then Some(0)
    else match FirstZombie(pid, cs[1..])
      case None => None
      case Some(k) => Some(k + 1)
  }

  /* ---------------- The process tree ---------------- */

  /** Every child link inside `procs` stays inside `procs` and leads to a
      larger id, and every id is below `bound`. Ids are allocated in
      increasing order after the parent exists, so the tree that the task
      constructors build has this shape, and `traverse` terminates on it. */
  ghost predicate IdOrdered(procs: set<Process>, bound: nat)
    reads procs
  {
    forall p :: p in procs ==>
      p.id < bound &&
      forall i :: 0 <= i < |p.children| ==> p.children[i] in procs && p.children[i].id > p.id
  }

  lemma IdOrderedMonotone(procs: set<Process>, bound: nat)
    requires IdOrdered(procs, bound)
    ensures IdOrdered(procs, bound + 1)
  {
  }

  lemma IdOrderedGrows(procs: set<Process>, t: Process, bound: nat)
    requires IdOrdered(procs, bound) && t.children == [] && t.id < bound
    ensures IdOrdered(procs + {t}, bound)
  {
  }

  /** The order in which `traverse` visits the subtree of `p`: `p` first,
      then the subtree of each child in list order. */
  ghost function PreorderOf(p: Process, procs: set<Process>, bound: nat): (r: seq<Process>)
    reads procs
    requires IdOrdered(procs, bound) && p in procs
    decreases bound - p.id, 1, 0
    ensures |r| >= 1 && r[0] == p
    ensures forall q :: q in r ==> q in procs
  {
    [p] + PreorderList(p.children, p.id, procs, bound)
  }

  /** The subtrees of the children `cs`, one after another. */
  ghost function PreorderList(cs: seq<Process>, lo: nat, procs: set<Process>, bound: nat): (r: seq<Process>)
    reads procs
    requires IdOrdered(procs, bound) && lo < bound
    requires forall i :: 0 <= i < |cs| ==> cs[i] in procs && cs[i].id > lo
    decreases bound - lo, 0, |cs|
    ensures forall q :: q in r ==> q in procs
  {
    if cs == [] then []
    else PreorderOf(cs[0], procs, bound) + PreorderList(cs[1..], lo, procs, bound)
  }

  lemma {:induction false} PreorderListSnoc(cs: seq<Process>, c: Process, lo: nat,
                                            procs: set<Process>, bound: nat)
    requires IdOrdered(procs, bound) && lo < bound
    requires forall i :: 0 <= i < |cs| ==> cs[i] in procs && cs[i].id > lo
    requires c in procs && c.id > lo
    ensures PreorderList(cs + [c], lo, procs, bound)
            == PreorderList(cs, lo, procs, bound) + PreorderOf(c, procs, bound)
    decreases |cs|
  {
    if cs == [] {
      assert [] + [c] == [c];
    } else {
      assert (cs + [c])[1..] == cs[1..] + [c];
      PreorderListSnoc(cs[1..], c, lo, procs, bound);
    }
  }

  /** Every task in the list is visited, at the start of its own subtree. */
  lemma {:induction false} ListedAreVisited(cs: seq<Process>, lo: nat, procs: set<Process>, bound: nat)
    requires IdOrdered(procs, bound) && lo < bound
    requires forall i :: 0 <= i < |cs| ==> cs[i] in procs && cs[i].id > lo
    ensures forall i :: 0 <= i < |cs| ==> cs[i] in PreorderList(cs, lo, procs, bound)
    decreases |cs|
  {
    if cs != [] {
      ListedAreVisited(cs[1..], lo, procs, bound);
      forall i | 0 <= i < |cs|
        ensures cs[i] in PreorderList(cs, lo, procs, bound)
      {
        if i == 0 {
          assert PreorderList(cs, lo, procs, bound)[0] == cs[0];
        } else {
          assert cs[i] == cs[1..][i - 1];
        }
      }
    }
  }

  /** `traverse` calls the visitor on the task itself first and on every one
      of its children. */
  lemma {:induction false} TraverseVisitsChildren(p: Process, procs: set<Process>, bound: nat)
    requires IdOrdered(procs, bound) && p in procs
    ensures PreorderOf(p, procs, bound)[0] == p
    ensures forall i :: 0 <= i < |p.children| ==> p.children[i] in PreorderOf(p, procs, bound)
  {
    ListedAreVisited(p.children, p.id, procs, bound);
  }
}
