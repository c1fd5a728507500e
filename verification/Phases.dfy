/** The scheduler hooks and the counting machine on the same hooks: `Monitor` knows of a task only
    its phase and the CPU of its process, `Hooks` has the lists. Here the phases are read off the
    lists. */
module Phases {
  import opened Environment
  import FamilyTree
  import opened Hooks
  import Sampling
  import opened Sched
  import opened Wrappers

  type Phase = Sampling.Phase

  function PhaseOf(task: Task, waiting: bool): Phase {
    if task.p.None? then Sampling.Exited else if waiting then Sampling.Waiting else Sampling.Live
  }

  /** Every task's process and phase. */
  datatype Stage = Stage(p: Option<Proc>, phase: Phase)

  ghost function Stages(tasks: Tasks, pending: set<FamilyTree.Ptr>): map<FamilyTree.Ptr, Stage> {
    map t | t in tasks :: Stage(tasks[t].p, PhaseOf(tasks[t], t in pending))
  }

  /** The switch, fork, migrate and exit hooks find a task on the list of a CPU exactly when it
      is live and its process is there; the exec and exit hooks on the wait list exactly when it
      is waiting. */
  lemma Found(h: Scheduler, t: FamilyTree.Ptr, c: Cpu)
    requires h.Valid() && t in h.tasks && c < |h.cpuList|
    ensures var s := Stages(h.tasks, h.pending)[t];
      && (t in h.cpuList[c] <==> s.phase == Sampling.Live && s.p.value in h.cpuOf && h.cpuOf[s.p.value] == c)
      && (t in h.waitList <==> s.phase == Sampling.Waiting)
  {
    hide FamilyOk, SharedOk, EnvOk, RbOk, RootsOk, UsesOk, HeapOk, LiveOk;
    assert t in h.waitList <==> t in Waiting(h.tasks, h.pending);
    assert t in h.cpuList[c] <==> t in RunningOn(h.tasks, h.pending, h.cpuOf, c);
  }

  /** What `Monitor` makes of a hook: a new task, a waiting one that goes live, one that exits,
      and nothing else. Unregistering takes only exited ones away. */
  ghost predicate Moves(op: Op, a: map<FamilyTree.Ptr, Stage>, b: map<FamilyTree.Ptr, Stage>) {
    match op
    case RegisterOp(_, p, user, _) =>
      Joins(a, b, Stage(Some(p), if user.options.exec then Sampling.Waiting else Sampling.Live))
    case ForkOp(_, p, _, _) => b == a || Joins(a, b, Stage(Some(p), Sampling.Live))
    case ExecOp(p) =>
      b == map t | t in a ::
        if a[t] == Stage(Some(p), Sampling.Waiting) then Stage(Some(p), Sampling.Live) else a[t]
    case ExitOp(p) =>
      b == map t | t in a :: if a[t].p == Some(p) then Stage(None, Sampling.Exited) else a[t]
    case UnregisterOp(_) => Leave(a, b)
    case _ => b == a
  }

  ghost predicate Joins(a: map<FamilyTree.Ptr, Stage>, b: map<FamilyTree.Ptr, Stage>, s: Stage) {
    exists t: FamilyTree.Ptr :: t !in a && b == a[t := s]
  }

  ghost predicate Leave(a: map<FamilyTree.Ptr, Stage>, b: map<FamilyTree.Ptr, Stage>) {
    && (forall t :: t in b ==> t in a && b[t] == a[t])
    && (forall t :: t in a && t !in b ==> a[t].phase == Sampling.Exited)
  }

  ghost predicate Moved(h: Scheduler, op: Op, tasks: Tasks, pending: set<FamilyTree.Ptr>)
    reads h
  {
    Moves(op, Stages(tasks, pending), Stages(h.tasks, h.pending))
  }

  /** Every hook moves the phases as the machine's steps do. */
  method Step(h: Scheduler, op: Op)
    requires h.Valid() && h.Allowed(op)
    modifies h
    ensures h.Valid() && Moved(h, op, old(h.tasks), old(h.pending))
  {
    hide Scheduler.Valid, Scheduler.Allowed, Moved;
    match op {
      case MmapOp => Elsewhere(h, op);
      case SpawnOp(_, _, _) => Elsewhere(h, op);
      case MigrateOp(_, _) => Elsewhere(h, op);
      case RegisterOp(pid, p, user, b) => Register(h, pid, p, user, b);
      case ExecOp(p) => Exec(h, p);
      case ForkOp(parent, p, pid, cpu) => Fork(h, parent, p, pid, cpu);
      case ExitOp(p) => Exit(h, p);
      case UnregisterOp(pid) => Unregister(h, pid);
    }
  }

  method Elsewhere(h: Scheduler, op: Op)
    requires h.Valid() && h.Allowed(op) && (op.MmapOp? || op.SpawnOp? || op.MigrateOp?)
    modifies h
    ensures h.Valid() && Moved(h, op, old(h.tasks), old(h.pending))
  {
    hide Scheduler.Valid, Stages;
    match op {
      case MmapOp => var _ := h.NewRb();
      case SpawnOp(p, pid, cpu) => h.Spawn(p, pid, cpu);
      case MigrateOp(p, dest) => h.Migrate(p, dest);
    }
  }

  method Register(h: Scheduler, pid: nat, p: Proc, user: Envir, b: FamilyTree.Ptr)
    requires h.Valid() && h.Allowed(RegisterOp(pid, p, user, b))
    modifies h
    ensures h.Valid() && Moved(h, RegisterOp(pid, p, user, b), old(h.tasks), old(h.pending))
  {
    hide Scheduler.Valid, Stages, Joins;
    ghost var tasks, pending := h.tasks, h.pending;
    var t, e := h.Register(pid, p, user, b);
    Registered(tasks, pending, t, h.tasks[t], user.options.exec);
  }

  method Exec(h: Scheduler, p: Proc)
    requires h.Valid() && h.Allowed(ExecOp(p))
    modifies h
    ensures h.Valid() && Moved(h, ExecOp(p), old(h.tasks), old(h.pending))
  {
    hide Scheduler.Valid, Stages, Moves, Single, TaskOf, Changed;
    assert p in h.cpuOf;
    hide Scheduler.Allowed;
    OneTask(h);
    Execed(h.tasks, h.pending, p);
    h.Exec(p);
  }

  method Fork(h: Scheduler, parent: Proc, p: Proc, pid: nat, cpu: Cpu)
    requires h.Valid() && h.Allowed(ForkOp(parent, p, pid, cpu))
    modifies h
    ensures h.Valid() && Moved(h, ForkOp(parent, p, pid, cpu), old(h.tasks), old(h.pending))
  {
    hide Scheduler.Valid, Stages, Joins, SameButRing;
    ghost var tasks, pending := h.tasks, h.pending;
    var found, c := h.Fork(parent, p, pid, cpu);
    Forked(tasks, h.tasks, pending, c, p);
  }

  method Exit(h: Scheduler, p: Proc)
    requires h.Valid() && h.Allowed(ExitOp(p))
    modifies h
    ensures h.Valid() && Moved(h, ExitOp(p), old(h.tasks), old(h.pending))
  {
    hide Scheduler.Valid, Stages, Moves, Single, TaskOf, Released;
    assert p in h.cpuOf;
    hide Scheduler.Allowed;
    OneTask(h);
    Retired(h.tasks, h.pending, p);
    h.Exit(p);
  }

  method Unregister(h: Scheduler, pid: nat)
    requires h.Valid() && h.Allowed(UnregisterOp(pid))
    modifies h
    ensures h.Valid() && Moved(h, UnregisterOp(pid), old(h.tasks), old(h.pending))
  {
    hide Scheduler.Valid, Stages, FamilyTree.Preorder, Elements, NoWriter, Leave, Quiet;
    Gone(h, pid);
    ghost var tasks, pending, fams, list := h.tasks, h.pending, h.fams, h.taskList;
    var err, r := h.Unregister(pid);
    Unregistered(tasks, h.tasks, pending, fams, list, pid, if err == -1 then None else Some(r));
  }

  /** No process has two tasks. */
  ghost predicate Single(tasks: Tasks) {
    forall t, u :: t in tasks && u in tasks && tasks[t].p.Some? && tasks[t].p == tasks[u].p ==> t == u
  }

  lemma OneTask(h: Scheduler)
    requires h.Valid()
    ensures Single(h.tasks)
  {
    hide FamilyOk, SharedOk, EnvOk, RbOk, RootsOk, UsesOk, HeapOk, ListsOk;
  }

  lemma Registered(tasks: Tasks, pending: set<FamilyTree.Ptr>, t: FamilyTree.Ptr, task: Task, exec: bool)
    requires t !in tasks && t !in pending && task.p.Some?
    ensures Joins(Stages(tasks, pending), Stages(tasks[t := task], pending + if exec then {t} else {}),
      Stage(task.p, if exec then Sampling.Waiting else Sampling.Live))
  {
    var a, s := Stages(tasks, pending), Stage(task.p, if exec then Sampling.Waiting else Sampling.Live);
    assert t !in a && Stages(tasks[t := task], pending + if exec then {t} else {}) == a[t := s];
  }

  lemma Execed(tasks: Tasks, pending: set<FamilyTree.Ptr>, p: Proc)
    requires Single(tasks)
    ensures var now := match TaskOf(tasks, p) case Some(t) => pending - {t} case None => pending;
      Moves(ExecOp(p), Stages(tasks, pending), Stages(tasks, now))
  {
    assert forall t :: t in tasks && tasks[t].p == Some(p) ==> TaskOf(tasks, p) == Some(t);
  }

  lemma Retired(tasks: Tasks, pending: set<FamilyTree.Ptr>, p: Proc)
    requires Single(tasks)
    ensures match TaskOf(tasks, p)
            case Some(t) => t in tasks &&
              Moves(ExitOp(p), Stages(tasks, pending), Stages(tasks[t := tasks[t].(p := None, rb := None)], pending))
            case None => Moves(ExitOp(p), Stages(tasks, pending), Stages(tasks, pending))
  {
    assert forall t :: t in tasks && tasks[t].p == Some(p) ==> TaskOf(tasks, p) == Some(t);
  }

  lemma Forked(tasks: Tasks, b: Tasks, pending: set<FamilyTree.Ptr>, c: FamilyTree.Ptr, p: Proc)
    requires c !in tasks && c !in pending
    requires b == tasks || exists child: Task :: child.p == Some(p) && SameButRing(b, tasks[c := child])
    ensures var a, now := Stages(tasks, pending), Stages(b, pending);
      now == a || Joins(a, now, Stage(Some(p), Sampling.Live))
  {
    hide Stages, Joins;
    if b != tasks {
      var child: Task :| child.p == Some(p) && SameButRing(b, tasks[c := child]);
      assert b.Keys == tasks.Keys + {c} && b[c].p == child.p;
      forall t | t in tasks
        ensures b[t].p == tasks[t].p
      {
        assert b[t].p == tasks[c := child][t].p;
      }
      OneMore(tasks, b, pending, c, p);
    }
  }

  lemma OneMore(tasks: Tasks, b: Tasks, pending: set<FamilyTree.Ptr>, c: FamilyTree.Ptr, p: Proc)
    requires c !in tasks && c !in pending && b.Keys == tasks.Keys + {c} && b[c].p == Some(p)
    requires forall t :: t in tasks ==> b[t].p == tasks[t].p
    ensures Joins(Stages(tasks, pending), Stages(b, pending), Stage(Some(p), Sampling.Live))
  {
    var a := Stages(tasks, pending);
    assert c !in a && Stages(b, pending) == a[c := Stage(Some(p), Sampling.Live)];
  }

  lemma Unregistered(tasks: Tasks, b: Tasks, pending: set<FamilyTree.Ptr>, fams: map<FamilyTree.Ptr, Family>,
                     list: seq<FamilyTree.Ptr>, pid: nat, root: Option<FamilyTree.Ptr>)
    requires Quiet(tasks, fams, list, pid)
    requires match root
             case None => b == tasks
             case Some(r) =>
               && r in list && r in tasks && tasks[r].pid == pid && r in fams
               && b == tasks - Elements(FamilyTree.Preorder(fams[r].tree))
    ensures Leave(Stages(tasks, pending), Stages(b, pending))
  {
    hide FamilyTree.Preorder;
  }

  /** Whoever would go with a root of this pid has exited. */
  ghost predicate Quiet(tasks: Tasks, fams: map<FamilyTree.Ptr, Family>, list: seq<FamilyTree.Ptr>, pid: nat) {
    forall r :: r in list && r in tasks && tasks[r].pid == pid && r in fams ==>
      forall x :: x in FamilyTree.Preorder(fams[r].tree) && x in tasks ==> tasks[x].p == None
  }

  lemma Gone(h: Scheduler, pid: nat)
    requires h.Valid() && h.Allowed(UnregisterOp(pid))
    ensures Quiet(h.tasks, h.fams, h.taskList, pid)
  {
    hide FamilyOk, SharedOk, EnvOk, RbOk, RootsOk, UsesOk, HeapOk, ListsOk, LiveOk, FamilyTree.Preorder;
    forall r | r in h.taskList && r in h.tasks && h.tasks[r].pid == pid && r in h.fams
      ensures forall x :: x in FamilyTree.Preorder(h.fams[r].tree) && x in h.tasks ==> h.tasks[x].p == None
    {
      IdleRoot(h.tasks, h.fams, h.rbs, r);
      QuietFamily(h.tasks, h.fams, h.rootOf, h.rbs, h.pending, h.cpuOf, h.waitList, h.cpuList, r);
    }
  }
}
