/** The scheduler hooks of driver/sched.c as methods that update kernel memory in place. */
module Hooks {
  import opened Wrappers
  import opened FamilyTree
  import opened Environment
  import opened Sched

  /** Anything that can happen to the monitored processes. */
  datatype Op =
    | MmapOp
    | SpawnOp(p: Proc, pid: nat, cpu: Cpu)
    | RegisterOp(pid: nat, p: Proc, user: Envir, b: Ptr)
    | ExecOp(p: Proc)
    | ForkOp(parent: Proc, p: Proc, pid: nat, cpu: Cpu)
    | MigrateOp(p: Proc, dest: Cpu)
    | ExitOp(p: Proc)
    | UnregisterOp(pid: nat)

  /** Addresses come from below brk; nothing is freed twice, nothing freed is allocated. */
  ghost predicate HeapOk(tasks: Tasks, envs: map<Ptr, Envir>, rbs: map<Ptr, Rb>, pending: set<Ptr>, brk: Ptr,
                         freed: seq<Ptr>, freedEnvs: seq<Ptr>) {
    && Below(tasks.Keys, brk) && Below(envs.Keys, brk) && Below(rbs.Keys, brk) && Below(pending, brk)
    && Distinct(freed) && (forall x :: x in freed ==> x < brk && x !in tasks)
    && Distinct(freedEnvs) && (forall x :: x in freedEnvs ==> x < brk && x !in envs)
  }

  ghost predicate Below(s: set<Ptr>, brk: Ptr) {
    forall x :: x in s ==> x < brk
  }

  /** Every live task has a process, a list and the pid that go together. */
  ghost predicate Placed(tasks: Tasks, pending: set<Ptr>, cpuOf: map<Proc, Cpu>, pidOf: map<Proc, nat>,
                         waitList: seq<Ptr>, cpuList: seq<seq<Ptr>>) {
    && LiveOk(tasks, cpuOf, |cpuList|) && ListsOk(tasks, pending, cpuOf, waitList, cpuList)
    && Named(tasks, pidOf, cpuOf)
  }

  class Scheduler {
    var tasks: Tasks                 // every struct smon_task that is allocated
    var envs: map<Ptr, Envir>        // every struct smon_envir that is allocated
    var rbs: map<Ptr, Rb>
    var taskList: seq<Ptr>           // sched.task_list
    var waitList: seq<Ptr>           // sched.wait_list
    var cpuList: seq<seq<Ptr>>       // sched.cpu_list[NR_CPUS]
    var cpuOf: map<Proc, Cpu>        // task_cpu of every process there is
    var pidOf: map<Proc, nat>        // and its pid
    var brk: Ptr                     // addresses from here on have never been allocated

    ghost var fams: map<Ptr, Family>
    ghost var rootOf: map<Ptr, Ptr>
    ghost var pending: set<Ptr>      // registered with the exec option, not yet exec'd
    ghost var freed: seq<Ptr>        // task structures freed, in order
    ghost var freedEnvs: seq<Ptr>
    ghost var uses: map<Ptr, seq<Use>>   // what each ring buffer has been used for, in order

    /** Everything but the run lists, which a task is put on last. */
    ghost predicate Core()
      reads this
    {
      && FamilyOk(tasks, fams, rootOf)
      && SharedOk(tasks, fams, rootOf)
      && EnvOk(tasks, envs)
      && StatOk(envs)
      && RbOk(tasks, rbs)
      && RootsOk(tasks, fams, rbs)
      && UsesOk(rbs, uses)
      && Lists(taskList, fams.Keys)
      && HeapOk(tasks, envs, rbs, pending, brk, freed, freedEnvs)
    }

    ghost predicate Valid()
      reads this
    {
      Core() && Placed(tasks, pending, cpuOf, pidOf, waitList, cpuList)
    }

    /** `smon_sched_init`. */
    constructor (nCpus: nat)
      ensures Valid() && |cpuList| == nCpus && tasks == map[] && fams == map[]
    {
      tasks, envs, rbs, brk := map[], map[], map[], 0;
      taskList, waitList := [], [];
      cpuList := seq(nCpus, _ => []);
      cpuOf, pidOf := map[], map[];
      fams, rootOf, pending, freed, freedEnvs, uses := map[], map[], {}, [], [], map[];
    }

    /** The task of process p on a run list: `list_for_each_entry` with `task->p == p`. */
    method FindOn(list: seq<Ptr>, p: Proc) returns (t: Option<Ptr>)
      requires forall x :: x in list ==> x in tasks
      ensures Finds(tasks, list, p, t)
    {
      t := None;
      for i := 0 to |list|
        invariant forall k :: 0 <= k < i ==> tasks[list[k]].p != Some(p)
      {
        if tasks[list[i]].p == Some(p) {
          return Some(list[i]);
        }
      }
    }

    /** A task has been put in front of the list of p's CPU. */
    ghost predicate PutOn(cpuList0: seq<seq<Ptr>>, t: Ptr, p: Proc)
      reads this`cpuList, this`cpuOf
    {
      p in cpuOf && cpuOf[p] < |cpuList0| && cpuList == cpuList0[cpuOf[p] := [t] + cpuList0[cpuOf[p]]]
    }

    /** `smon_sample_write` on the ring buffer of a live task. */
    method WriteRb(t: Ptr, m: Msg)
      requires Core() && t in tasks && tasks[t].rb.Some? && m != EofMsg
      modifies this`rbs, this`uses
      ensures Core() && Changed(old(rbs), rbs, tasks[t].rb, 0, [m])
    {
      hide FamilyOk, SharedOk, EnvOk, StatOk, RbOk, RootsOk, UsesOk, Lists, HeapOk, Play;
      var b := tasks[t].rb.value;
      LiveWriter(tasks, rbs, t);
      LogKeeps(tasks, envs, rbs, rbs[b := rbs[b].(log := rbs[b].log + [m])], fams, pending, brk, freed, freedEnvs, b);
      LogWrite(tasks, rbs, b, m);
      UseMore(rbs, uses, b, WriteUse(m));
      uses := uses[b := uses[b] + [WriteUse(m)]];
      rbs := rbs[b := rbs[b].(log := rbs[b].log + [m])];
    }

    /** `smon_get_rb`: by a root to be, or by a child of somebody who holds it. */
    method GetRb(b: Ptr)
      requires UsesOk(rbs, uses) && b in rbs && (rbs[b].active > 0 || rbs[b] == Rb(0, []))
      modifies this`rbs, this`uses
      ensures UsesOk(rbs, uses) && rbs == old(rbs)[b := old(rbs)[b].(active := old(rbs)[b].active + 1)]
    {
      hide UsesOk, Play;
      if rbs[b].active > 0 {
        UseMore(rbs, uses, b, GetUse);
        uses := uses[b := uses[b] + [GetUse]];
      } else {
        UseFirst(rbs, uses, b);
        uses := uses[b := []];
      }
      rbs := rbs[b := rbs[b].(active := rbs[b].active + 1)];
    }

    /** `smon_release_rb`. */
    method ReleaseRb(b: Ptr)
      requires UsesOk(rbs, uses) && b in rbs && rbs[b].active > 0
      modifies this`rbs, this`uses
      ensures UsesOk(rbs, uses) && Released(old(rbs), rbs, Some(b), [])
    {
      hide UsesOk, Play;
      UseMore(rbs, uses, b, ReleaseUse);
      uses := uses[b := uses[b] + [ReleaseUse]];
      rbs := rbs[b := rbs[b].(active := rbs[b].active - 1)];
      if rbs[b].active == 0 {
        rbs := rbs[b := rbs[b].(log := rbs[b].log + [EofMsg])];
      }
      LetGo(old(rbs), rbs, b);
      assert rbs == old(rbs)[b := Release(old(rbs)[b])];
    }

    /** mmap by a tool: a ring buffer nobody writes to yet. */
    method NewRb() returns (b: Ptr)
      requires Valid()
      modifies this`rbs, this`brk
      ensures Valid() && b !in old(rbs) && rbs == old(rbs)[b := Rb(0, [])]
    {
      hide FamilyOk, SharedOk, EnvOk, StatOk, RbOk, RootsOk, UsesOk, LiveOk, ListsOk, Named, Lists, HeapOk;
      UseFirst(rbs, uses, brk);
      b := brk;
      Unused(tasks, envs, rbs, pending, brk, freed, freedEnvs);
      NewRbOk(tasks, rbs, b);
      RootsHere(tasks, fams, rbs);
      RootsKept(tasks, tasks, fams, fams, rbs, rbs[b := Rb(0, [])]);
      HeapGrow(tasks, envs, rbs, pending, brk, freed, freedEnvs,
               tasks, envs, rbs[b := Rb(0, [])], pending, brk + 1);
      brk := brk + 1;
      rbs := rbs[b := Rb(0, [])];
    }

    /** A process outside any monitored family appears. */
    method Spawn(p: Proc, pid: nat, cpu: Cpu)
      requires Valid() && p !in cpuOf && cpu < |cpuList|
      modifies this`cpuOf, this`pidOf
      ensures Valid() && cpuOf == old(cpuOf)[p := cpu] && pidOf == old(pidOf)[p := pid]
    {
      hide FamilyOk, SharedOk, EnvOk, StatOk, RbOk, RootsOk, UsesOk, LiveOk, ListsOk, Named, Lists, HeapOk;
      SpawnLists(tasks, pending, cpuOf, waitList, cpuList, p, cpu);
      NamedSpawn(tasks, pidOf, cpuOf, p, pid, cpu);
      cpuOf := cpuOf[p := cpu];
      pidOf := pidOf[p := pid];
    }

    /** `smon_create_task`. */
    method NewTask(pid: nat, p: Proc, user: Envir, b: Ptr) returns (t: Ptr, e: Ptr)
      requires UsesOk(rbs, uses) && b in rbs && rbs[b] == Rb(0, [])
      modifies this`tasks, this`envs, this`rbs, this`brk, this`uses
      ensures e == old(brk) && t == e + 1 && brk == e + 2 && UsesOk(rbs, uses)
      ensures tasks == old(tasks)[t := Task(pid, Some(p), e, Some(b), t, t, 0, Some(b))]
      ensures envs == old(envs)[e := CreateEnvir(user)] && rbs == old(rbs)[b := Rb(1, [])]
    {
      hide UsesOk, CreateEnvir;
      e, t, brk := brk, brk + 1, brk + 2;
      var envir := NewEnvir(user);
      envs := envs[e := envir];
      GetRb(b);
      tasks := tasks[t := Task(pid, Some(p), e, Some(b), t, t, 0, Some(b))];
    }

    /** The same, with a place in the global task list. */
    method CreateTask(pid: nat, p: Proc, user: Envir, b: Ptr) returns (t: Ptr, ghost e: Ptr)
      requires Core()
      requires b in rbs && rbs[b] == Rb(0, [])
      modifies this`tasks, this`envs, this`rbs, this`brk, this`taskList, this`fams, this`rootOf, this`uses
      ensures Core() && t !in old(tasks) && t !in pending && t < brk
      ensures tasks == old(tasks)[t := Task(pid, Some(p), e, Some(b), t, t, 0, Some(b))]
      ensures e !in old(envs) && envs == old(envs)[e := CreateEnvir(user)]
      ensures fams == old(fams)[t := Family(Node(t, []), e, b)]
      ensures rbs == old(rbs)[b := Rb(1, [])]
    {
      hide FamilyOk, SharedOk, EnvOk, StatOk, RbOk, RootsOk, UsesOk, Lists, HeapOk, CreateEnvir;
      Unused(tasks, envs, rbs, pending, brk, freed, freedEnvs);
      t, e := NewTask(pid, p, user, b);
      assert t !in old(tasks) && t !in pending && e !in old(envs);
      ghost var f := Family(Node(t, []), e, b);
      fams := fams[t := f];
      rootOf := rootOf[t := t];
      taskList := [t] + taskList;
      StatCreate(old(envs), e, user);
      assert Core() by {
        RegisterCore(old(tasks), old(envs), old(rbs), old(fams), old(rootOf), old(taskList), t, tasks[t], user, f);
        HeapGrow(old(tasks), old(envs), old(rbs), pending, e, freed, freedEnvs, tasks, envs, rbs, pending, brk);
      }
    }

    /** `smon_sched_register_task`, for a process that is not yet monitored and a ring buffer
        of its own. */
    method Register(pid: nat, p: Proc, user: Envir, b: Ptr)
      returns (t: Ptr, ghost e: Ptr)
      requires Valid() && p in cpuOf && p in pidOf && pidOf[p] == pid
      requires b in rbs && rbs[b] == Rb(0, []) && forall u :: u in tasks ==> tasks[u].p != Some(p)
      modifies this`tasks, this`envs, this`rbs, this`brk, this`taskList, this`fams, this`rootOf
      modifies this`waitList, this`cpuList, this`pending, this`uses
      ensures Valid() && t !in old(tasks) && t !in old(pending) && |cpuList| == old(|cpuList|)
      ensures tasks == old(tasks)[t := Task(pid, Some(p), e, Some(b), t, t, 0, Some(b))]
      ensures e !in old(envs) && envs == old(envs)[e := CreateEnvir(user)]
      ensures fams == old(fams)[t := Family(Node(t, []), e, b)]
      ensures pending == old(pending) + if user.options.exec then {t} else {}
      ensures rbs == old(rbs)[b := Rb(1, if user.options.exec then [] else [InfoMsg])]
    {
      hide FamilyOk, SharedOk, EnvOk, StatOk, RbOk, RootsOk, UsesOk, LiveOk, ListsOk, Named, Lists, HeapOk, CreateEnvir;
      t, e := CreateTask(pid, p, user, b);
      RegisterLists(old(tasks), pending, cpuOf, waitList, cpuList, t, tasks[t], user.options.exec);
      NamedAdd(old(tasks), tasks, pidOf, cpuOf, t, tasks[t]);
      if user.options.exec {
        HeapGrow(tasks, envs, rbs, pending, brk, freed, freedEnvs, tasks, envs, rbs, pending + {t}, brk);
        pending := pending + {t};
        waitList := [t] + waitList;
      } else {
        var cpu := cpuOf[p];
        cpuList := cpuList[cpu := [t] + cpuList[cpu]];
        assert [] + [InfoMsg] == [InfoMsg];
        WriteRb(t, InfoMsg);
        assert rbs == old(rbs)[b := Rb(1, [InfoMsg])];
      }
    }

    /** `smon_sched_process_exec`: a waiting task moves to the list of its CPU, once. */
    method Exec(p: Proc)
      requires Valid() && p in cpuOf
      modifies this`rbs, this`waitList, this`cpuList, this`pending, this`uses
      ensures Valid() && |cpuList| == old(|cpuList|) && Execed(old(pending), old(rbs), p)
    {
      hide FamilyOk, SharedOk, EnvOk, StatOk, RbOk, RootsOk, UsesOk, LiveOk, ListsOk, Named, Lists, HeapOk;
      Whereabouts(tasks, pending, cpuOf, waitList, cpuList, p);
      var found := FindOn(waitList, p);
      if found.Some? {
        var t := found.value;
        ExecLists(tasks, pending, cpuOf, waitList, cpuList, t);
        waitList := Without(waitList, t);
        HeapGrow(tasks, envs, rbs, pending, brk, freed, freedEnvs, tasks, envs, rbs, pending - {t}, brk);
        pending := pending - {t};
        var cpu := cpuOf[p];
        if tasks[t].extra.Some? {
          LiveTask(tasks, rbs, cpuOf, |cpuList|, t);
          ExtraRing(tasks, fams, rootOf, t);
          WriteRb(t, InfoMsg);
        }
        cpuList := cpuList[cpu := [t] + cpuList[cpu]];
      }
    }

    /** The process's task is waiting no longer; a root that was has its INFO sample written. */
    ghost predicate Execed(pending0: set<Ptr>, rbs0: map<Ptr, Rb>, p: Proc)
      reads this`tasks, this`pending, this`rbs
    {
      match TaskOf(tasks, p)
      case Some(t) =>
        && pending == pending0 - {t} && t in tasks && tasks[t].p == Some(p)
        && if t in pending0 && tasks[t].extra.Some? then Changed(rbs0, rbs, tasks[t].extra, 0, [InfoMsg])
           else rbs == rbs0
      case None => pending == pending0 && rbs == rbs0
    }

    /** `smon_sched_migrate_task`, called just before the process moves to dest. */
    method Migrate(p: Proc, dest: Cpu)
      requires Valid() && p in cpuOf && dest < |cpuList|
      modifies this`rbs, this`cpuList, this`cpuOf, this`uses
      ensures Valid() && |cpuList| == old(|cpuList|) && cpuOf == old(cpuOf)[p := dest]
      ensures Migrated(old(rbs), p, old(cpuOf[p]), dest)
    {
      hide FamilyOk, SharedOk, EnvOk, StatOk, RbOk, RootsOk, UsesOk, LiveOk, ListsOk, Named, Lists, HeapOk;
      hide TaskOf, Without, Changed;
      Whereabouts(tasks, pending, cpuOf, waitList, cpuList, p);
      var oldCpu := cpuOf[p];
      var found := FindOn(cpuList[oldCpu], p);
      if found.Some? {
        var t := found.value;
        LiveTask(tasks, rbs, cpuOf, |cpuList|, t);
        EnvLive(tasks, envs, t);
        Moved(tasks, pending, cpuOf, pidOf, waitList, cpuList, p, dest, t);
        cpuList := cpuList[oldCpu := Without(cpuList[oldCpu], t)];
        if envs[tasks[t].envir].options.cpu {
          WriteRb(t, CpuMsg(tasks[t].pid, oldCpu, dest));
        }
        cpuList := cpuList[dest := [t] + cpuList[dest]];
      } else {
        Stayed(tasks, envs, pending, cpuOf, pidOf, waitList, cpuList, p, dest);
      }
      cpuOf := cpuOf[p := dest];
    }

    /** With the cpu option a CPU sample names the process and both CPUs. */
    ghost predicate Migrated(rbs0: map<Ptr, Rb>, p: Proc, from: Cpu, dest: Cpu)
      reads this`tasks, this`pending, this`envs, this`rbs, this`pidOf
    {
      match TaskOf(tasks, p)
      case Some(t) =>
        && t in tasks && tasks[t].p == Some(p) && tasks[t].envir in envs && p in pidOf
        && if t !in pending && envs[tasks[t].envir].options.cpu
           then Changed(rbs0, rbs, tasks[t].rb, 0, [CpuMsg(pidOf[p], from, dest)])
           else rbs == rbs0
      case None => rbs == rbs0
    }

    /** `smon_create_child`. */
    method NewChild(parent: Ptr, p: Proc) returns (c: Ptr)
      requires parent in tasks && brk !in tasks && tasks[parent].next in tasks && p in pidOf
      requires tasks[parent].envir in envs && UsesOk(rbs, uses)
      requires tasks[parent].rb.Some? && tasks[parent].rb.value in rbs && rbs[tasks[parent].rb.value].active > 0
      modifies this`tasks, this`envs, this`rbs, this`brk, this`uses
      ensures UsesOk(rbs, uses) && c == old(brk) && brk == c + 1
      ensures tasks == ForkTasks(old(tasks), parent, c, ChildOf(old(tasks)[parent], p, pidOf[p], c))
      ensures var e := old(tasks)[parent].envir; envs == old(envs)[e := old(envs)[e].(count := old(envs)[e].count + 1)]
      ensures rbs == Joined(old(rbs), old(tasks)[parent].rb)
    {
      hide UsesOk, ForkTasks;
      c, brk := brk, brk + 1;
      var e, b := tasks[parent].envir, tasks[parent].rb;
      envs := envs[e := envs[e].(count := envs[e].count + 1)];
      GetRb(b.value);
      AddToFamily(parent, c, Task(pidOf[p], Some(p), e, b, c, c, 0, None));
    }

    /** The same for a live parent, and the child's place in the parent's family. */
    method CreateChild(parent: Ptr, p: Proc) returns (c: Ptr)
      requires Core() && parent in tasks && tasks[parent].rb.Some? && p in pidOf
      modifies this`tasks, this`envs, this`rbs, this`brk, this`fams, this`rootOf, this`uses
      ensures Core() && ChildCreated(old(tasks), old(envs), old(fams), old(rootOf), old(rbs), parent, p, c)
      ensures c !in pending
    {
      hide FamilyOk, SharedOk, EnvOk, StatOk, RbOk, RootsOk, UsesOk, Lists, HeapOk, AddChild, ForkTasks, SameButRing;
      hide Changed, Grown, Joined;
      Unused(tasks, envs, rbs, pending, brk, freed, freedEnvs);
      Rooted(tasks, fams, rootOf, parent);
      LiveWriter(tasks, rbs, parent);
      EnvLive(tasks, envs, parent);
      ghost var e, r, child := tasks[parent].envir, rootOf[parent], ChildOf(tasks[parent], p, pidOf[p], brk);
      ForkCore(tasks, envs, rbs, fams, rootOf, taskList, parent, brk, child);
      JoinedOne(rbs, tasks[parent].rb);
      ForkHeap(tasks, envs, rbs, pending, brk, freed, freedEnvs, ForkTasks(tasks, parent, brk, child),
               envs[e := envs[e].(count := envs[e].count + 1)], Joined(rbs, tasks[parent].rb), brk, child);
      StatCount(envs, e, envs[e].count + 1);
      c := NewChild(parent, p);
      fams := Grown(fams, r, parent, c);
      rootOf := rootOf[c := r];
    }

    /** Structure t is p's, under p's pid. */
    ghost predicate IsOf(t: Ptr, p: Proc)
      reads this`tasks, this`pidOf
    {
      t in tasks && tasks[t].p == Some(p) && p in pidOf && tasks[t].pid == pidOf[p]
    }

    /** The new structure c shares t's environment and ring buffer, both counted once more,
        and is t's newest child. */
    ghost predicate ChildCreated(tasks0: Tasks, envs0: map<Ptr, Envir>, fams0: map<Ptr, Family>,
                                 rootOf0: map<Ptr, Ptr>, rbs0: map<Ptr, Rb>, t: Ptr, p: Proc, c: Ptr)
      reads this`tasks, this`fams, this`envs, this`rbs, this`pidOf
    {
      && t in tasks0 && t in rootOf0 && rootOf0[t] in fams0 && tasks0[t].envir in envs0
      && c !in tasks0 && p in pidOf && SameButRing(tasks, tasks0[c := ChildOf(tasks0[t], p, pidOf[p], c)])
      && fams == Grown(fams0, rootOf0[t], t, c)
      && envs == envs0[tasks0[t].envir := envs0[tasks0[t].envir].(count := envs0[tasks0[t].envir].count + 1)]
      && Changed(rbs0, rbs, tasks0[t].rb, 1, [])
    }

    /** `smon_sched_register_child`. */
    method RegisterChild(parent: Ptr, p: Proc) returns (c: Ptr)
      requires Valid() && parent in tasks && tasks[parent].p.Some? && p in cpuOf && p in pidOf
      requires forall t :: t in tasks ==> tasks[t].p != Some(p)
      modifies this`tasks, this`envs, this`rbs, this`brk, this`fams, this`rootOf, this`cpuList, this`uses
      ensures Valid() && |cpuList| == old(|cpuList|) && c !in pending
      ensures ChildCreated(old(tasks), old(envs), old(fams), old(rootOf), old(rbs), parent, p, c)
      ensures PutOn(old(cpuList), c, p) && IsOf(c, p)
    {
      hide FamilyOk, SharedOk, EnvOk, StatOk, RbOk, RootsOk, UsesOk, LiveOk, ListsOk, Named, Lists, HeapOk;
      hide Grown, SameButRing, Changed;
      ghost var was := tasks;
      LiveTask(tasks, rbs, cpuOf, |cpuList|, parent);
      c := CreateChild(parent, p);
      ForkLists(was, tasks, pending, cpuOf, waitList, cpuList, c, ChildOf(was[parent], p, pidOf[p], c), cpuOf[p]);
      NamedAdd(was, tasks, pidOf, cpuOf, c, ChildOf(was[parent], p, pidOf[p], c));
      TheChild(was, tasks, c, ChildOf(was[parent], p, pidOf[p], c));
      var cpu := cpuOf[p];
      cpuList := cpuList[cpu := [c] + cpuList[cpu]];
    }

    /** `smon_sched_process_fork`: a running monitored parent takes its child in. */
    method Fork(parent: Proc, p: Proc, pid: nat, cpu: Cpu) returns (found: Option<Ptr>, ghost c: Ptr)
      requires Valid() && parent in cpuOf && p !in cpuOf && cpu < |cpuList|
      modifies this`tasks, this`envs, this`rbs, this`brk, this`fams, this`rootOf, this`cpuList, this`uses
      modifies this`cpuOf, this`pidOf
      ensures Valid() && |cpuList| == old(|cpuList|) && cpuOf == old(cpuOf)[p := cpu] && pidOf == old(pidOf)[p := pid]
      ensures c !in old(tasks) && c !in pending
      ensures old(cpuOf)[parent] < |old(cpuList)|
        && Finds(old(tasks), old(cpuList)[old(cpuOf)[parent]], parent, found)
      ensures if found.Some?
        then Forked(old(tasks), old(envs), old(fams), old(rootOf), old(rbs), old(cpuList), found.value, p, c)
        else tasks == old(tasks) && fams == old(fams) && envs == old(envs) && rbs == old(rbs)
             && cpuList == old(cpuList)
    {
      hide FamilyOk, SharedOk, EnvOk, StatOk, RbOk, RootsOk, UsesOk, LiveOk, ListsOk, Named, Lists, HeapOk;
      hide IsOf, PutOn, Inherits, Forked;
      c := brk;
      Unused(tasks, envs, rbs, pending, brk, freed, freedEnvs);
      SpawnLists(tasks, pending, cpuOf, waitList, cpuList, p, cpu);
      NotYet(tasks, cpuOf, |cpuList|, p);
      NamedSpawn(tasks, pidOf, cpuOf, p, pid, cpu);
      Whereabouts(tasks, pending, cpuOf, waitList, cpuList, parent);
      cpuOf := cpuOf[p := cpu];
      pidOf := pidOf[p := pid];
      found := FindOn(cpuList[cpuOf[parent]], parent);
      if found.Some? {
        c := ForkFound(found.value, p);
      }
    }

    /** What a fork of task t leaves: with the inherit option a monitored child, under its own
        pid and on the list of its own CPU, and with the fork option a FORK sample. */
    ghost predicate Forked(tasks0: Tasks, envs0: map<Ptr, Envir>, fams0: map<Ptr, Family>, rootOf0: map<Ptr, Ptr>,
                           rbs0: map<Ptr, Rb>, cpuList0: seq<seq<Ptr>>, t: Ptr, p: Proc, c: Ptr)
      reads this`tasks, this`fams, this`envs, this`rbs, this`pidOf, this`cpuList, this`cpuOf
    {
      && t in tasks0 && t in rootOf0 && rootOf0[t] in fams0 && tasks0[t].envir in envs0 && p in pidOf
      && var e, o := tasks0[t].envir, envs0[tasks0[t].envir].options;
      && (if o.inherit then
            && c !in tasks0 && SameButRing(tasks, tasks0[c := ChildOf(tasks0[t], p, pidOf[p], c)])
            && IsOf(c, p) && PutOn(cpuList0, c, p)
            && fams == Grown(fams0, rootOf0[t], t, c)
            && envs == envs0[e := envs0[e].(count := envs0[e].count + 1)]
          else tasks == tasks0 && fams == fams0 && envs == envs0 && cpuList == cpuList0)
      && Changed(rbs0, rbs, tasks0[t].rb, if o.inherit then 1 else 0,
                 if o.fork then [ForkMsg(tasks0[t].pid, pidOf[p])] else [])
    }

    method ForkFound(t: Ptr, p: Proc) returns (ghost c: Ptr)
      requires Valid() && t in tasks && tasks[t].p.Some? && p in cpuOf && p in pidOf
      requires forall u :: u in tasks ==> tasks[u].p != Some(p)
      modifies this`tasks, this`envs, this`rbs, this`brk, this`fams, this`rootOf, this`cpuList, this`uses
      ensures Valid() && |cpuList| == old(|cpuList|)
      ensures c !in old(tasks) && c !in pending
      ensures Forked(old(tasks), old(envs), old(fams), old(rootOf), old(rbs), old(cpuList), t, p, c)
    {
      hide FamilyOk, SharedOk, EnvOk, StatOk, RbOk, RootsOk, UsesOk, LiveOk, ListsOk, Named, Lists, HeapOk, Grown;
      hide IsOf, PutOn, Changed, SameButRing;
      c := brk;
      Unused(tasks, envs, rbs, pending, brk, freed, freedEnvs);
      EnvLive(tasks, envs, t);
      Rooted(tasks, fams, rootOf, t);
      LiveTask(tasks, rbs, cpuOf, |cpuList|, t);
      var o := envs[tasks[t].envir].options;
      Unchanged(rbs, tasks[t].rb);
      if o.inherit {
        c := RegisterChild(t, p);
        TheParent(old(tasks), tasks, c, ChildOf(old(tasks)[t], p, pidOf[p], c), t);
      }
      if o.fork {
        LiveTask(tasks, rbs, cpuOf, |cpuList|, t);
        ghost var joined := rbs;
        WriteRb(t, ForkMsg(tasks[t].pid, pidOf[p]));
        Behind(old(rbs), joined, rbs, tasks[t].rb, if o.inherit then 1 else 0, [ForkMsg(tasks[t].pid, pidOf[p])]);
      }
    }

    /** `smon_sched_process_exit`: the task leaves its list, its last sample is written, and
        it lets go of the process and the ring buffer. */
    method Exit(p: Proc)
      requires Valid() && p in cpuOf
      modifies this`tasks, this`rbs, this`waitList, this`cpuList, this`cpuOf, this`pidOf, this`uses
      ensures Valid() && |cpuList| == old(|cpuList|) && cpuOf == old(cpuOf) - {p} && pidOf == old(pidOf) - {p}
      ensures Exited(old(tasks), old(pidOf), old(rbs), p)
    {
      hide FamilyOk, SharedOk, EnvOk, StatOk, RbOk, RootsOk, UsesOk, LiveOk, ListsOk, Named, Lists, HeapOk, Released;
      hide TaskOf;
      var found, listed := Unlist(p);
      if found.Some? {
        Retire(found.value, listed);
      }
      cpuOf := cpuOf - {p};
      pidOf := pidOf - {p};
    }

    /** list_del from whichever list p's task is on. */
    method Unlist(p: Proc) returns (found: Option<Ptr>, listed: bool)
      requires Valid() && p in cpuOf
      modifies this`waitList, this`cpuList
      ensures |cpuList| == old(|cpuList|) && found == TaskOf(tasks, p)
      ensures match found
              case Some(t) =>
                && t in tasks && tasks[t].rb.Some? && p in pidOf && tasks[t].pid == pidOf[p]
                && (listed <==> t !in pending)
                && Placed(tasks[t := tasks[t].(p := None, rb := None)], pending, cpuOf - {p}, pidOf - {p},
                          waitList, cpuList)
              case None => Placed(tasks, pending, cpuOf - {p}, pidOf - {p}, waitList, cpuList)
    {
      hide FamilyOk, SharedOk, EnvOk, StatOk, RbOk, RootsOk, UsesOk, LiveOk, ListsOk, Named, Lists, HeapOk;
      Whereabouts(tasks, pending, cpuOf, waitList, cpuList, p);
      var cpu := cpuOf[p];
      listed := true;
      found := FindOn(cpuList[cpu], p);
      if found.Some? {
        ExitLists(tasks, pending, cpuOf, waitList, cpuList, found.value);
        NamedExit(tasks, pidOf, cpuOf, |cpuList|, found.value, p);
        cpuList := cpuList[cpu := Without(cpuList[cpu], found.value)];
        return;
      }
      listed := false;
      found := FindOn(waitList, p);
      if found.Some? {
        ExitLists(tasks, pending, cpuOf, waitList, cpuList, found.value);
        NamedExit(tasks, pidOf, cpuOf, |cpuList|, found.value, p);
        waitList := Without(waitList, found.value);
      } else {
        ReapLists(tasks, pending, cpuOf, waitList, cpuList, p);
        NamedReap(tasks, pidOf, cpuOf, p);
      }
    }

    /** The task has let go of process and ring buffer; its last sample, if it was on a run
        list, is behind what was in the ring buffer, under the pid of the process. */
    ghost predicate Exited(tasks0: Tasks, pidOf0: map<Proc, nat>, rbs0: map<Ptr, Rb>, p: Proc)
      reads this`tasks, this`rbs, this`pending
    {
      match TaskOf(tasks0, p)
      case Some(t) =>
        && t in tasks0 && p in pidOf0 && tasks == tasks0[t := tasks0[t].(p := None, rb := None)]
        && Released(rbs0, rbs, tasks0[t].rb, if t in pending then [] else [PmcMsg(pidOf0[p])])
      case None => tasks == tasks0 && rbs == rbs0
    }

    /** `task->p = NULL`, `smon_release_rb`, `task->rb = NULL`, after `smon_sample_save` for a
        task that was on a run list. */
    method Retire(t: Ptr, sampled: bool)
      requires Core() && t in tasks && tasks[t].rb.Some?
      modifies this`tasks, this`rbs, this`uses
      ensures Core() && tasks == old(tasks)[t := old(tasks)[t].(p := None, rb := None)]
      ensures Released(old(rbs), rbs, old(tasks)[t].rb, if sampled then [PmcMsg(old(tasks)[t].pid)] else [])
    {
      hide FamilyOk, SharedOk, EnvOk, StatOk, RbOk, RootsOk, UsesOk, Lists, HeapOk, Released, Changed;
      if sampled {
        WriteRb(t, PmcMsg(tasks[t].pid));
      }
      var b := tasks[t].rb.value;
      LiveWriter(tasks, rbs, t);
      var gone := tasks[t := tasks[t].(p := None, rb := None)];
      ExitRb(tasks, rbs, t);
      RetireCore(tasks, gone, envs, fams, rootOf, t);
      RetireHeap(tasks, gone, envs, rbs, fams, pending, brk, freed, freedEnvs, t);
      ghost var sent := rbs;
      ReleaseRb(b);
      LetGo(sent, rbs, b);
      if sampled {
        LastWords(old(rbs), sent, rbs, b, PmcMsg(tasks[t].pid));
      }
      tasks := gone;
    }

    /** `smon_destroy_task`. */
    method DestroyTask(t: Ptr)
      requires t in tasks && tasks[t].envir in envs && envs[tasks[t].envir].count >= 1
      requires tasks[t].rb.Some? ==> tasks[t].rb.value in rbs && rbs[tasks[t].rb.value].active > 0
      modifies this`tasks, this`envs, this`rbs, this`freed, this`freedEnvs
      ensures tasks == old(tasks) - {t} && freed == old(freed) + [t]
      ensures if old(tasks)[t].rb.Some? then Released(old(rbs), rbs, old(tasks)[t].rb, []) else rbs == old(rbs)
      ensures var e := old(tasks)[t].envir;
        if old(envs)[e].count == 1 then envs == old(envs) - {e} && freedEnvs == old(freedEnvs) + [e]
        else envs == old(envs)[e := old(envs)[e].(count := old(envs)[e].count - 1)] && freedEnvs == old(freedEnvs)
    {
      hide Released;
      if tasks[t].rb.Some? {
        var b := tasks[t].rb.value;
        rbs := rbs[b := rbs[b].(active := rbs[b].active - 1)];
        if rbs[b].active == 0 {
          rbs := rbs[b := rbs[b].(log := rbs[b].log + [EofMsg])];
        }
        LetGo(old(rbs), rbs, b);
        assert rbs == old(rbs)[b := Release(old(rbs)[b])];
      }
      var e := tasks[t].envir;
      if envs[e].count == 1 {
        envs := envs - {e};
        freedEnvs := freedEnvs + [e];
      } else {
        envs := envs[e := envs[e].(count := envs[e].count - 1)];
      }
      tasks := tasks - {t};
      freed := freed + [t];
    }

    /** The assignments of list_del. */
    method Unlink(t: Ptr)
      requires t in tasks && tasks[t].next in tasks && tasks[t].prev in tasks
      modifies this`tasks
      ensures tasks == ListDel(old(tasks), t)
    {
      var next, prev := tasks[t].next, tasks[t].prev;
      tasks := tasks[next := tasks[next].(prev := prev)];
      tasks := tasks[prev := tasks[prev].(next := next)];
    }

    /** `smon_sched_unregister_children`: `list_for_each_entry_safe` round the root's ring
        destroys each descendant once, in preorder, and nothing else. */
    method UnregisterChildren(root: Ptr, ghost env: Ptr, ghost kids: seq<Ptr>)
      requires Sweeping(tasks, envs, tasks, envs, root, env, [], kids)
      modifies this`tasks, this`envs, this`rbs, this`freed, this`freedEnvs
      ensures Sweeping(old(tasks), old(envs), tasks, envs, root, env, kids, [])
      ensures freed == old(freed) + kids && freedEnvs == old(freedEnvs) && rbs == old(rbs)
    {
      hide Ring, EnvOk, ListDel, Swept;
      SweepHead(tasks, envs, tasks, envs, root, env, [], kids);
      var child := tasks[root].next;
      ghost var done, rest := [], kids;
      while child != root
        invariant kids == done + rest && freed == old(freed) + done
        invariant Sweeping(old(tasks), old(envs), tasks, envs, root, env, done, rest)
        invariant child == if rest == [] then root else rest[0]
        invariant freedEnvs == old(freedEnvs) && rbs == old(rbs)
        decreases |rest|
      {
        SweepStep(old(tasks), old(envs), tasks, envs, root, env, done, rest);
        var next := tasks[child].next;
        Unlink(child);
        DestroyTask(child);
        assert done + rest == (done + [child]) + rest[1..];
        done, rest := done + [child], rest[1..];
        SweepHead(old(tasks), old(envs), tasks, envs, root, env, done, rest);
        child := next;
      }
      SweepHead(old(tasks), old(envs), tasks, envs, root, env, done, rest);
      assert done == kids && rest == [];
    }

    /** `smon_sched_unregister_task`, once the family's ring buffer has no writer left: the
        whole family is freed, descendants in preorder and then the root r; the environment is
        freed with the root, and nothing else in memory changes. */
    method Unregister(pid: nat) returns (err: int, ghost r: Ptr)
      requires Valid()
      requires forall q :: q in taskList && q in tasks && tasks[q].pid == pid ==> NoWriter(tasks[q], rbs)
      modifies this`tasks, this`envs, this`rbs, this`taskList
      modifies this`fams, this`rootOf, this`freed, this`freedEnvs
      ensures Valid() && rbs == old(rbs)
      ensures err == -1 <==> forall q :: q in old(taskList) && q in old(tasks) ==> old(tasks)[q].pid != pid
      ensures err == -1 ==> tasks == old(tasks) && envs == old(envs) && freed == old(freed)
      ensures err != -1 ==> err == 0 && r in old(taskList) && r in old(tasks) && old(tasks)[r].pid == pid
      ensures err != -1 ==> r in old(fams)
      ensures err != -1 ==> (
        && tasks == old(tasks) - Elements(Preorder(old(fams)[r].tree)) && fams == old(fams) - {r}
        && freed == old(freed) + Preorder(old(fams)[r].tree)[1..] + [r]
        && envs == old(envs) - {old(fams)[r].env} && freedEnvs == old(freedEnvs) + [old(fams)[r].env])
    {
      hide FamilyOk, SharedOk, EnvOk, StatOk, RbOk, RootsOk, UsesOk, LiveOk, ListsOk, Named, HeapOk, Preorder;
      r := 0;
      RootsAllocated(tasks, fams, rootOf, taskList);
      var i := 0;
      while i < |taskList| && tasks[taskList[i]].pid != pid
        invariant 0 <= i <= |taskList|
        invariant forall k :: 0 <= k < i ==> tasks[taskList[k]].pid != pid
      {
        i := i + 1;
      }
      if i == |taskList| {
        return -1, r;
      }
      r := taskList[i];
      IdleRoot(tasks, fams, rbs, r);
      UnregisterRoot(taskList[i]);
      err := 0;
    }

    /** `smon_sched__unregister_task`. */
    method UnregisterRoot(root: Ptr)
      requires Valid() && root in taskList && root in tasks && root in fams && Idle(fams, rbs, root)
      modifies this`tasks, this`envs, this`rbs, this`taskList
      modifies this`fams, this`rootOf, this`freed, this`freedEnvs
      ensures Valid() && rbs == old(rbs)
      ensures var s, env := Preorder(old(fams)[root].tree), old(fams)[root].env;
        && tasks == old(tasks) - Elements(s) && fams == old(fams) - {root}
        && freed == old(freed) + s[1..] + [root]
        && envs == old(envs) - {env} && freedEnvs == old(freedEnvs) + [env]
    {
      hide FamilyOk, SharedOk, EnvOk, StatOk, RbOk, RootsOk, UsesOk, LiveOk, ListsOk, Named, Lists, HeapOk;
      hide Preorder, Sweeping, Idle;
      ghost var was, envs0, s, env := tasks, envs, Preorder(fams[root].tree), fams[root].env;
      SweepStart(tasks, envs, fams, rootOf, rbs, pending, cpuOf, waitList, cpuList, root);
      Sweep(root, env, s[1..]);
      assert [root] + s[1..] == s;
      FamilyRemoved(was, envs0, fams, rootOf, rbs, old(taskList), pending, cpuOf, waitList, cpuList, root);
      HeapFree(was, envs0, rbs, pending, brk, old(freed), old(freedEnvs), s, env);
      StatLess(envs0, env);
      NamedLess(was, pidOf, cpuOf, Elements(s));
      fams := fams - {root};
      rootOf := rootOf - Elements(s);
    }

    /** The children, the global task list, and the root itself. */
    method Sweep(root: Ptr, ghost env: Ptr, ghost kids: seq<Ptr>)
      requires Sweeping(tasks, envs, tasks, envs, root, env, [], kids)
      requires forall x :: x in tasks && tasks[x].envir == env ==> x == root || x in kids
      modifies this`tasks, this`envs, this`rbs, this`taskList, this`freed, this`freedEnvs
      ensures tasks == old(tasks) - Elements([root] + kids) && taskList == Without(old(taskList), root)
      ensures freed == old(freed) + kids + [root] && rbs == old(rbs)
      ensures envs == old(envs) - {env} && freedEnvs == old(freedEnvs) + [env]
    {
      hide Sweeping;
      ghost var was, envs0 := tasks, envs;
      UnregisterChildren(root, env, kids);
      SweepEnd(was, envs0, tasks, envs, root, env, kids);
      taskList := Without(taskList, root);
      // the environment is still there for envir_option_rapl
      var rapl := envs[tasks[root].envir].options.rapl;
      DestroyTask(root);
    }

    /** Processes exist when hooks name them; a process is registered once, with a ring
        buffer of its own; unregistering waits until the ring buffer has no writer. */
    predicate Allowed(op: Op)
      reads this
    {
      match op
      case MmapOp => true
      case SpawnOp(p, _, cpu) => p !in cpuOf && cpu < |cpuList|
      case RegisterOp(pid, p, _, b) =>
        && p in cpuOf && p in pidOf && pidOf[p] == pid
        && b in rbs && rbs[b] == Rb(0, []) && forall u :: u in tasks ==> tasks[u].p != Some(p)
      case ExecOp(p) => p in cpuOf
      case ForkOp(parent, p, _, cpu) => parent in cpuOf && p !in cpuOf && cpu < |cpuList|
      case MigrateOp(p, dest) => p in cpuOf && dest < |cpuList|
      case ExitOp(p) => p in cpuOf
      case UnregisterOp(pid) =>
        forall q :: q in taskList && q in tasks && tasks[q].pid == pid ==> NoWriter(tasks[q], rbs)
    }

    /** What a step does. */
    twostate predicate Effect(op: Op)
      reads this
    {
      match op
      case MmapOp =>
        tasks == old(tasks) && envs == old(envs) && exists b: Ptr :: b !in old(rbs) && rbs == old(rbs)[b := Rb(0, [])]
      case SpawnOp(p, pid, cpu) =>
        && tasks == old(tasks) && envs == old(envs) && rbs == old(rbs)
        && cpuOf == old(cpuOf)[p := cpu] && pidOf == old(pidOf)[p := pid]
      case RegisterOp(pid, p, user, b) =>
        && Changed(old(rbs), rbs, Some(b), 1, if user.options.exec then [] else [InfoMsg])
        && exists t: Ptr, e: Ptr ::
             && t !in old(tasks) && e !in old(envs) && envs == old(envs)[e := CreateEnvir(user)]
             && tasks == old(tasks)[t := Task(pid, Some(p), e, Some(b), t, t, 0, Some(b))]
      case ExecOp(p) =>
        tasks == old(tasks) && envs == old(envs) && Execed(old(pending), old(rbs), p)
      case ForkOp(parent, p, pid, cpu) =>
        && cpuOf == old(cpuOf)[p := cpu] && pidOf == old(pidOf)[p := pid]
        && parent in old(cpuOf) && old(cpuOf)[parent] < |old(cpuList)|
        && exists found :: Finds(old(tasks), old(cpuList)[old(cpuOf)[parent]], parent, found) && (
             match found
             case Some(t) =>
               exists c :: Forked(old(tasks), old(envs), old(fams), old(rootOf), old(rbs), old(cpuList), t, p, c)
             case None => tasks == old(tasks) && envs == old(envs) && rbs == old(rbs))
      case MigrateOp(p, dest) =>
        && tasks == old(tasks) && envs == old(envs)
        && p in old(cpuOf) && cpuOf == old(cpuOf)[p := dest] && Migrated(old(rbs), p, old(cpuOf)[p], dest)
      case ExitOp(p) =>
        envs == old(envs) && cpuOf == old(cpuOf) - {p} && Exited(old(tasks), old(pidOf), old(rbs), p)
      case UnregisterOp(pid) =>
        && rbs == old(rbs)
        && if forall q :: q in old(taskList) && q in old(tasks) ==> old(tasks)[q].pid != pid
           then tasks == old(tasks) && envs == old(envs)
           else exists r :: && r in old(taskList) && r in old(tasks) && old(tasks)[r].pid == pid && r in old(fams)
                            && tasks == old(tasks) - Elements(Preorder(old(fams)[r].tree))
                            && envs == old(envs) - {old(fams)[r].env}
    }

    /** One hook: what it does, and that no log loses anything and no environment that stays
        is other than it was. */
    method Do(op: Op)
      requires Valid() && Allowed(op)
      modifies this
      ensures Valid() && Effect(op) && LogsGrow(old(rbs), rbs) && EnvsKept(old(envs), envs)
    {
      hide Valid, Allowed, Effect;
      Act(op);
      Kept(op);
    }

    /** Where everybody who writes to a ring buffer is in stat mode, forks and migrations leave
        no sample in it. */
    twostate lemma StatSilent(op: Op, b: Ptr)
      requires old(Valid()) && Effect(op) && (op.ForkOp? || op.MigrateOp?) && b in old(rbs)
      requires forall t :: t in old(tasks) && old(tasks)[t].rb == Some(b) && old(tasks)[t].envir in old(envs) ==>
                 old(envs)[old(tasks)[t].envir].options.stat
      ensures b in rbs && rbs[b].log == old(rbs)[b].log
    {
      hide FamilyOk, SharedOk, EnvOk, RbOk, RootsOk, UsesOk, LiveOk, ListsOk, Named, Lists, HeapOk;
      hide CreateEnvir, IsOf, PutOn, SameButRing, Grown;
    }

    twostate lemma Kept(op: Op)
      requires Effect(op)
      ensures LogsGrow(old(rbs), rbs) && EnvsKept(old(envs), envs)
    {
      hide Finds, CreateEnvir, Preorder, IsOf, PutOn, SameButRing, Elements, Grown;
    }

    method Act(op: Op)
      requires Valid() && Allowed(op)
      modifies this
      ensures Valid() && Effect(op)
    {
      hide Valid, Changed, Released, Forked, Execed, Migrated, Exited;
      match op {
        case MmapOp => var b := NewRb();
        case SpawnOp(p, pid, cpu) => Spawn(p, pid, cpu);
        case RegisterOp(pid, p, user, b) =>
          FirstUse(rbs, b, if user.options.exec then [] else [InfoMsg]);
          var t, e := Register(pid, p, user, b);
        case ExecOp(p) => Exec(p);
        case ForkOp(parent, p, pid, cpu) => var found, c := Fork(parent, p, pid, cpu);
        case MigrateOp(p, dest) => Migrate(p, dest);
        case ExitOp(p) => Exit(p);
        case UnregisterOp(pid) => var err, r := Unregister(pid);
      }
    }

    /** Every run: families are rings in preorder, counts are holders, every live task is on
        its one list, EOF is last and once, nothing is freed twice, and no log loses anything. */
    method Run(ops: seq<Op>)
      requires Valid()
      modifies this
      ensures Valid() && LogsGrow(old(rbs), rbs)
    {
      hide Valid, Allowed, Effect, EnvsKept;
      for n := 0 to |ops|
        invariant Valid() && LogsGrow(old(rbs), rbs)
      {
        if Allowed(ops[n]) {
          Do(ops[n]);
        }
      }
    }

    /** The structure itself, list_add(&child->children, &parent->children), n_children++. */
    method AddToFamily(parent: Ptr, c: Ptr, child: Task)
      requires parent in tasks && c !in tasks && tasks[parent].next in tasks
      modifies this`tasks
      ensures tasks == ForkTasks(old(tasks), parent, c, child)
    {
      tasks := tasks[c := child];
      var next := tasks[parent].next;
      tasks := tasks[next := tasks[next].(prev := c)];
      tasks := tasks[c := tasks[c].(next := next, prev := parent)];
      tasks := tasks[parent := tasks[parent].(next := c)];
      tasks := tasks[parent := tasks[parent].(nChildren := tasks[parent].nChildren + 1)];
    }
  }

  // ---- what the hooks leave in ring buffers and environments ----

  /** p's task is found on a list if it is on it. */
  predicate Finds(tasks: Tasks, list: seq<Ptr>, p: Proc, t: Option<Ptr>) {
    match t
    case Some(x) => x in list && x in tasks && tasks[x].p == Some(p)
    case None => forall x :: x in list && x in tasks ==> tasks[x].p != Some(p)
  }

  /** Ring buffer rb, and no other, has d references more, and these messages behind what was
      in it. */
  predicate Changed(a: map<Ptr, Rb>, b: map<Ptr, Rb>, rb: Option<Ptr>, d: int, ms: seq<Msg>) {
    && rb.Some? && rb.value in a && a[rb.value].active + d >= 0
    && b == a[rb.value := Rb(a[rb.value].active + d, a[rb.value].log + ms)]
  }

  /** One reference less, after these messages; EOF follows them exactly if it was the last. */
  predicate Released(a: map<Ptr, Rb>, b: map<Ptr, Rb>, rb: Option<Ptr>, ms: seq<Msg>) {
    && rb.Some? && rb.value in a
    && Changed(a, b, rb, -1, ms + if a[rb.value].active == 1 then [EofMsg] else [])
  }

  lemma Unchanged(a: map<Ptr, Rb>, rb: Option<Ptr>)
    requires rb.Some? && rb.value in a
    ensures Changed(a, a, rb, 0, [])
  {
    assert a[rb.value].log + [] == a[rb.value].log;
  }

  lemma Behind(a: map<Ptr, Rb>, b: map<Ptr, Rb>, c: map<Ptr, Rb>, rb: Option<Ptr>, d: int, ms: seq<Msg>)
    requires Changed(a, b, rb, d, []) && Changed(b, c, rb, 0, ms)
    ensures Changed(a, c, rb, d, ms)
  {
    assert a[rb.value].log + [] == a[rb.value].log;
  }

  lemma FirstUse(a: map<Ptr, Rb>, b: Ptr, ms: seq<Msg>)
    requires b in a && a[b] == Rb(0, [])
    ensures Changed(a, a[b := Rb(1, ms)], Some(b), 1, ms)
  {
    assert [] + ms == ms;
  }

  lemma LetGo(a: map<Ptr, Rb>, b: map<Ptr, Rb>, x: Ptr)
    requires x in a && a[x].active > 0
    ensures Released(a, b, Some(x), []) <==> b == a[x := Release(a[x])]
  {
    var none: seq<Msg> := [];
    var eof := if a[x].active == 1 then [EofMsg] else [];
    assert none + eof == eof && a[x].log + none == a[x].log;
  }

  lemma LastWords(a: map<Ptr, Rb>, b: map<Ptr, Rb>, c: map<Ptr, Rb>, x: Ptr, m: Msg)
    requires Changed(a, b, Some(x), 0, [m]) && Released(b, c, Some(x), [])
    ensures Released(a, c, Some(x), [m])
  {
    var eof := if a[x].active == 1 then [EofMsg] else [];
    assert a[x].log + [m] + ([] + eof) == a[x].log + ([m] + eof);
  }

  ghost predicate LogsGrow(a: map<Ptr, Rb>, b: map<Ptr, Rb>) {
    forall x :: x in a ==> x in b && a[x].log <= b[x].log
  }

  /** An environment stays what it was registered as, but for its count. */
  ghost predicate EnvsKept(a: map<Ptr, Envir>, b: map<Ptr, Envir>) {
    forall e :: e in a && e in b ==> b[e] == a[e].(count := b[e].count)
  }

  lemma TheChild(tasks: Tasks, b: Tasks, c: Ptr, child: Task)
    requires SameButRing(b, tasks[c := child])
    ensures c in b && b[c].p == child.p && b[c].pid == child.pid
  {
  }

  lemma TheParent(tasks: Tasks, b: Tasks, c: Ptr, child: Task, t: Ptr)
    requires SameButRing(b, tasks[c := child]) && t in tasks && t != c
    ensures t in b && b[t].pid == tasks[t].pid && b[t].rb == tasks[t].rb && b[t].p == tasks[t].p
  {
  }

  predicate Inherits(tasks: Tasks, envs: map<Ptr, Envir>, t: Ptr) {
    t in tasks && tasks[t].envir in envs && envs[tasks[t].envir].options.inherit
  }

  /** The family's ring buffer has no writer. */
  predicate Idle(fams: map<Ptr, Family>, rbs: map<Ptr, Rb>, r: Ptr) {
    r in fams && fams[r].ring in rbs && rbs[fams[r].ring].active == 0
  }

  /** What a caller can check of a root: its ring buffer has no writer. */
  predicate NoWriter(root: Task, rbs: map<Ptr, Rb>) {
    root.extra.Some? && root.extra.value in rbs && rbs[root.extra.value].active == 0
  }

  lemma IdleRoot(tasks: Tasks, fams: map<Ptr, Family>, rbs: map<Ptr, Rb>, r: Ptr)
    requires RootsOk(tasks, fams, rbs) && r in fams && r in tasks && NoWriter(tasks[r], rbs)
    ensures Idle(fams, rbs, r)
  {
    assert RootOk(tasks, fams[r], rbs, r);
  }

  lemma RootsAllocated(tasks: Tasks, fams: map<Ptr, Family>, rootOf: map<Ptr, Ptr>, taskList: seq<Ptr>)
    requires FamilyOk(tasks, fams, rootOf) && Lists(taskList, fams.Keys)
    ensures forall q :: q in taskList ==> q in tasks && q in fams
  {
    hide FamilyOk;
    forall q | q in taskList
      ensures q in tasks && q in fams
    {
      assert q in fams.Keys;
      RootMember(tasks, fams, rootOf, q);
    }
  }

  /** A family without a live member is ready to be swept, and is all that holds its
      environment. */
  lemma SweepStart(tasks: Tasks, envs: map<Ptr, Envir>, fams: map<Ptr, Family>, rootOf: map<Ptr, Ptr>,
                   rbs: map<Ptr, Rb>, pending: set<Ptr>, cpuOf: map<Proc, Cpu>, waitList: seq<Ptr>,
                   cpuList: seq<seq<Ptr>>, root: Ptr)
    requires FamilyOk(tasks, fams, rootOf) && SharedOk(tasks, fams, rootOf) && RbOk(tasks, rbs) && EnvOk(tasks, envs)
    requires ListsOk(tasks, pending, cpuOf, waitList, cpuList) && LiveOk(tasks, cpuOf, |cpuList|)
    requires Idle(fams, rbs, root)
    ensures var s, env := Preorder(fams[root].tree), fams[root].env;
      && s == [root] + s[1..] && Distinct(s) && (forall x :: x in s ==> x in tasks) && env in envs
      && Sweeping(tasks, envs, tasks, envs, root, env, [], s[1..])
      && forall x :: x in tasks && tasks[x].envir == env ==> x == root || x in s[1..]
  {
    hide FamilyOk, SharedOk, RbOk, EnvOk, ListsOk, LiveOk, Preorder, Ring;
    var s, env := Preorder(fams[root].tree), fams[root].env;
    QuietFamily(tasks, fams, rootOf, rbs, pending, cpuOf, waitList, cpuList, root);
    FamilyGone(tasks, fams, rootOf, root);
    RootMember(tasks, fams, rootOf, root);
    FamilyRing(tasks, fams, rootOf, root);
    EnvLive(tasks, envs, root);
    assert s == [root] + s[1..];
    assert Elements([]) == {};
    assert forall x :: x in s ==> x in Elements(s);
  }

  lemma FamilyRing(tasks: Tasks, fams: map<Ptr, Family>, rootOf: map<Ptr, Ptr>, root: Ptr)
    requires FamilyOk(tasks, fams, rootOf) && root in fams
    ensures Ring(tasks, Preorder(fams[root].tree)) && Preorder(fams[root].tree)[0] == root
    ensures Distinct(Preorder(fams[root].tree)) && forall x :: x in Preorder(fams[root].tree) ==> x in tasks
    ensures root in Preorder(fams[root].tree)
  {
    hide Degree, PreorderAll;
    assert fams[root].tree.id == root;
  }

  /** What is left when the family has gone is as valid as before. */
  lemma FamilyRemoved(tasks: Tasks, envs: map<Ptr, Envir>, fams: map<Ptr, Family>, rootOf: map<Ptr, Ptr>,
                      rbs: map<Ptr, Rb>, taskList: seq<Ptr>, pending: set<Ptr>, cpuOf: map<Proc, Cpu>,
                      waitList: seq<Ptr>, cpuList: seq<seq<Ptr>>, root: Ptr)
    requires FamilyOk(tasks, fams, rootOf) && SharedOk(tasks, fams, rootOf) && RbOk(tasks, rbs) && EnvOk(tasks, envs)
    requires ListsOk(tasks, pending, cpuOf, waitList, cpuList) && LiveOk(tasks, cpuOf, |cpuList|)
    requires Lists(taskList, fams.Keys) && Idle(fams, rbs, root) && RootsOk(tasks, fams, rbs)
    ensures var gone := Elements(Preorder(fams[root].tree));
      && FamilyOk(tasks - gone, fams - {root}, rootOf - gone)
      && SharedOk(tasks - gone, fams - {root}, rootOf - gone)
      && EnvOk(tasks - gone, envs - {fams[root].env}) && RbOk(tasks - gone, rbs)
      && ListsOk(tasks - gone, pending, cpuOf, waitList, cpuList) && LiveOk(tasks - gone, cpuOf, |cpuList|)
      && Lists(Without(taskList, root), (fams - {root}).Keys)
      && RootsOk(tasks - gone, fams - {root}, rbs)
  {
    hide FamilyOk, SharedOk, RbOk, EnvOk, ListsOk, LiveOk, Preorder, Lists;
    var gone := Elements(Preorder(fams[root].tree));
    QuietFamily(tasks, fams, rootOf, rbs, pending, cpuOf, waitList, cpuList, root);
    FamilyGone(tasks, fams, rootOf, root);
    RefsGone(tasks, envs, rbs, fams[root].env, gone);
    ListsGone(tasks, pending, cpuOf, waitList, cpuList, gone);
    ListsWithout(taskList, fams.Keys, root);
    assert (fams - {root}).Keys == fams.Keys - {root};
    RootsHere(tasks, fams, rbs);
    forall r | r in fams - {root}
      ensures r in tasks - gone
    {
      RootMember(tasks, fams, rootOf, r);
    }
    RootsKept(tasks, tasks - gone, fams, fams - {root}, rbs, rbs);
  }

  lemma HeapFree(tasks: Tasks, envs: map<Ptr, Envir>, rbs: map<Ptr, Rb>, pending: set<Ptr>, brk: Ptr,
                 freed: seq<Ptr>, freedEnvs: seq<Ptr>, s: seq<Ptr>, env: Ptr)
    requires HeapOk(tasks, envs, rbs, pending, brk, freed, freedEnvs)
    requires s != [] && Distinct(s) && (forall x :: x in s ==> x in tasks) && env in envs
    ensures HeapOk(tasks - Elements(s), envs - {env}, rbs, pending, brk, freed + s[1..] + [s[0]], freedEnvs + [env])
  {
    assert s == [s[0]] + s[1..];
    DistinctParts([s[0]], s[1..]);
    DistinctJoin(freed, s[1..]);
    DistinctJoin(freed + s[1..], [s[0]]);
    DistinctJoin(freedEnvs, [env]);
    var freed', left := freed + s[1..] + [s[0]], tasks - Elements(s);
    forall x | x in freed'
      ensures x < brk && x !in left
    {
      assert x in freed || x in s;
    }
  }

  /** MigrateLists for the task that was found. */
  lemma Moved(tasks: Tasks, pending: set<Ptr>, cpuOf: map<Proc, Cpu>, pidOf: map<Proc, nat>, waitList: seq<Ptr>,
              cpuList: seq<seq<Ptr>>, p: Proc, dest: Cpu, t: Ptr)
    requires Placed(tasks, pending, cpuOf, pidOf, waitList, cpuList)
    requires p in cpuOf && dest < |cpuList| && cpuOf[p] < |cpuList|
    requires t in cpuList[cpuOf[p]] && t in tasks && tasks[t].p == Some(p)
    ensures var left := cpuList[cpuOf[p] := Without(cpuList[cpuOf[p]], t)];
      Placed(tasks, pending, cpuOf[p := dest], pidOf, waitList, left[dest := [t] + left[dest]])
    ensures p in pidOf && tasks[t].pid == pidOf[p]
  {
    MigrateLists(tasks, pending, cpuOf, waitList, cpuList, p, dest);
    NamedMove(tasks, pidOf, cpuOf, p, dest);
  }

  lemma Stayed(tasks: Tasks, envs: map<Ptr, Envir>, pending: set<Ptr>, cpuOf: map<Proc, Cpu>, pidOf: map<Proc, nat>,
               waitList: seq<Ptr>, cpuList: seq<seq<Ptr>>, p: Proc, dest: Cpu)
    requires Placed(tasks, pending, cpuOf, pidOf, waitList, cpuList) && EnvOk(tasks, envs)
    requires p in cpuOf && dest < |cpuList| && cpuOf[p] < |cpuList| && Finds(tasks, cpuList[cpuOf[p]], p, None)
    ensures Placed(tasks, pending, cpuOf[p := dest], pidOf, waitList, cpuList)
    ensures match TaskOf(tasks, p)
            case Some(t) => t in tasks && tasks[t].p == Some(p) && tasks[t].envir in envs && p in pidOf && t in pending
            case None => true
  {
    hide EnvOk;
    Whereabouts(tasks, pending, cpuOf, waitList, cpuList, p);
    WaitingTask(tasks, envs, pending, p);
    MigrateLists(tasks, pending, cpuOf, waitList, cpuList, p, dest);
    NamedMove(tasks, pidOf, cpuOf, p, dest);
  }

  lemma RetireHeap(tasks: Tasks, gone: Tasks, envs: map<Ptr, Envir>, rbs: map<Ptr, Rb>, fams: map<Ptr, Family>,
                   pending: set<Ptr>, brk: Ptr, freed: seq<Ptr>, freedEnvs: seq<Ptr>, t: Ptr)
    requires HeapOk(tasks, envs, rbs, pending, brk, freed, freedEnvs) && RootsOk(tasks, fams, rbs)
    requires t in tasks && gone == tasks[t := tasks[t].(p := None, rb := None)]
    requires tasks[t].rb.Some? && tasks[t].rb.value in rbs && rbs[tasks[t].rb.value].active > 0
    ensures var b := tasks[t].rb.value;
      && HeapOk(gone, envs, rbs[b := Release(rbs[b])], pending, brk, freed, freedEnvs)
      && RootsOk(gone, fams, rbs[b := Release(rbs[b])])
  {
    hide HeapOk, RootsOk;
    var after := rbs[tasks[t].rb.value := Release(rbs[tasks[t].rb.value])];
    RootsHere(tasks, fams, rbs);
    RootsKept(tasks, gone, fams, fams, rbs, after);
    HeapGrow(tasks, envs, rbs, pending, brk, freed, freedEnvs, gone, envs, after, pending, brk);
  }

  lemma RetireCore(tasks: Tasks, gone: Tasks, envs: map<Ptr, Envir>, fams: map<Ptr, Family>,
                   rootOf: map<Ptr, Ptr>, t: Ptr)
    requires FamilyOk(tasks, fams, rootOf) && SharedOk(tasks, fams, rootOf) && EnvOk(tasks, envs)
    requires t in tasks && gone == tasks[t := tasks[t].(p := None, rb := None)]
    ensures FamilyOk(gone, fams, rootOf) && SharedOk(gone, fams, rootOf) && EnvOk(gone, envs)
  {
    hide FamilyOk, Apart, Ring, Degree, Preorder;
    FamilyFrame(tasks, gone, fams, rootOf);
    RetireHolders(tasks, gone, envs, t);
    hide EnvOk, Holders;
    forall x | x in gone
      ensures SharedAt(gone[x], x, fams, rootOf)
    {
      assert SharedAt(tasks[x], x, fams, rootOf);
    }
  }

  lemma RetireHolders(tasks: Tasks, gone: Tasks, envs: map<Ptr, Envir>, t: Ptr)
    requires EnvOk(tasks, envs) && t in tasks && gone == tasks[t := tasks[t].(p := None, rb := None)]
    ensures EnvOk(gone, envs)
  {
    forall e
      ensures Holders(gone, e) == Holders(tasks, e)
    {
    }
  }

  /** Root r's family with a newest child c of t. */
  function Grown(fams: map<Ptr, Family>, r: Ptr, t: Ptr, c: Ptr): map<Ptr, Family>
    requires r in fams
  {
    fams[r := fams[r].(tree := AddChild(fams[r].tree, t, c))]
  }

  /** A process that does not exist yet has no task. */
  lemma NotYet(tasks: Tasks, cpuOf: map<Proc, Cpu>, n: nat, p: Proc)
    requires LiveOk(tasks, cpuOf, n) && p !in cpuOf
    ensures forall t :: t in tasks ==> tasks[t].p != Some(p)
  {
  }

  /** `smon_create_child`. */
  function ChildOf(parent: Task, p: Proc, pid: nat, c: Ptr): Task {
    Task(pid, Some(p), parent.envir, parent.rb, c, c, 0, None)
  }

  function Joined(rbs: map<Ptr, Rb>, rb: Option<Ptr>): map<Ptr, Rb> {
    if rb.Some? && rb.value in rbs
    then rbs[rb.value := rbs[rb.value].(active := rbs[rb.value].active + 1)] else rbs
  }

  lemma JoinedOne(rbs: map<Ptr, Rb>, rb: Option<Ptr>)
    requires rb.Some? && rb.value in rbs
    ensures Joined(rbs, rb) == rbs[rb.value := rbs[rb.value].(active := rbs[rb.value].active + 1)]
    ensures Joined(rbs, rb).Keys == rbs.Keys && Changed(rbs, Joined(rbs, rb), rb, 1, [])
  {
    assert rbs[rb.value].log + [] == rbs[rb.value].log;
  }

  lemma ForkHeap(tasks: Tasks, envs: map<Ptr, Envir>, rbs: map<Ptr, Rb>, pending: set<Ptr>, brk: Ptr,
                 freed: seq<Ptr>, freedEnvs: seq<Ptr>, forked: Tasks, envs': map<Ptr, Envir>, rbs': map<Ptr, Rb>,
                 c: Ptr, child: Task)
    requires HeapOk(tasks, envs, rbs, pending, brk, freed, freedEnvs) && c == brk && envs'.Keys == envs.Keys
    requires SameButRing(forked, tasks[c := child]) && rbs'.Keys == rbs.Keys
    ensures HeapOk(forked, envs', rbs', pending, brk + 1, freed, freedEnvs)
  {
  }

  lemma ForkCore(tasks: Tasks, envs: map<Ptr, Envir>, rbs: map<Ptr, Rb>, fams: map<Ptr, Family>,
                 rootOf: map<Ptr, Ptr>, taskList: seq<Ptr>, parent: Ptr, c: Ptr, child: Task)
    requires FamilyOk(tasks, fams, rootOf) && SharedOk(tasks, fams, rootOf)
    requires EnvOk(tasks, envs) && RbOk(tasks, rbs) && Lists(taskList, fams.Keys) && RootsOk(tasks, fams, rbs)
    requires child.extra == None
    requires parent in tasks && c !in tasks && tasks[parent].rb.Some? && tasks[parent].rb.value in rbs
    requires tasks[parent].envir in envs && EofMsg !in rbs[tasks[parent].rb.value].log
    requires child.nChildren == 0 && child.envir == tasks[parent].envir && child.rb == tasks[parent].rb
    ensures parent in rootOf && rootOf[parent] in fams && tasks[parent].next in tasks
    ensures SameButRing(ForkTasks(tasks, parent, c, child), tasks[c := child])
    ensures var b, r, e := ForkTasks(tasks, parent, c, child), rootOf[parent], tasks[parent].envir;
      var g := Grown(fams, r, parent, c);
      && FamilyOk(b, g, rootOf[c := r]) && SharedOk(b, g, rootOf[c := r])
      && EnvOk(b, envs[e := envs[e].(count := envs[e].count + 1)])
      && RbOk(b, Joined(rbs, tasks[parent].rb)) && RootsOk(b, g, Joined(rbs, tasks[parent].rb))
      && Lists(taskList, g.Keys)
  {
    hide FamilyOk, SharedOk, EnvOk, StatOk, RbOk, RootsOk, Lists, AddChild, ForkTasks;
    Rooted(tasks, fams, rootOf, parent);
    ForkFamily(tasks, fams, rootOf, parent, c, child);
    var b, r, e := ForkTasks(tasks, parent, c, child), rootOf[parent], tasks[parent].envir;
    var f := fams[r].(tree := AddChild(fams[r].tree, parent, c));
    FamilyShares(tasks, fams, rootOf, parent);
    SharedAdd(tasks, b, fams, rootOf, c, child, r, f);
    EnvAdd(tasks, b, envs, c, child, envs[e].(count := envs[e].count + 1));
    WriterAdd(tasks, b, rbs, c, child);
    ForkRoots(tasks, b, fams, fams[r := f], rbs, Joined(rbs, tasks[parent].rb), c, child);
    assert fams[r := f].Keys == fams.Keys;
  }

  lemma RootsHere(tasks: Tasks, fams: map<Ptr, Family>, rbs: map<Ptr, Rb>)
    requires RootsOk(tasks, fams, rbs)
    ensures forall r :: r in fams ==> r in tasks
  {
    assert forall r :: r in fams ==> RootOk(tasks, fams[r], rbs, r);
  }

  lemma ForkRoots(tasks: Tasks, b: Tasks, fams: map<Ptr, Family>, g: map<Ptr, Family>, rbs: map<Ptr, Rb>,
                  rbs': map<Ptr, Rb>, c: Ptr, child: Task)
    requires RootsOk(tasks, fams, rbs) && c !in tasks && SameButRing(b, tasks[c := child])
    requires g.Keys == fams.Keys && forall r :: r in g ==> g[r].ring == fams[r].ring
    requires forall x :: x in rbs ==> x in rbs' && (Used(rbs[x]) ==> Used(rbs'[x]))
    ensures RootsOk(b, g, rbs')
  {
    assert forall r :: r in fams ==> RootOk(tasks, fams[r], rbs, r);
    RootsKept(tasks, b, fams, g, rbs, rbs');
  }

  lemma Rooted(tasks: Tasks, fams: map<Ptr, Family>, rootOf: map<Ptr, Ptr>, t: Ptr)
    requires FamilyOk(tasks, fams, rootOf) && t in tasks
    ensures t in rootOf && rootOf[t] in fams
  {
    assert InFamily(t, fams, rootOf[t]);
  }

  /** While a root is alive, the ring buffer it keeps for its own samples is its family's. */
  lemma ExtraRing(tasks: Tasks, fams: map<Ptr, Family>, rootOf: map<Ptr, Ptr>, t: Ptr)
    requires SharedOk(tasks, fams, rootOf) && t in tasks && tasks[t].rb.Some?
    ensures tasks[t].extra.Some? ==> tasks[t].extra == tasks[t].rb
  {
    assert SharedAt(tasks[t], t, fams, rootOf);
  }

  lemma FamilyShares(tasks: Tasks, fams: map<Ptr, Family>, rootOf: map<Ptr, Ptr>, t: Ptr)
    requires SharedOk(tasks, fams, rootOf) && t in tasks
    ensures SharedAt(tasks[t], t, fams, rootOf)
  {
  }

  lemma LiveTask(tasks: Tasks, rbs: map<Ptr, Rb>, cpuOf: map<Proc, Cpu>, n: nat, t: Ptr)
    requires RbOk(tasks, rbs) && LiveOk(tasks, cpuOf, n) && t in tasks && tasks[t].p.Some?
    ensures tasks[t].rb.Some? && tasks[t].rb.value in rbs && rbs[tasks[t].rb.value].active > 0
    ensures EofMsg !in rbs[tasks[t].rb.value].log
  {
    LiveWriter(tasks, rbs, t);
  }

  lemma EnvLive(tasks: Tasks, envs: map<Ptr, Envir>, t: Ptr)
    requires EnvOk(tasks, envs) && t in tasks
    ensures tasks[t].envir in envs
  {
  }

  lemma WaitingTask(tasks: Tasks, envs: map<Ptr, Envir>, pending: set<Ptr>, p: Proc)
    requires EnvOk(tasks, envs)
    ensures TaskOf(tasks, p).Some? ==> var t := TaskOf(tasks, p).value;
      t in tasks && tasks[t].p == Some(p) && tasks[t].envir in envs
  {
  }

  lemma RegisterCore(tasks: Tasks, envs: map<Ptr, Envir>, rbs: map<Ptr, Rb>, fams: map<Ptr, Family>,
                     rootOf: map<Ptr, Ptr>, taskList: seq<Ptr>, t: Ptr, task: Task, user: Envir, f: Family)
    requires FamilyOk(tasks, fams, rootOf) && SharedOk(tasks, fams, rootOf)
    requires EnvOk(tasks, envs) && RbOk(tasks, rbs) && Lists(taskList, fams.Keys)
    requires t !in tasks && task.next == t && task.prev == t && task.nChildren == 0
    requires f == Family(Node(t, []), task.envir, f.ring) && task.envir !in envs
    requires task.rb == Some(f.ring) == task.extra && f.ring in rbs && rbs[f.ring] == Rb(0, [])
    requires RootsOk(tasks, fams, rbs)
    ensures t !in fams
    ensures FamilyOk(tasks[t := task], fams[t := f], rootOf[t := t])
    ensures SharedOk(tasks[t := task], fams[t := f], rootOf[t := t])
    ensures EnvOk(tasks[t := task], envs[task.envir := CreateEnvir(user)])
    ensures RbOk(tasks[t := task], rbs[f.ring := Rb(1, [])])
    ensures RootsOk(tasks[t := task], fams[t := f], rbs[f.ring := Rb(1, [])])
    ensures Lists([t] + taskList, fams[t := f].Keys)
  {
    hide FamilyOk, SharedOk, EnvOk, StatOk, RbOk, RootsOk, Lists, CreateEnvir;
    CreateCount(user);
    NewRoot(tasks, fams, rbs, t, task, f);
    FreshRoot(tasks, envs, fams, rootOf, taskList, t, task.envir);
    RegisterFamily(tasks, fams, rootOf, t, task, f);
    SharedAdd(tasks, tasks[t := task], fams, rootOf, t, task, t, f);
    EnvAdd(tasks, tasks[t := task], envs, t, task, CreateEnvir(user));
    WriterAdd(tasks, tasks[t := task], rbs, t, task);
    ListsWith(taskList, fams.Keys, t);
    assert fams[t := f].Keys == fams.Keys + {t};
  }

  lemma Unused(tasks: Tasks, envs: map<Ptr, Envir>, rbs: map<Ptr, Rb>, pending: set<Ptr>, brk: Ptr,
               freed: seq<Ptr>, freedEnvs: seq<Ptr>)
    requires HeapOk(tasks, envs, rbs, pending, brk, freed, freedEnvs)
    ensures forall x :: x >= brk ==> x !in tasks && x !in envs && x !in rbs && x !in pending
  {
  }

  /** kzalloc: whatever is new lies between brk and next. */
  lemma HeapGrow(tasks: Tasks, envs: map<Ptr, Envir>, rbs: map<Ptr, Rb>, pending: set<Ptr>, brk: Ptr,
                 freed: seq<Ptr>, freedEnvs: seq<Ptr>,
                 tasks': Tasks, envs': map<Ptr, Envir>, rbs': map<Ptr, Rb>, pending': set<Ptr>, next: Ptr)
    requires HeapOk(tasks, envs, rbs, pending, brk, freed, freedEnvs) && brk <= next
    requires forall x :: x in tasks' ==> x in tasks || brk <= x < next
    requires forall x :: x in envs' ==> x in envs || brk <= x < next
    requires forall x :: x in rbs' ==> x in rbs || x < next
    requires forall x :: x in pending' ==> x in pending || x < next
    ensures HeapOk(tasks', envs', rbs', pending', next, freed, freedEnvs)
  {
  }

  lemma HeapSame(tasks: Tasks, envs: map<Ptr, Envir>, rbs: map<Ptr, Rb>, rbs': map<Ptr, Rb>,
                 pending: set<Ptr>, brk: Ptr, freed: seq<Ptr>, freedEnvs: seq<Ptr>)
    requires rbs.Keys == rbs'.Keys
    ensures HeapOk(tasks, envs, rbs, pending, brk, freed, freedEnvs) ==
      HeapOk(tasks, envs, rbs', pending, brk, freed, freedEnvs)
  {
  }

  /** A sample more in the log. */
  lemma LogKeeps(tasks: Tasks, envs: map<Ptr, Envir>, rbs: map<Ptr, Rb>, rbs': map<Ptr, Rb>, fams: map<Ptr, Family>,
                 pending: set<Ptr>, brk: Ptr, freed: seq<Ptr>, freedEnvs: seq<Ptr>, b: Ptr)
    requires HeapOk(tasks, envs, rbs, pending, brk, freed, freedEnvs) && RootsOk(tasks, fams, rbs) && b in rbs
    requires rbs'.Keys == rbs.Keys && (forall x :: x in rbs && x != b ==> rbs'[x] == rbs[x]) && Used(rbs'[b])
    ensures HeapOk(tasks, envs, rbs', pending, brk, freed, freedEnvs) && RootsOk(tasks, fams, rbs')
  {
    hide HeapOk;
    HeapSame(tasks, envs, rbs, rbs', pending, brk, freed, freedEnvs);
    RootsHere(tasks, fams, rbs);
    RootsKept(tasks, tasks, fams, fams, rbs, rbs');
  }

  lemma CreateCount(user: Envir)
    ensures CreateEnvir(user).count == 1 && CreateEnvir(user).options.exec == user.options.exec
    ensures CreateEnvir(user).options.inherit == user.options.inherit
  {
  }

  /** The new root's ring buffer is nobody else's. */
  lemma NewRoot(tasks: Tasks, fams: map<Ptr, Family>, rbs: map<Ptr, Rb>, t: Ptr, task: Task, f: Family)
    requires RootsOk(tasks, fams, rbs) && t !in tasks && task.extra == Some(f.ring)
    requires f.ring in rbs && rbs[f.ring] == Rb(0, [])
    ensures forall r :: r in fams ==> fams[r].ring != f.ring
    ensures RootsOk(tasks[t := task], fams[t := f], rbs[f.ring := Rb(1, [])])
  {
    forall r | r in fams
      ensures fams[r].ring != f.ring && RootOk(tasks[t := task], fams[r], rbs[f.ring := Rb(1, [])], r)
    {
      assert RootOk(tasks, fams[r], rbs, r);
    }
  }

  /** Fresh addresses occur nowhere. */
  lemma FreshRoot(tasks: Tasks, envs: map<Ptr, Envir>, fams: map<Ptr, Family>, rootOf: map<Ptr, Ptr>,
                  taskList: seq<Ptr>, t: Ptr, e: Ptr)
    requires FamilyOk(tasks, fams, rootOf) && SharedOk(tasks, fams, rootOf) && EnvOk(tasks, envs)
    requires Lists(taskList, fams.Keys) && t !in tasks && e !in envs
    ensures t !in fams && forall q :: q in fams ==> q in tasks && fams[q].env in envs
  {
    hide FamilyOk, Holders;
    forall q | q in fams
      ensures q in tasks && fams[q].env in envs
    {
      RootMember(tasks, fams, rootOf, q);
      assert SharedAt(tasks[q], q, fams, rootOf);
    }
  }

  /** A root is a member of its own family. */
  lemma RootMember(tasks: Tasks, fams: map<Ptr, Family>, rootOf: map<Ptr, Ptr>, q: Ptr)
    requires FamilyOk(tasks, fams, rootOf) && q in fams
    ensures q in tasks && q in rootOf && rootOf[q] == q
  {
    hide Ring, Degree, DegreeAt, PreorderAll;
    assert q in Preorder(fams[q].tree);
  }
}
