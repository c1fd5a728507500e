/** All CPUs and all monitored tasks together: the scheduler's switches, the interrupts and
    the events, in any order. */
module Monitor {
  import opened Wrappers
  import opened Environment
  import opened Budget
  import opened Counters
  import opened Sampling

  /** Anything that can happen, with the arguments it happens to. */
  datatype Step =
    | ElapseStep(dTsc: nat, dNs: nat)
    | OccurStep(c: nat, ev: Event)
    | SwitchOutStep(c: nat)
    | SwitchInStep(c: nat, i: nat)
    | ExecStep(c: nat)
    | StartStep(c: nat)
    | StopStep(c: nat)
    | TickStep(i: nat)
    | ExitStep(c: nat)
    | AddStep(pid: nat, envir: Envir, forked: bool, where: Option<nat>)

  /** A registration that puts a task on a run list while its process has a CPU: no exec
      option, and running. */
  predicate ListsRunning(step: Step) {
    step.AddStep? && !step.forked && !step.envir.options.exec && step.where.Some?
  }

  class Machine {
    const reg: Registry
    const cpus: seq<Cpu>
    var tasks: seq<Task>        // every monitored task
    var cur: seq<Task?>         // whose process is on each CPU, if monitored
    var startOn: seq<Task?>     // irq_start_timer queued on each CPU
    var stopOn: seq<Task?>      // irq_stop_timer queued on each CPU
    var tsc: int
    var ns: int

    ghost var at: map<Task, nat>    // the CPU each task was last switched in on

    ghost predicate Valid()
      reads this, tasks, cpus
    {
      && tsc > 0 && |cur| == |startOn| == |stopOn| == |cpus| && Links()
      && (forall t :: t in tasks ==> Well(t))
      && (forall c :: 0 <= c < |cpus| && !Busy(c) ==> cpus[c].Stopped())
    }

    ghost predicate Well(t: Task)
      reads this`tsc, this`ns, t, cpus
    {
      t.reg == reg && (t.on != null ==> t.on in cpus) && t.Inv(tsc, ns)
    }

    /** The process on CPU c is being counted. */
    ghost predicate Busy(c: nat)
      requires c < |cur|
      reads this, tasks
    {
      cur[c] != null && cur[c] in tasks && cur[c].on != null
    }

    /** A CPU counts for the task on it, or not at all; a live task on a CPU is counted, at
        the latest when its queued irq_work runs, unless it was running when it was listed. */
    ghost predicate Links()
      reads this, tasks
    {
      && |cur| == |startOn| == |stopOn| == |cpus|
      && (forall c, d :: 0 <= c < d < |cpus| ==> cpus[c] != cpus[d])
      && (forall c, d :: 0 <= c < d < |cpus| && cur[c] != null ==> cur[c] != cur[d])
      && (forall c :: 0 <= c < |cpus| && cur[c] != null ==> cur[c] in tasks && cur[c] in at && at[cur[c]] == c)
      && (forall c :: 0 <= c < |cpus| && Busy(c) ==> cur[c].on == cpus[c])
      && (forall t :: t in tasks && (t.on != null || t.Unstarted()) ==> OnCpu(t))
      && (forall c :: 0 <= c < |cpus| ==> Queues(c))
    }

    ghost predicate OnCpu(t: Task)
      reads this, t
    {
      t in at && at[t] < |cpus| && at[t] < |cur| && cur[at[t]] == t && (t.on != null ==> t.on == cpus[at[t]])
    }

    ghost predicate Queues(c: nat)
      reads this, tasks
    {
      && c < |cur| && c < |startOn| && c < |stopOn|
      && (startOn[c] != null ==> startOn[c] == cur[c] && Startable(startOn[c]))
      && (stopOn[c] != null ==> stopOn[c] in tasks && !stopOn[c].envir.options.stat)
      && (cur[c] != null && cur[c] in tasks && cur[c].phase == Live ==>
            cur[c].on != null || startOn[c] == cur[c] || cur[c].Unstarted())
    }

    ghost predicate Startable(t: Task)
      reads this, tasks
    {
      t in tasks && t.on == null && t.phase == Live && !t.envir.options.stat && !t.Unstarted()
    }

    /** Time passes. */
    method Elapse(dTsc: nat, dNs: nat)
      requires Valid()
      modifies this`tsc, this`ns
      ensures Valid() && tsc == old(tsc) + dTsc && ns == old(ns) + dNs
    {
      hide Task.Inv;
      forall t | t in tasks
        ensures t.Inv(tsc + dTsc, ns + dNs)
      {
        Later(t, tsc, ns, tsc + dTsc, ns + dNs);
      }
      tsc, ns := tsc + dTsc, ns + dNs;
      assert Links() by { LinksKept(); }
    }

    twostate lemma LinksKept()
      requires old(Links()) && cur == old(cur) && startOn == old(startOn) && stopOn == old(stopOn)
      requires tasks == old(tasks) && at == old(at)
      requires forall t :: t in tasks ==>
        t.on == old(t.on) && t.phase == old(t.phase) && (t.listed ==> t.left == old(t.left))
      ensures Links()
    {
      forall c | 0 <= c < |cpus|
        ensures Queues(c) && Busy(c) == old(Busy(c))
      {
        assert old(Queues(c));
        assert startOn[c] != null ==> old(Startable(startOn[c]));
      }
      assert forall t :: t in tasks && (t.on != null || t.Unstarted()) ==> old(OnCpu(t));
    }

    /** Nobody else is counted on a CPU. */
    lemma Alone(c: nat)
      requires Links() && c < |cpus|
      ensures forall u :: u in tasks && u.on == cpus[c] ==> cur[c] == u
    {
      assert forall u :: u in tasks && u.on != null ==> OnCpu(u);
    }

    /** A countable event on CPU c: charged to the task counted there, to nobody else. */
    method Occur(c: nat, ev: Event)
      requires Valid() && c < |cpus|
      modifies cpus[c], cur[c]
      ensures Valid()
      ensures Busy(c) == old(Busy(c))
      ensures cur[c] != null ==> cur[c].seen == old(cur[c].seen) + if Busy(c) then [(cur[c].evset, ev)] else []
      ensures Busy(c) ==> cur[c].CountsTurn(cpus[c])
      ensures cur[c] != null ==> cur[c].saved == old(cur[c].saved) && cur[c].left == old(cur[c].left)
    {
      hide Task.Inv;
      Alone(c);
      var t := cur[c];
      if t != null && t.on != null {
        t.Occur(cpus[c], ev, tsc, ns);
      } else {
        cpus[c].Occur(ev);
      }
      LinksKept();
    }

    /** First half of `smon_sched_switch`: the process on c gives up the CPU. The irq_work
        queued by the previous switch has run; a stop still queued elsewhere is not queued
        again. */
    method SwitchOut(c: nat)
      requires Valid() && c < |cpus| && startOn[c] == null && stopOn[c] == null
      modifies this`cur, this`stopOn, cpus[c], cur[c]
      ensures Valid() && cur == old(cur)[c := null] && cpus[c].ctr == old(cpus[c].ctr)
      ensures var t := old(cur[c]); t != null ==>
        && t.phase == old(t.phase) && t.seen == old(t.seen)
        && (t.phase == Live ==> t.left && t.on == null) && (t.armed ==> !t.envir.options.stat)
      ensures var t := old(cur[c]); t != null && old(t.Unstarted()) ==> t.strayTsc == tsc && t.StrayRead(cpus[c])
      ensures var t := old(cur[c]); stopOn == if t != null && t.phase == Live && t.armed && t !in old(stopOn)
        then old(stopOn)[c := t] else old(stopOn)
      ensures var t := old(cur[c]); t != null && t.phase == Live ==>
        && t.armed == old(t.armed)
        && t.ledger ==
          old(if t.on == null || t.envir.options.stat then t.ledger else SwitchedOut(t.ledger, t.Clock(), ns))
      ensures var t := old(cur[c]); t != null && t.phase == Live && !(t.armed && old(t.expires) <= ns) ==>
        t.saved == old(t.saved)
    {
      hide Task.Inv, SwitchedOut, Task.StrayRead;
      Alone(c);
      var t := cur[c];
      assert Queues(c);
      if t != null {
        t.CountedIsLive(tsc, ns);
      }
      hide Links;
      if t != null && t.phase == Live {
        Leave(c, cpus[c], t);
      }
      cur := cur[c := null];
      LinksSwitched(c);
    }

    /** `smon_sched_task_out` for the task on c. */
    method Leave(c: nat, cpu: Cpu, t: Task)
      requires c < |cpus| == |stopOn| && t.Inv(tsc, ns) && t.phase == Live && tsc > 0
      requires if t.Unstarted() then cpu.Shape() else t.on == cpu
      modifies this`stopOn, cpu`global, t
      ensures t.Inv(tsc, ns) && t.on == null && t.phase == Live && cpu.Stopped() && t.left
      ensures stopOn == if t.armed && t !in old(stopOn) then old(stopOn)[c := t] else old(stopOn)
      ensures t.armed == old(t.armed) && t.seen == old(t.seen) && (t.armed ==> !t.envir.options.stat)
      ensures old(t.Unstarted()) ==> t.strayTsc == tsc && t.StrayRead(cpu)
      ensures t.ledger ==
        old(if t.on == null || t.envir.options.stat then t.ledger else SwitchedOut(t.ledger, t.Clock(), ns))
      ensures !(t.armed && old(t.expires) <= ns) ==> t.saved == old(t.saved)
    {
      hide Task.Inv, SwitchedOut, Task.StrayRead;
      var queueStop := t.TaskOut(cpu, tsc, ns);
      t.CountedIsLive(tsc, ns);
      if queueStop && t !in stopOn {
        stopOn := stopOn[c := t];
      }
    }

    /** After the process on c has left, the others are where they were. */
    twostate lemma LinksSwitched(c: nat)
      requires old(Links()) && c < |cpus| && |startOn| == |stopOn| == |cpus|
      requires tasks == old(tasks) && at == old(at) && startOn == old(startOn) && startOn[c] == null
      requires cur == old(cur)[c := null]
      requires old(cur)[c] != null ==>
        old(cur)[c].on == null && old(cur)[c].phase == old(cur[c].phase) && !old(cur)[c].Unstarted()
      requires stopOn == old(stopOn) || stopOn == old(stopOn)[c := old(cur)[c]]
      requires old(stopOn)[c] == null && (stopOn[c] != null ==> !stopOn[c].envir.options.stat)
      requires forall u :: u in tasks && u != old(cur)[c] ==>
        u.on == old(u.on) && u.phase == old(u.phase) && (u.listed ==> u.left == old(u.left))
      ensures Links()
    {
      forall d | 0 <= d < |cpus|
        ensures Queues(d) && (d != c ==> Busy(d) == old(Busy(d)))
        ensures startOn[d] != null ==> startOn[d] == old(cur)[d]
      {
        assert old(Queues(d));
        assert startOn[d] != null ==> old(Startable(startOn[d]));
      }
      assert forall u :: u in tasks && (u.on != null || u.Unstarted()) ==> old(OnCpu(u));
    }

    /** Second half of `smon_sched_switch`: next gets the CPU. The stop queued where it ran
        last may not have run. */
    method SwitchIn(c: nat, next: Task)
      requires Valid() && c < |cpus| && cur[c] == null && next in tasks
      requires forall d :: 0 <= d < |cpus| ==> cur[d] != next
      modifies this`cur, this`startOn, this`at, cpus[c], next
      ensures Valid() && cur == old(cur)[c := next] && next.SameRecord()
      ensures next.ledger == old(next.ledger)
      ensures next.phase == old(next.phase)
      ensures next.phase == Live && next.envir.options.stat ==> Busy(c)
      ensures startOn ==
        if next.phase == Live && !next.envir.options.stat then old(startOn)[c := next] else old(startOn)
    {
      hide Task.Inv;
      Alone(c);
      OffCpu(next);
      assert Queues(c);
      next.CountedIsLive(tsc, ns);
      hide Links;
      cur := cur[c := next];
      at := at[next := c];
      Arrived(c, next);
      hide Task.SameRecord;
      LinksArrived(c);
    }

    /** `smon_sched_task_in` for the process that arrived on c, if its task is on a run list. */
    method Arrived(c: nat, t: Task)
      requires c < |cpus| == |startOn| && t.Inv(tsc, ns) && t.on == null
      requires !t.Unstarted() && cpus[c].Stopped() && tsc > 0 && startOn[c] == null
      modifies this`startOn, cpus[c], t
      ensures t.Inv(tsc, ns) && t.SameRecord() && t.ledger == old(t.ledger) && t.phase == old(t.phase)
      ensures startOn == if t.phase == Live && !t.envir.options.stat then old(startOn)[c := t] else old(startOn)
      ensures if t.phase == Live && t.envir.options.stat then t.on == cpus[c] else t.on == null && cpus[c].Stopped()
    {
      hide Task.Inv;
      if t.phase == Live {
        var queueStart := t.TaskIn(cpus[c], tsc, ns);
        if queueStart {
          startOn := startOn[c := t];
        }
      }
    }

    lemma OffCpu(t: Task)
      requires Links() && t in tasks && forall d :: 0 <= d < |cpus| ==> cur[d] != t
      ensures t.on == null && !t.Unstarted() && forall d :: 0 <= d < |cpus| ==> startOn[d] != t
    {
      assert t.on != null || t.Unstarted() ==> OnCpu(t);
      forall d | 0 <= d < |cpus|
        ensures startOn[d] != t
      {
        assert Queues(d);
      }
    }

    twostate lemma LinksArrived(c: nat)
      requires old(Links()) && c < |cpus| && |startOn| == |stopOn| == |cpus| == |cur|
      requires tasks == old(tasks) && stopOn == old(stopOn) && old(cur)[c] == null && cur[c] != null
      requires cur == old(cur)[c := cur[c]] && at == old(at)[cur[c] := c] && cur[c] in tasks
      requires forall d :: 0 <= d < |cpus| ==> old(cur)[d] != cur[c]
      requires var t: Task := cur[c]; old(t.on) == null && !t.Unstarted()
      requires startOn == old(startOn) || (startOn == old(startOn)[c := cur[c]] && Startable(cur[c]))
      requires cur[c].on == null || cur[c].on == cpus[c]
      requires cur[c].phase == Live && cur[c].on == null ==> startOn[c] == cur[c]
      requires forall u :: u in tasks && u != cur[c] ==>
        u.on == old(u.on) && u.phase == old(u.phase) && (u.listed ==> u.left == old(u.left))
      ensures Links()
    {
      forall d | 0 <= d < |cpus|
        ensures Queues(d) && (d != c ==> Busy(d) == old(Busy(d)))
      {
        assert old(Queues(d));
        assert startOn[d] != null && d != c ==> old(Startable(startOn[d]));
      }
      assert forall u :: u in tasks && u != cur[c] && (u.on != null || u.Unstarted()) ==> old(OnCpu(u));
    }

    /** `smon_sched_process_exec` by the process on c: its waiting task goes live. */
    method Exec(c: nat)
      requires Valid() && c < |cpus| && startOn[c] == null && cur[c] != null && cur[c].phase == Waiting
      modifies this`startOn, cpus[c], cur[c]
      ensures Valid() && cur[c].phase == Live && cur[c].SameRecord()
      ensures cur[c].ledger == old(cur[c].ledger)
      ensures if cur[c].envir.options.stat then Busy(c) && startOn == old(startOn)
        else startOn == old(startOn)[c := cur[c]]
    {
      hide Task.Inv;
      Alone(c);
      var t: Task := cur[c];
      t.CountedIsLive(tsc, ns);
      t.GoLive(tsc, ns);
      Arrived(c, t);
      LinksUpdated(c);
    }

    /** The queued `start_timer_pmc` runs on c. */
    method RunStart(c: nat)
      requires Valid() && c < |cpus| && startOn[c] != null
      modifies this`startOn, cpus[c], startOn[c]
      ensures Valid() && startOn == old(startOn)[c := null] && Busy(c) && cur[c] == old(startOn[c])
      ensures cur[c].SameRecord() && cur[c].armed && cur[c].ledger == Started(old(startOn[c].ledger), ns)
      ensures cur[c].OnSchedule(ns) <==> old(startOn[c].OnSchedule(ns))
    {
      hide Task.Inv;
      Alone(c);
      assert Queues(c) && Startable(startOn[c]);
      var t: Task := startOn[c];
      hide Links, Task.SameRecord;
      t.StartTimer(cpus[c], tsc, ns);
      assert forall u :: u in tasks && u != t ==> u.Inv(tsc, ns);
      startOn := startOn[c := null];
      LinksUpdated(c);
    }

    /** The queued `stop_timer_pmc` runs on c. If its task is being counted elsewhere by now,
        that task has lost its tick. */
    method RunStop(c: nat)
      requires Valid() && c < |cpus| && stopOn[c] != null
      modifies this`stopOn, stopOn[c]
      ensures Valid() && stopOn == old(stopOn)[c := null]
      ensures var t: Task := old(stopOn[c]);
        && t.SameRecord() && t.on == old(t.on) && !t.armed
        && t.ledger == old(t.ledger.(cut := t.ledger.cut || t.on != null))
      ensures var t: Task := old(stopOn[c]); t.OnSchedule(ns) <==> old(t.OnSchedule(ns)) && t.on == null
    {
      hide Task.Inv;
      assert Queues(c);
      stopOn[c].StopTimer(tsc, ns);
      stopOn := stopOn[c := null];
      LinksUnqueued(c);
    }

    /** The timer interrupt of task t: on the CPU counting it, or of no effect. */
    method Tick(t: Task)
      requires Valid() && t in tasks && t.armed && t.expires <= ns
      modifies t, t.on
      ensures Valid() && |t.saved| == old(|t.saved|) + if old(t.timerOn) then 1 else 0
      ensures t.ledger == old(if t.timerOn then Ticked(t.ledger, t.Clock(), Period(t.envir), ns) else t.ledger)
    {
      hide Task.Inv;
      if t.on != null {
        assert OnCpu(t);
        Alone(at[t]);
      }
      t.CountedIsLive(tsc, ns);
      t.TimerTick(t.on, tsc, ns);
      LinksKept();
    }

    /** `smon_sched_process_exit` by the process on c. */
    method Exit(c: nat)
      requires Valid() && c < |cpus| && startOn[c] == null && cur[c] != null
      modifies cpus[c], cur[c]
      ensures Valid() && cur[c].phase == Exited
      ensures |cur[c].saved| == old(|cur[c].saved|) + if old(cur[c].phase) == Live then 1 else 0
      ensures old(cur[c].phase) == Live ==> cur[c].left
      ensures old(cur[c].Unstarted()) ==> cur[c].strayTsc == tsc && cur[c].StrayRead(cpus[c])
    {
      hide Task.Inv;
      Alone(c);
      assert Queues(c);
      var t: Task := cur[c];
      t.CountedIsLive(tsc, ns);
      if t.phase == Live {
        t.Exit(cpus[c], tsc, ns);
      } else if t.phase == Waiting {
        t.GiveUp(tsc, ns);
      }
      LinksUpdated(c);
    }

    /** Registration of a root, whose process may be running, or the child of a fork. */
    method Add(pid: nat, envir: Envir, phase: Phase, where: Option<nat>) returns (t: Task)
      requires Valid() && EnvirOk(envir, reg) && phase != Exited
      requires where.Some? ==> where.value < |cpus| && cur[where.value] == null
      modifies this`tasks, this`cur, this`at
      ensures Valid() && tasks == old(tasks) + [t] && fresh(t) && t.phase == phase && t.envir == envir
      ensures cur == if where.Some? then old(cur)[where.value := t] else old(cur)
      ensures t.pid == pid && t.Untouched() && !t.left && t.ledger == BLANK
      ensures t.listed <==> phase == Live && where.Some?
    {
      hide Task.Inv;
      hide Links;
      t := new Task(pid, envir, reg, phase, phase == Live && where.Some?, tsc, ns);
      assert forall u :: u in tasks + [t] ==> Well(u);
      tasks := tasks + [t];
      if where.Some? {
        cur := cur[where.value := t];
        at := at[t := where.value];
      }
      LinksAdded(t, where);
      assert forall c :: 0 <= c < |cpus| && !Busy(c) ==> !old(Busy(c));
    }

    twostate lemma LinksUpdated(c: nat)
      requires old(Links()) && c < |cpus| && |startOn| == |cpus| && cur == old(cur) && cur[c] != null
      requires tasks == old(tasks) && at == old(at) && stopOn == old(stopOn)
      requires startOn == old(startOn)[c := startOn[c]]
      requires startOn[c] != null ==> startOn[c] == cur[c] && Startable(cur[c])
      requires cur[c].on == null || cur[c].on == cpus[c]
      requires cur[c].phase == Live && cur[c].on == null ==> startOn[c] == cur[c]
      requires !cur[c].Unstarted() || cur[c].left == old(cur[c].left)
      requires forall u :: u in tasks && u != cur[c] ==>
        u.on == old(u.on) && u.phase == old(u.phase) && (u.listed ==> u.left == old(u.left))
      ensures Links()
    {
      forall d | 0 <= d < |cpus|
        ensures Queues(d) && (d != c ==> Busy(d) == old(Busy(d)))
      {
        assert old(Queues(d));
        assert startOn[d] != null && d != c ==> old(Startable(startOn[d]));
      }
      assert forall u :: u in tasks && u != cur[c] && (u.on != null || u.Unstarted()) ==> old(OnCpu(u));
    }

    twostate lemma LinksUnqueued(c: nat)
      requires old(Links()) && c < |cpus| && cur == old(cur) && startOn == old(startOn)
      requires tasks == old(tasks) && at == old(at) && stopOn == old(stopOn)[c := null]
      requires forall t :: t in tasks ==>
        t.on == old(t.on) && t.phase == old(t.phase) && (t.listed ==> t.left == old(t.left))
      ensures Links()
    {
      forall d | 0 <= d < |cpus|
        ensures Queues(d) && Busy(d) == old(Busy(d))
      {
        assert old(Queues(d));
        assert startOn[d] != null ==> old(Startable(startOn[d]));
      }
      assert forall t :: t in tasks && (t.on != null || t.Unstarted()) ==> old(OnCpu(t));
    }

    twostate lemma LinksAdded(new t: Task, where: Option<nat>)
      requires old(Links()) && startOn == old(startOn) && stopOn == old(stopOn)
      requires where.Some? ==> where.value < |cpus| && old(cur)[where.value] == null
      requires cur == if where.Some? then old(cur)[where.value := t] else old(cur)
      requires at == if where.Some? then old(at)[t := where.value] else old(at)
      requires tasks == old(tasks) + [t] && t.on == null && fresh(t)
      requires (t.Unstarted() ==> where.Some?) && (t.phase == Live && where.Some? ==> t.Unstarted())
      requires forall u :: u in old(tasks) ==>
        u.on == old(u.on) && u.phase == old(u.phase) && (u.listed ==> u.left == old(u.left))
      ensures Links() && forall d :: 0 <= d < |cpus| ==> Busy(d) == old(Busy(d))
    {
      forall d | 0 <= d < |cpus|
        ensures Queues(d) && Busy(d) == old(Busy(d)) && (cur[d] == t ==> where == Some(d))
      {
        assert old(Queues(d));
        assert startOn[d] != null ==> old(Startable(startOn[d]));
      }
      assert forall u :: u in old(tasks) && (u.on != null || u.Unstarted()) ==> old(OnCpu(u));
    }

    /** An idle machine with nothing monitored. */
    constructor (cpus: seq<Cpu>, reg: Registry)
      requires forall c :: 0 <= c < |cpus| ==> cpus[c].Stopped()
      requires forall c, d :: 0 <= c < d < |cpus| ==> cpus[c] != cpus[d]
      ensures Valid() && this.cpus == cpus && this.reg == reg && tasks == []
      ensures forall c :: 0 <= c < |cpus| ==> cur[c] == startOn[c] == stopOn[c] == null
    {
      this.cpus, this.reg := cpus, reg;
      cur, startOn, stopOn := seq(|cpus|, _ => null), seq(|cpus|, _ => null), seq(|cpus|, _ => null);
      tasks, at, tsc, ns := [], map[], 1, 0;
    }

    /** Whether a step can happen now: interrupts come when they are due, the scheduler runs
        a process on one CPU, and irq_work has run before the next hook on its CPU. */
    predicate Enabled(step: Step)
      reads this, tasks, cur
    {
      |cur| == |startOn| == |stopOn| == |cpus| &&
      match step
      case ElapseStep(_, _) => true
      case OccurStep(c, _) => c < |cpus|
      case SwitchOutStep(c) => c < |cpus| && startOn[c] == null && stopOn[c] == null
      case SwitchInStep(c, i) => c < |cpus| && i < |tasks| && cur[c] == null && tasks[i] !in cur
      case ExecStep(c) => c < |cpus| && startOn[c] == null && cur[c] != null && cur[c].phase == Waiting
      case StartStep(c) => c < |cpus| && startOn[c] != null
      case StopStep(c) => c < |cpus| && stopOn[c] != null
      case TickStep(i) => i < |tasks| && tasks[i].armed && tasks[i].expires <= ns
      case ExitStep(c) => c < |cpus| && startOn[c] == null && cur[c] != null
      case AddStep(_, envir, forked, where) =>
        && EnvirOk(envir, reg)
        && (where.Some? ==> !forked && where.value < |cpus| && cur[where.value] == null)
    }

    /** What a step does. */
    twostate predicate Effect(step: Step)
      reads this, tasks, cpus
    {
      match step
      case ElapseStep(dTsc, dNs) => tsc == old(tsc) + dTsc && ns == old(ns) + dNs && cur == old(cur)
      case OccurStep(c, ev) =>
        && c < |cur| && cur == old(cur)
        && (cur[c] != null && cur[c] in tasks ==>
              cur[c].seen == old(cur[c].seen) + if Busy(c) then [(cur[c].evset, ev)] else [])
      case SwitchOutStep(c) =>
        && c < |old(cur)| && cur == old(cur)[c := null]
        && var t := old(cur)[c]; (t != null && t in tasks && t.phase == Live ==> t.left && t.on == null)
      case SwitchInStep(c, i) =>
        && c < |old(cur)| == |old(startOn)| && i < |tasks| && cur == old(cur)[c := tasks[i]]
        && (tasks[i].phase == Live && tasks[i].envir.options.stat ==> Busy(c) && startOn == old(startOn))
        && (tasks[i].phase == Live && !tasks[i].envir.options.stat ==> startOn == old(startOn)[c := tasks[i]])
      case ExecStep(c) =>
        && c < |startOn| && Passed(c, Live)
        && if cur[c].envir.options.stat then Busy(c) else startOn[c] == cur[c]
      case StartStep(c) =>
        && c < |old(startOn)| && startOn == old(startOn)[c := null]
        && c < |cur| && cur[c] == old(startOn)[c] && Busy(c) && cur[c].armed
      case StopStep(c) =>
        && c < |old(stopOn)| && stopOn == old(stopOn)[c := null]
        && var t := old(stopOn)[c]; t != null && t in tasks && !t.armed && t.on == old(t.on)
      case TickStep(i) =>
        && i < |tasks| && i < |old(tasks)| && tasks[i] == old(tasks)[i]
        && |tasks[i].saved| == old(|tasks[i].saved|) + if old(tasks[i].timerOn) then 1 else 0
      case ExitStep(c) =>
        && Passed(c, Exited)
        && |cur[c].saved| == old(|cur[c].saved|) + if old(cur[c].phase) == Live then 1 else 0
      case AddStep(pid, envir, forked, where) =>
        && tasks != []
        && var t := tasks[|tasks| - 1];
           && t.phase == (if forked || !envir.options.exec then Live else Waiting)
           && t.envir == envir && t.pid == pid && t.saved == [] && t.seen == []
           && (where.Some? ==> where.value < |old(cur)| && cur == old(cur)[where.value := t])
           && (where.None? ==> cur == old(cur))
    }

    /** The task of the process on c has gone over to a phase. */
    twostate predicate Passed(c: nat, phase: Phase)
      reads this, tasks
    {
      c < |cur| && cur == old(cur) && cur[c] != null && cur[c] in tasks && cur[c] in old(tasks) && cur[c].phase == phase
    }

    method Do(step: Step)
      requires Valid() && Enabled(step)
      modifies this, tasks, cpus
      ensures Valid() && old(tasks) <= tasks && Effect(step)
      ensures |tasks| == |old(tasks)| + if step.AddStep? then 1 else 0
      ensures step.AddStep? ==> fresh(tasks[|tasks| - 1]) && (tasks[|tasks| - 1].listed <==> ListsRunning(step))
    {
      hide Valid, Enabled, Effect, ListsRunning;
      match step {
        case ElapseStep(_, _) => Interrupt(step);
        case OccurStep(_, _) => Interrupt(step);
        case StartStep(_) => Interrupt(step);
        case StopStep(_) => Interrupt(step);
        case TickStep(_) => Interrupt(step);
        case _ => Hook(step);
      }
    }

    /** Whatever comes in between the hooks. */
    method Interrupt(step: Step)
      requires Valid() && Enabled(step)
      requires step.ElapseStep? || step.OccurStep? || step.StartStep? || step.StopStep? || step.TickStep?
      modifies this, tasks, cpus
      ensures Valid() && tasks == old(tasks) && Effect(step)
    {
      hide Task.Inv, Task.SameRecord, Task.OnSchedule, Task.CountsTurn, Started, Ticked;
      match step {
        case ElapseStep(dTsc, dNs) => Elapse(dTsc, dNs);
        case OccurStep(c, ev) => Occur(c, ev);
        case StartStep(c) =>
          assert Queues(c) && Startable(startOn[c]);
          RunStart(c);
        case StopStep(c) =>
          assert Queues(c);
          RunStop(c);
        case TickStep(i) => Tick(tasks[i]);
      }
    }

    /** A hook of the scheduler, or a registration. */
    method Hook(step: Step)
      requires Valid() && Enabled(step)
      requires step.SwitchOutStep? || step.SwitchInStep? || step.ExecStep? || step.ExitStep? || step.AddStep?
      modifies this, tasks, cpus
      ensures Valid() && old(tasks) <= tasks && Effect(step)
      ensures |tasks| == |old(tasks)| + if step.AddStep? then 1 else 0
      ensures step.AddStep? ==> fresh(tasks[|tasks| - 1]) && (tasks[|tasks| - 1].listed <==> ListsRunning(step))
    {
      hide Task.Inv, Task.SameRecord, Task.StrayRead, SwitchedOut;
      match step {
        case SwitchOutStep(c) => SwitchOut(c);
        case SwitchInStep(c, i) => SwitchIn(c, tasks[i]);
        case ExecStep(c) => Exec(c);
        case ExitStep(c) => Exit(c);
        case AddStep(pid, envir, forked, where) =>
          var t := Add(pid, envir, if forked || !envir.options.exec then Live else Waiting, where);
      }
    }

    /** Every run, whatever happens in whatever order, as far as it can happen (`done`). For
        each task, event set and counter, the samples handed over plus the pending value are
        the events that occurred while the task was counted under that set; likewise for time;
        and the event sets took turns. This holds of every task that was not put on a run list
        while its process was running, and of no other from when that process first left its
        CPU or exited; and such tasks come from exactly those registrations. */
    method Run(steps: seq<Step>) returns (ghost done: seq<Step>)
      requires Valid()
      modifies this, tasks, cpus
      ensures old(tasks) <= tasks
      ensures (exists s :: s in done && ListsRunning(s)) <==> (exists t :: t in tasks[|old(tasks)|..] && t.listed)
      ensures Valid()
      ensures forall t :: t in tasks ==> (t.TimeKept(tsc) <==> !t.listed || !t.left)
      ensures forall t :: t in tasks && (!t.listed || !t.left) ==> t.CountsKept()
      ensures forall t :: t in tasks && t.listed && (t !in cur || t.phase == Exited) ==> t.left
      ensures forall t :: t in tasks ==> t.TurnsKept()
    {
      hide Task.Inv, Task.CountsKept, Task.TimeKept, Task.TurnsKept, Valid, Enabled, Effect, ListsRunning;
      done := [];
      for n := 0 to |steps|
        invariant Valid() && old(tasks) <= tasks
        invariant forall i :: 0 <= i < |tasks| ==> tasks[i] in old(tasks) || fresh(tasks[i])
        invariant (exists s :: s in done && ListsRunning(s)) <==> (exists t :: t in tasks[|old(tasks)|..] && t.listed)
      {
        if Enabled(steps[n]) {
          ghost var before := tasks;
          Do(steps[n]);
          Recorded(done, steps[n], before[|old(tasks)|..], tasks[|old(tasks)|..]);
          done := done + [steps[n]];
        }
      }
      Kept();
    }

    lemma Kept()
      requires Valid()
      ensures forall t :: t in tasks ==> (t.TimeKept(tsc) <==> !t.listed || !t.left)
      ensures forall t :: t in tasks && (!t.listed || !t.left) ==> t.CountsKept()
      ensures forall t :: t in tasks && t.listed && (t !in cur || t.phase == Exited) ==> t.left
      ensures forall t :: t in tasks ==> t.TurnsKept()
    {
      hide Task.CountsKept, Task.TimeKept, Task.TurnsKept;
      forall t | t in tasks
        ensures t.TurnsKept() && (t.TimeKept(tsc) <==> !t.listed || !t.left)
        ensures (!t.listed || !t.left ==> t.CountsKept()) && (t.listed && (t !in cur || t.phase == Exited) ==> t.left)
      {
        t.Totals(tsc, ns);
        t.CountedIsLive(tsc, ns);
        assert t.Unstarted() ==> OnCpu(t);
      }
    }
  }

  lemma Recorded(done: seq<Step>, step: Step, before: seq<Task>, after: seq<Task>)
    requires (exists s :: s in done && ListsRunning(s)) <==> (exists t :: t in before && t.listed)
    requires if step.AddStep? then |after| == |before| + 1 && after[..|before|] == before
                                   && (after[|before|].listed <==> ListsRunning(step))
             else after == before
    ensures (exists s :: s in done + [step] && ListsRunning(s)) <==> (exists t :: t in after && t.listed)
  {
    if step.AddStep? {
      assert after == before + [after[|before|]];
    }
  }
}
