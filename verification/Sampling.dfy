/** driver/sample.c and the PMC timer of driver/sched.c: one task's virtual counters, its
    sampling budget and the samples it hands to the ring buffer. Two clocks run: the time
    stamp counter (tsc) and the timer clock in nanoseconds (ns). */
module Sampling {
  import opened Environment
  import Bits
  import opened Budget
  import opened Counters

  /** The event set whose turn it is after k samples. */
  function Turn(k: nat, n: nat): nat
    requires n > 0
  {
    k % n
  }

  /** The k-th sample handed over carries the event set whose turn it was, and counts no more
      time than lies between its two time stamps; the first may have stray time on top. */
  ghost predicate SamplesOk(saved: seq<PmcSample>, pid: nat, n: nat, stray: int)
    requires n > 0
  {
    forall k :: 0 <= k < |saved| ==>
      && saved[k].evset == Turn(k, n) && saved[k].pid == pid
      && ((k == 0 && stray > 0) || 0 < saved[k].start)
      && 0 <= saved[k].duration <= saved[k].stop - saved[k].start + if k == 0 then stray else 0
  }

  predicate SpanOk(s: PmcSample, counting: bool, tscTmp: int, tsc: int, stray: int) {
    && 0 <= s.start <= tsc && 0 <= s.duration
    && (s.start == 0 ==> s.duration == stray && !counting)
    && if counting then s.start <= tscTmp <= tsc && s.duration <= tscTmp - s.start + stray
       else s.duration <= s.stop - s.start + stray && s.stop <= tsc
  }

  datatype Phase = Waiting | Live | Exited

  class Task {
    const pid: nat
    const envir: Envir
    const reg: Registry
    var phase: Phase
    var evset: nat
    var sample: PmcSample
    var tscTmp: int
    var armed: bool        // hrtimer_active
    var expires: int
    var ktRemain: int
    var timerOn: bool      // SMON_TIMER_ON in timer_flags
    var on: Cpu?           // the CPU counting this task; known to the model only

    ghost const listed: bool              // put on a run list while its process was running
    ghost var saved: seq<PmcSample>       // handed to smon_sample_write, in order
    ghost var seen: seq<(nat, Event)>     // occurred while counted, with the event set counting
    ghost var startTsc: int               // since when
    ghost var countedDone: int            // cycles counted before that
    ghost var left: bool                  // has been stopped, by a switch or by its exit
    ghost var strayTsc: int               // cycles and counts taken in by a stop without a start
    ghost var strayCtr: seq<int>
    ghost var ledger: Ledger              // of the nanoseconds it was counted, unless in stat mode

    function Es(): Evset
      requires EnvirOk(envir, reg) && evset < envir.nEsids
      reads this`evset
    {
      EvsetOf(envir, reg, evset)
    }

    /** The CPU counts for the event set whose id is the task's present one, with exactly that
        set's counters enabled. */
    ghost predicate CountsTurn(cpu: Cpu)
      reads this`evset, cpu
    {
      && EnvirOk(envir, reg) && evset < envir.nEsids && EsidOk(envir.esids[evset], reg) && cpu.Shape()
      && var es := reg.evsets[envir.esids[evset]];
         cpu.Programmed(es, reg.events) && forall i :: 0 <= i < CTRS ==> (cpu.global[i] <==> Configured(es, i))
    }

    /** Counts not yet handed over. */
    ghost function Pending(): seq<int>
      reads this`on, this`sample, on
    {
      if on == null then sample.ctr else on.ctr
    }

    /** Time stamp cycles this task has been counted in all. */
    ghost function Counted(tsc: int): int
      reads this`countedDone, this`on, this`startTsc
    {
      countedDone + if on == null then 0 else tsc - startTsc
    }

    /** The cycles its samples, saved and pending, account for. */
    ghost function Accounted(tsc: int): int
      reads this`saved, this`sample, this`on, this`tscTmp
    {
      TotalDuration(saved) + sample.duration + if on == null then 0 else tsc - tscTmp
    }

    /** Nanoseconds it has been counted since the last save. */
    ghost function Ran(ns: int): int
      reads this`ledger, this`on
    {
      Budget.Ran(ledger, on != null, ns)
    }

    /** Its timer. */
    ghost function Clock(): Timer
      reads this`armed, this`expires, this`ktRemain
    {
      Timer(armed, expires, ktRemain)
    }

    ghost predicate Shape()
      reads this`evset, this`sample, this`strayCtr, this`saved, this`on, on
    {
      && EnvirOk(envir, reg) && evset < envir.nEsids && |sample.ctr| == CTRS == |strayCtr| && AllFull(saved)
      && (on != null ==> on.Counting(Es(), reg.events))
      && (on == null ==> forall i :: 0 <= i < CTRS && !Configured(Es(), i) ==> sample.ctr[i] == 0)
    }

    /** Sums over all samples plus the pending value are what occurred and what elapsed, but
        for what a stop without a start took in. */
    ghost predicate Conserving(tsc: int)
      requires Shape()
      reads this`evset, this`sample, this`strayCtr, this`saved, this`on
      reads this`seen, this`countedDone, this`startTsc, this`strayTsc, this`tscTmp, on
    {
      && Conserved(saved, evset, Pending(), strayCtr, seen, envir, reg)
      && Accounted(tsc) == Counted(tsc) + strayTsc
    }

    /** Samples span the time they count; event sets take turns. */
    ghost predicate Stamped(tsc: int)
      reads this`saved, this`strayTsc, this`evset, this`sample, this`on, this`tscTmp, this`startTsc
    {
      && envir.nEsids >= 1 && SamplesOk(saved, pid, envir.nEsids, strayTsc)
      && evset == Turn(|saved|, envir.nEsids)
      && SpanOk(sample, on != null, tscTmp, tsc, if saved == [] then strayTsc else 0)
      && (on != null ==> startTsc == tscTmp)
    }

    /** Listed while running, and still running since. */
    ghost predicate Unstarted()
      reads this`left
    {
      listed && !left
    }

    ghost predicate Untouched()
      reads this`on, this`armed, this`tscTmp, this`sample, this`saved, this`seen, this`countedDone, this`ledger
    {
      && on == null && !armed && tscTmp == 0 && sample.start == 0 && sample.duration == 0 && sample.ctr == ZEROS
      && saved == [] && seen == [] && countedDone == 0 && ledger == BLANK
    }

    /** Where a task is in its life. Only one that was listed while running can have stray
        values; an exited one has handed everything over, or never counted. */
    ghost predicate Aged()
      reads this`left, this`strayTsc, this`strayCtr, this`phase, this`on, this`armed
      reads this`tscTmp, this`sample, this`saved, this`seen, this`countedDone, this`ledger
    {
      && 0 <= strayTsc && (strayTsc > 0 <==> listed && left) && (left ==> phase != Waiting)
      && (strayTsc == 0 ==> strayCtr == ZEROS)
      && (on != null ==> phase == Live)
      && (Unstarted() ==> phase == Live && Untouched())
      && (phase == Waiting ==> Untouched())
      && (phase == Exited ==> if saved == [] then Untouched() else on == null && sample == CLEARED)
    }

    /** The ledger is kept sample by sample, and the timer by the ledger. */
    ghost predicate Timed(ns: int)
      reads this`on, this`armed, this`timerOn, this`phase, this`saved, this`expires, this`ktRemain, this`ledger
    {
      && (envir.options.stat ==> !armed && !timerOn && (phase != Exited ==> saved == []) && |saved| <= 1)
      && (!envir.options.stat ==>
            && |ledger.runs| == |saved|
            && (on != null ==> timerOn && (armed || ledger.cut))
            && (on == null && armed ==> !timerOn)
            && (on == null && phase != Exited ==> !ledger.ticked)
            && (Period(envir) > 0 ==>
                  Scheduled(ledger, Clock(), Period(envir), on != null, phase == Exited, ns)))
    }

    ghost predicate Inv(tsc: int, ns: int)
      reads this, on
    {
      Shape() && Conserving(tsc) && Stamped(tsc) && Aged() && Timed(ns)
    }

    /** Starting and stopping the timer changes nothing of this. */
    twostate predicate SameRecord()
      reads this
    {
      saved == old(saved) && seen == old(seen) && left == old(left)
    }

    /** `smon_create_task` (phase Waiting, or Live without the exec option) and
        `smon_create_child` (phase Live). */
    constructor (pid: nat, envir: Envir, reg: Registry, phase: Phase, ghost listed: bool, ghost tsc: int, ghost ns: int)
      requires EnvirOk(envir, reg) && phase != Exited && tsc > 0 && (listed ==> phase == Live)
      ensures Inv(tsc, ns) && this.phase == phase && this.envir == envir && this.reg == reg && this.pid == pid
      ensures Untouched() && !left && this.listed == listed && ledger == BLANK && fresh(this)
    {
      this.pid, this.envir, this.reg, this.phase := pid, envir, reg, phase;
      evset, sample, tscTmp := 0, CLEARED.(pid := pid), 0;
      armed, expires, ktRemain, timerOn := false, 0, 0, false;
      this.listed := listed;
      saved, seen, on := [], [], null;
      startTsc, countedDone, ledger := 0, 0, BLANK;
      left, strayTsc, strayCtr := false, 0, ZEROS;
    }

    /** `smon_sample_start` on the current CPU. */
    method SampleStart(cpu: Cpu, tsc: int)
      requires Shape() && Conserving(tsc) && Stamped(tsc) && on == null && phase == Live
      requires cpu.Shape() && tsc > 0
      modifies this`sample, this`tscTmp, this`on, this`startTsc, cpu
      ensures Shape() && Conserving(tsc) && Stamped(tsc)
      ensures on == cpu && startTsc == tsc && sample.start > 0 && CountsTurn(cpu)
      ensures sample == old(sample).(start := if old(sample).start == 0 then tsc else old(sample).start)
      ensures Pending() == old(Pending())
    {
      hide Period, Turn, SamplesOk, Conserved, TotalDuration, EnvirOk, AllFull;
      hide Configured, NextEvset, EvsetOf, EvsetOk, Cpu.Programmed;
      var es := Es();
      cpu.PmcSet(es, reg.events);
      cpu.PmcWrite(sample.ctr);
      tscTmp := tsc;
      if sample.start == 0 {
        sample := sample.(start := tsc);
      }
      cpu.PmcStart(es, reg.events);
      assert cpu.Counting(es, reg.events);
      TurnCounted(cpu);
      hide Cpu.Counting, CountsTurn;
      on, startTsc := cpu, tsc;
    }

    lemma TurnCounted(cpu: Cpu)
      requires EnvirOk(envir, reg) && evset < envir.nEsids && cpu.Counting(Es(), reg.events)
      ensures CountsTurn(cpu)
    {
      assert EsidOk(envir.esids[evset], reg);
    }

    /** `smon_sample_stop`: the counters are stopped and read back into the task. If they were
        never started, they hold what the CPU had left in them, and the time since tsc_tmp is
        all the time there ever was. */
    method SampleStop(cpu: Cpu, tsc: int)
      requires Shape() && Conserving(tsc) && Stamped(tsc) && Aged() && tsc > 0
      requires if Unstarted() then cpu.Shape() else on == cpu
      modifies this`sample, this`on, this`countedDone, this`left, this`strayTsc, this`strayCtr, cpu`global
      ensures Shape() && Conserving(tsc) && Stamped(tsc) && on == null && cpu.Stopped() && sample.stop == tsc
      ensures countedDone == old(Counted(tsc)) && sample.start == old(sample.start)
      ensures left && (strayTsc == 0 ==> strayCtr == ZEROS)
      ensures if old(Unstarted()) then strayTsc == tsc && saved == [] && StrayRead(cpu)
        else Pending() == old(Pending()) && sample.start > 0 && strayTsc == old(strayTsc) && strayCtr == old(strayCtr)
    {
      hide Period, Turn, SamplesOk, Conserved, TotalDuration, EnvirOk, AllFull, NextEvset, EvsetOf, Configured;
      ghost var stray := Unstarted();
      ReadBack(cpu, tsc);
      if stray {
        strayTsc, strayCtr := tsc, sample.ctr;
        NothingYet();
      } else {
        assert sample.ctr == cpu.ctr;
        countedDone := countedDone + (tsc - startTsc);
      }
      on, left := null, true;
    }

    /** The registers and the sample. */
    method ReadBack(cpu: Cpu, tsc: int)
      requires EnvirOk(envir, reg) && evset < envir.nEsids && cpu.Shape()
      modifies this`sample, cpu`global
      ensures cpu.Stopped() && |sample.ctr| == CTRS
      ensures forall i :: 0 <= i < CTRS ==> sample.ctr[i] == if Configured(Es(), i) then cpu.ctr[i] else 0
      ensures sample == old(sample).(stop := tsc, duration := old(sample.duration) + (tsc - tscTmp), ctr := sample.ctr)
    {
      cpu.PmcStop();
      sample := sample.(stop := tsc, duration := sample.duration + (tsc - tscTmp));
      var pmc := cpu.PmcRead(Es(), reg.events);
      sample := sample.(ctr := pmc);
    }

    /** What was read is what the CPU holds in the counters of the first event set. */
    ghost predicate StrayRead(cpu: Cpu)
      reads this`strayCtr, cpu`ctr
    {
      && EnvirOk(envir, reg) && |strayCtr| == CTRS == |cpu.ctr|
      && forall i :: 0 <= i < CTRS ==>
           strayCtr[i] == if Configured(EvsetOf(envir, reg, 0), i) then cpu.ctr[i] else 0
    }

    /** Before the first sample and the first event. */
    lemma NothingYet()
      requires EnvirOk(envir, reg) && saved == [] && seen == [] && evset == Turn(0, envir.nEsids)
      requires |sample.ctr| == CTRS && strayCtr == sample.ctr
      ensures evset == 0 && TotalDuration(saved) == 0 && SamplesOk(saved, pid, envir.nEsids, strayTsc)
      ensures AllFull(saved) && Conserved(saved, evset, sample.ctr, strayCtr, seen, envir, reg)
    {
    }

    /** `smon_sample_save`: the sample is handed over, cleared, and the next event set is due. */
    method SampleSave(tsc: int)
      requires Shape() && Conserving(tsc) && Stamped(tsc) && on == null
      requires sample.start > 0 || (strayTsc > 0 && saved == [])
      modifies this`sample, this`evset, this`saved
      ensures Shape() && Conserving(tsc) && Stamped(tsc)
      ensures saved == old(saved) + [old(sample).(pid := pid, evset := old(evset))]
      ensures evset == NextEvset(envir, old(evset)) && sample == CLEARED
    {
      hide Conserved, TotalDuration, SamplesOk, Turn, EnvirOk, EvsetOf, Configured, AllFull;
      sample := sample.(pid := pid, evset := evset);
      ConservedSave(saved, sample, strayCtr, seen, envir, reg, NextEvset(envir, evset));
      SamplesGrow(saved, sample, pid, envir.nEsids, strayTsc);
      saved := saved + [sample];
      sample := CLEARED;
      evset := NextEvset(envir, evset);
    }

    /** Stop and save, as the tick and the exit hook do. */
    method TakeSample(cpu: Cpu, tsc: int)
      requires Shape() && Conserving(tsc) && Stamped(tsc) && Aged() && tsc > 0
      requires if Unstarted() then cpu.Shape() else on == cpu
      modifies this`sample, this`on, this`countedDone, this`evset, this`saved
      modifies this`left, this`strayTsc, this`strayCtr, cpu`global
      ensures Shape() && Conserving(tsc) && Stamped(tsc) && on == null && cpu.Stopped()
      ensures |saved| == old(|saved|) + 1 && sample == CLEARED && left && (strayTsc == 0 ==> strayCtr == ZEROS)
      ensures if old(Unstarted()) then strayTsc == tsc && StrayRead(cpu)
        else strayTsc == old(strayTsc) && strayCtr == old(strayCtr)
    {
      hide Turn, SamplesOk, Conserved, TotalDuration, EnvirOk, AllFull, Configured, NextEvset, EvsetOf, SpanOk;
      hide StrayRead;
      SampleStop(cpu, tsc);
      SampleSave(tsc);
    }

    /** `start_timer_pmc`. */
    method StartTimer(cpu: Cpu, tsc: int, ns: int)
      requires Inv(tsc, ns) && !envir.options.stat && phase == Live && on == null && !Unstarted()
      requires cpu.Shape() && tsc > 0
      modifies this`armed, this`expires, this`timerOn, this`sample, this`tscTmp
      modifies this`on, this`startTsc, this`ledger, cpu
      ensures Inv(tsc, ns) && on == cpu && armed && timerOn && Pending() == old(Pending()) && SameRecord()
      ensures ledger == Started(old(ledger), ns)
      ensures expires - ns == if ktRemain <= 0 then Period(envir) else ktRemain
    {
      hide Period, Turn, SamplesOk, Conserved, TotalDuration, EnvirOk, AllFull, SpanOk, Scheduled, Started;
      hide Configured, NextEvset, EvsetOf, Shape, Conserving, Stamped, Cpu.Counting;
      var kt := if ktRemain <= 0 then Period(envir) else ktRemain;
      Starting(ns);
      timerOn := true;
      armed, expires := true, ns + kt;
      SampleStart(cpu, tsc);
      ledger := Started(ledger, ns);
    }

    lemma Starting(ns: int)
      requires Timed(ns) && on == null && !envir.options.stat && phase == Live
      ensures |Started(ledger, ns).runs| == |saved|
      ensures Period(envir) > 0 ==> Scheduled(Started(ledger, ns),
        Timer(true, ns + NextTimer(Clock(), Period(envir)), ktRemain), Period(envir), true, false, ns)
    {
      hide Period, Scheduled;
      if Period(envir) > 0 {
        StartKeeps(ledger, Clock(), Period(envir), ns);
      }
    }

    /** `smon_sched_task_in`: counting starts at once in stat mode, else with the queued
        irq_work. */
    method TaskIn(cpu: Cpu, tsc: int, ghost ns: int) returns (queueStart: bool)
      requires Inv(tsc, ns) && phase == Live && on == null && !Unstarted() && cpu.Shape() && tsc > 0
      modifies this`sample, this`tscTmp, this`on, this`startTsc, cpu
      ensures Inv(tsc, ns) && queueStart == !envir.options.stat
      ensures if queueStart then on == null && sample == old(sample) && unchanged(cpu) else on == cpu
    {
      hide Period, Turn, SamplesOk, Conserved, TotalDuration, EnvirOk, AllFull, Configured, NextEvset, EvsetOf;
      hide Scheduled;
      if envir.options.stat {
        SampleStart(cpu, tsc);
      }
      queueStart := !envir.options.stat;
    }

    /** `smon_sched_task_out`: a period that is up by now is saved here, and the tick, which
        may still fire, is told not to. If the timer has been cancelled, nothing is saved, and
        the stint goes without a timer. */
    method TaskOut(cpu: Cpu, tsc: int, ns: int) returns (queueStop: bool)
      requires Inv(tsc, ns) && tsc > 0 && (if Unstarted() then cpu.Shape() else on == cpu)
      modifies this`sample, this`on, this`countedDone, this`evset, this`saved, this`left, this`strayTsc
      modifies this`strayCtr, this`ktRemain, this`timerOn, this`ledger, cpu`global
      ensures Inv(tsc, ns) && on == null && left && cpu.Stopped()
      ensures queueStop == armed && (queueStop ==> !timerOn)
      ensures |saved| == old(|saved|) + if armed && expires <= ns then 1 else 0
      ensures !armed || expires > ns ==> saved == old(saved)
      ensures ktRemain == if armed then expires - ns else old(ktRemain)
      ensures ledger == old(if on == null || envir.options.stat then ledger else SwitchedOut(ledger, Clock(), ns))
      ensures old(Unstarted()) ==> strayTsc == tsc && StrayRead(cpu)
      ensures !old(Unstarted()) ==> strayTsc == old(strayTsc) && strayCtr == old(strayCtr)
    {
      hide Period, Turn, SamplesOk, Conserved, TotalDuration, EnvirOk, AllFull, StrayRead, Scheduled, SwitchedOut;
      hide Configured, NextEvset, EvsetOf, SpanOk, Shape, Conserving, Stamped;
      ghost var counted := on != null && !envir.options.stat;
      assert Unstarted() ==> on == null && !armed;
      hide Untouched;
      if counted {
        Switching(ns);
      }
      SampleStop(cpu, tsc);
      queueStop := KeepTime(tsc, ns);
      if counted {
        ledger := SwitchedOut(ledger, old(Clock()), ns);
      }
    }

    /** What is done if the timer runs. */
    method KeepTime(tsc: int, ns: int) returns (queueStop: bool)
      requires Shape() && Conserving(tsc) && Stamped(tsc) && on == null && (armed ==> sample.start > 0)
      modifies this`sample, this`evset, this`saved, this`ktRemain, this`timerOn
      ensures Shape() && Conserving(tsc) && Stamped(tsc)
      ensures queueStop == armed && timerOn == (old(timerOn) && !armed)
      ensures if armed && expires <= ns then |saved| == old(|saved|) + 1 && sample == CLEARED
        else saved == old(saved) && sample == old(sample)
      ensures ktRemain == if armed then expires - ns else old(ktRemain)
    {
      hide Shape, Conserving, Stamped;
      queueStop := armed;
      if armed {
        ktRemain := expires - ns;
        if ktRemain <= 0 {
          SampleSave(tsc);
        }
        timerOn := false;
      }
    }

    lemma Switching(ns: int)
      requires Timed(ns) && on != null && !envir.options.stat && phase == Live
      ensures !SwitchedOut(ledger, Clock(), ns).ticked
      ensures |SwitchedOut(ledger, Clock(), ns).runs| == |saved| + if armed && expires <= ns then 1 else 0
      ensures Period(envir) > 0 ==> Scheduled(SwitchedOut(ledger, Clock(), ns),
        Timer(armed, expires, if armed then expires - ns else ktRemain), Period(envir), false, false, ns)
    {
      hide Period, Scheduled;
      if Period(envir) > 0 {
        SwitchKeeps(ledger, Clock(), Period(envir), ns);
      }
    }

    /** The tick's work: take and save the sample, forward the timer, start again. */
    method Retake(cpu: Cpu, tsc: int, ns: int)
      requires Inv(tsc, ns) && armed && expires <= ns && timerOn && on == cpu && tsc > 0
      modifies this`sample, this`on, this`countedDone, this`evset, this`saved, this`left, this`strayTsc
      modifies this`strayCtr, this`ktRemain, this`expires, this`tscTmp, this`startTsc, this`ledger, cpu
      ensures Inv(tsc, ns) && on == cpu && armed && expires > ns && |saved| == old(|saved|) + 1
      ensures ledger == Ticked(old(ledger), old(Clock()), Period(envir), ns)
      ensures expires == HrtimerForward(old(expires), ns, Period(envir)) && strayTsc == old(strayTsc)
      ensures listed ==> old(left)
    {
      hide Period, Turn, SamplesOk, Conserved, TotalDuration, EnvirOk, AllFull, Configured, StrayRead;
      hide NextEvset, SpanOk, EvsetOf, Cpu.Counting, Shape, Conserving, Stamped, Scheduled, HrtimerForward;
      hide Ticked;
      Ticking(ns);
      TakeSample(cpu, tsc);
      ledger := Ticked(ledger, Clock(), Period(envir), ns);
      expires := HrtimerForward(expires, ns, Period(envir));
      ktRemain := Period(envir);
      SampleStart(cpu, tsc);
    }

    lemma Ticking(ns: int)
      requires Timed(ns) && on != null && armed && expires <= ns && phase == Live
      ensures |Ticked(ledger, Clock(), Period(envir), ns).runs| == |saved| + 1
      ensures Period(envir) > 0 ==> Scheduled(Ticked(ledger, Clock(), Period(envir), ns),
        Timer(true, HrtimerForward(expires, ns, Period(envir)), Period(envir)), Period(envir), true, false, ns)
    {
      hide Period, Scheduled, HrtimerForward;
      if Period(envir) > 0 {
        TickKeeps(ledger, Clock(), Period(envir), ns);
      }
    }

    /** `smon_sched_timer_tick`, once the timer has expired. */
    method TimerTick(cpu: Cpu?, tsc: int, ns: int)
      requires Inv(tsc, ns) && armed && expires <= ns && on == cpu && tsc > 0
      modifies this`sample, this`on, this`countedDone, this`evset, this`saved, this`left, this`strayTsc
      modifies this`strayCtr, this`ktRemain, this`armed, this`expires, this`tscTmp, this`startTsc, this`ledger, cpu
      ensures Inv(tsc, ns) && on == old(on) && strayTsc == old(strayTsc) && (listed ==> left == old(left))
      ensures |saved| == old(|saved|) + if timerOn then 1 else 0
      ensures ledger == if timerOn then Ticked(old(ledger), old(Clock()), Period(envir), ns) else old(ledger)
      ensures if timerOn then armed && expires == HrtimerForward(old(expires), ns, Period(envir))
              else !armed && saved == old(saved) && sample == old(sample) && left == old(left)
    {
      hide Period, Turn, Shape, Conserving, Stamped, HrtimerForward, Ticked, Scheduled;
      if timerOn {
        Retake(cpu, tsc, ns);
      } else {
        if Period(envir) > 0 {
          StopKeeps(ledger, Clock(), Period(envir), false, phase == Exited, ns);
        }
        armed := false;
      }
    }

    lemma CountedIsLive(tsc: int, ns: int)
      requires Inv(tsc, ns)
      ensures on != null ==> phase == Live && !Unstarted()
      ensures armed ==> !envir.options.stat && phase != Waiting && !Unstarted() && (on != null <==> timerOn)
      ensures phase != Live ==> on == null && !Unstarted()
    {
      hide SamplesOk, Conserved, Period;
    }

    /** Reported plus pending is occurred, for every event set and counter. */
    ghost predicate CountsKept()
      reads this, on
    {
      Shape() && Conserved(saved, evset, Pending(), ZEROS, seen, envir, reg)
    }

    /** Saved and pending durations make up the time counted. */
    ghost predicate TimeKept(tsc: int)
      reads this
    {
      Accounted(tsc) == Counted(tsc)
    }

    /** The k-th sample has event set k mod n_esids and spans the time it counts. */
    ghost predicate TurnsKept()
      reads this
    {
      envir.nEsids > 0 && SamplesOk(saved, pid, envir.nEsids, strayTsc)
    }

    /** For a family registered outside stat mode with this environment: the k-th sample counts
        for the user's event set k modulo their number. */
    lemma UserTurns(user: Envir, k: nat)
      requires TurnsKept() && envir == CreateEnvir(user).(count := envir.count) && !user.options.stat
      requires k < |saved| && 0 < user.nEsids <= |user.esids|
      ensures saved[k].evset == k % user.nEsids && envir.esids[saved[k].evset] == user.esids[k % user.nEsids]
    {
    }

    /** Counts and time add up, exactly unless the task was listed while its process was
        running and has left that CPU since: then the time is off by all the cycles up to that
        moment, and the counts by what the CPU held. */
    lemma Totals(tsc: int, ns: int)
      requires Inv(tsc, ns)
      ensures TimeKept(tsc) <==> !listed || !left
      ensures CountsKept() <==> strayCtr == ZEROS
      ensures (!listed || !left ==> strayCtr == ZEROS) && TurnsKept()
    {
      hide SamplesOk, Period, Conserved, TotalDuration, Occurred, Reported;
      BaseShows(saved, evset, Pending(), strayCtr, seen, envir, reg);
    }

    ghost predicate OnSchedule(ns: int)
      reads this`on, this`armed, this`expires, this`ktRemain, this`ledger
    {
      Budget.OnSchedule(ledger, Clock(), Period(envir), on != null, ns)
    }

    /** With no tick late, the budget fails exactly while a counted task has no timer, and
        after that until the next save if it was counted for any time like that. Only a stop
        queued elsewhere can bring that about. */
    lemma BudgetFails(tsc: int, ns: int)
      requires Inv(tsc, ns) && !envir.options.stat && Period(envir) > 0 && phase != Exited && !ledger.late
      ensures OnSchedule(ns) <==> ledger.untimed == 0 && (on != null ==> armed)
      ensures !OnSchedule(ns) ==> ledger.cut
    {
      hide Period, Shape, Conserving, Stamped;
      BudgetExact(ledger, Clock(), Period(envir), on != null, ns);
    }

    /** A task sampled on time has had exactly one sample for every whole period it was counted
        with a timer, by the tick or by the switch, never both, never neither; hence never two
        for one period. Unless a stop queued elsewhere has come late, there was always a timer. */
    lemma PeriodsSaved(tsc: int, ns: int)
      requires Inv(tsc, ns) && !envir.options.stat && Period(envir) > 0 && !ledger.late
      requires phase != Exited && (on != null && armed ==> ns < expires)
      ensures var gap := Untimed(ledger, Clock(), on != null, ns);
        && |saved| == (Sum(ledger.runs) - Sum(ledger.gaps) + Ran(ns) - gap) / Period(envir)
        && (!ledger.cut ==> Sum(ledger.gaps) == gap == 0)
      ensures |saved| * Period(envir) <= Sum(ledger.runs)
    {
      hide Period, Shape, Conserving, Stamped, AllEqual, Periods, Sum;
      OnePerPeriod(ledger.runs, ledger.gaps, Ran(ns) - Untimed(ledger, Clock(), on != null, ns), Period(envir));
      if !ledger.cut {
        SumZero(ledger.gaps);
      }
    }

    /** An exited one has had, besides, one for what was left, at most a period with a timer. */
    lemma PeriodsSavedAtExit(tsc: int, ns: int)
      requires Inv(tsc, ns) && !envir.options.stat && Period(envir) > 0 && !ledger.late
      requires phase == Exited && saved != []
      ensures (|saved| - 1) * Period(envir) <= Sum(ledger.runs) - Sum(ledger.gaps) <= |saved| * Period(envir)
      ensures (|saved| - 1) * Period(envir) <= Sum(ledger.runs) && (!ledger.cut ==> Sum(ledger.gaps) == 0)
    {
      hide Period, Shape, Conserving, Stamped, AllEqual, Ended, Sum;
      PeriodsAndRest(ledger.runs, ledger.gaps, Period(envir));
      if !ledger.cut {
        SumZero(ledger.gaps);
      }
    }

    /** In stat mode a task that has exited has left one sample, holding its whole run, or was
        never counted. */
    lemma StatSample(tsc: int, ns: int)
      requires Inv(tsc, ns) && envir.options.stat && phase == Exited
      ensures if saved == [] then seen == [] && Counted(tsc) == 0
        else |saved| == 1 && saved[0].duration == Counted(tsc) + strayTsc
             && forall i :: 0 <= i < CTRS ==> saved[0].ctr[i] == Occurred(seen, envir, reg, 0, i) + strayCtr[i]
    {
      hide Period;
      if saved != [] {
        assert saved == [saved[0]];
        assert Turn(0, 1) == 0;
        WholeRun(saved[0], evset, strayCtr, seen, envir, reg);
      }
    }

    /** An event occurs on the CPU counting this task. */
    method Occur(cpu: Cpu, ev: Event, ghost tsc: int, ghost ns: int)
      requires Inv(tsc, ns) && on == cpu
      modifies this`seen, cpu`ctr
      ensures Inv(tsc, ns) && seen == old(seen) + [(evset, ev)] && CountsTurn(cpu)
      ensures forall i :: 0 <= i < CTRS ==>
        Pending()[i] == old(Pending())[i] + if Counts(reg.evsets[envir.esids[evset]], reg.events, i, ev) then 1 else 0
    {
      TurnCounted(cpu);
      hide SamplesOk, TotalDuration, Turn, Conserved, Period;
      ghost var was := cpu.ctr;
      cpu.Occur(ev);
      ConservedOccur(saved, evset, was, cpu.ctr, strayCtr, seen, ev, envir, reg);
      seen := seen + [(evset, ev)];
    }

    /** Off the wait list, onto a run list. */
    method GoLive(ghost tsc: int, ghost ns: int)
      requires Inv(tsc, ns) && phase == Waiting
      modifies this`phase
      ensures Inv(tsc, ns) && phase == Live && !Unstarted()
    {
      hide SamplesOk, Conserved, Period;
      phase := Live;
    }

    /** Exit from the wait list, without a sample. */
    method GiveUp(ghost tsc: int, ghost ns: int)
      requires Inv(tsc, ns) && phase == Waiting
      modifies this`phase
      ensures Inv(tsc, ns) && phase == Exited
    {
      hide SamplesOk, Conserved, Period;
      phase := Exited;
    }

    /** `stop_timer_pmc`. If the task has been started again elsewhere by now, the timer it
        loses is one it needs. */
    method StopTimer(ghost tsc: int, ghost ns: int)
      requires Inv(tsc, ns) && !envir.options.stat
      modifies this`armed, this`ledger
      ensures Inv(tsc, ns) && !armed && ledger == old(ledger.(cut := ledger.cut || on != null))
    {
      hide Shape, Conserving, Stamped, Period, Scheduled;
      if Period(envir) > 0 {
        StopKeeps(ledger, Clock(), Period(envir), on != null, phase == Exited, ns);
      }
      ledger := ledger.(cut := ledger.cut || on != null);
      armed := false;
    }

    lemma Exiting(ns: int)
      requires Timed(ns) && phase == Live && (on == null ==> ledger == BLANK)
      ensures !envir.options.stat ==> |Saved(ledger, Clock(), on != null, ns).runs| == |saved| + 1
      ensures !envir.options.stat && Period(envir) > 0 ==>
        Scheduled(Saved(ledger, Clock(), on != null, ns), Clock().(armed := false), Period(envir), false, true, ns)
    {
      hide Period, Scheduled;
      if !envir.options.stat && Period(envir) > 0 {
        ExitKeeps(ledger, Clock(), Period(envir), on != null, ns);
      }
    }

    /** The sampling part of `smon_sched_process_exit` for a running task. */
    method Exit(cpu: Cpu, tsc: int, ghost ns: int)
      requires Inv(tsc, ns) && tsc > 0 && phase == Live && (if Unstarted() then cpu.Shape() else on == cpu)
      modifies this`sample, this`on, this`countedDone, this`evset, this`saved, this`left, this`strayTsc
      modifies this`strayCtr, this`armed, this`phase, this`ledger, cpu`global
      ensures Inv(tsc, ns) && phase == Exited && on == null && !armed && left && cpu.Stopped()
      ensures |saved| == old(|saved|) + 1 && sample == CLEARED
      ensures old(Unstarted()) ==> strayTsc == tsc && StrayRead(cpu)
      ensures !old(Unstarted()) ==> strayTsc == old(strayTsc) && strayCtr == old(strayCtr)
      ensures ledger == Saved(old(ledger), old(Clock()), old(on) != null, ns)
    {
      hide Period, Turn, SamplesOk, Conserved, TotalDuration, EnvirOk, AllFull, StrayRead, Scheduled;
      hide Shape, Conserving, Stamped, Configured, NextEvset, EvsetOf, SpanOk, Cpu.Counting;
      hide Saved;
      Exiting(ns);
      armed := false;
      TakeSample(cpu, tsc);
      ledger := Saved(ledger, old(Clock()), old(on) != null, ns);
      phase := Exited;
    }
  }

  /** A sample joins the ones handed over. */
  lemma SamplesGrow(saved: seq<PmcSample>, s: PmcSample, pid: nat, n: nat, stray: int)
    requires n > 0 && SamplesOk(saved, pid, n, stray) && s.evset == Turn(|saved|, n) && s.pid == pid
    requires (saved == [] && stray > 0) || 0 < s.start
    requires 0 <= s.duration <= s.stop - s.start + if saved == [] then stray else 0
    ensures SamplesOk(saved + [s], pid, n, stray)
    ensures (s.evset + 1) % n == Turn(|saved + [s]|, n)
    ensures TotalDuration(saved + [s]) == TotalDuration(saved) + s.duration
  {
    assert (saved + [s])[..|saved|] == saved;
    TakeTurn(|saved|, n);
  }

  lemma NextTurn(k: nat, n: nat, q: nat, r: nat)
    requires k == n * q + r && r < n
    ensures (r + 1) % n == (k + 1) % n
  {
    if r + 1 < n {
      Bits.ModIs(k + 1, n, q, r + 1);
      Bits.ModIs(r + 1, n, 0, r + 1);
    } else {
      assert n * (q + 1) == n * q + n;
      Bits.ModIs(k + 1, n, q + 1, 0);
      Bits.ModIs(n, n, 1, 0);
    }
  }

  /** A single sample with nothing pending holds everything that occurred. */
  lemma WholeRun(s: PmcSample, evset: nat, base: seq<int>, seen: seq<(nat, Event)>, e: Envir, reg: Registry)
    requires EnvirOk(e, reg) && e.nEsids == 1 && AllFull([s]) && s.evset == 0 && |base| == CTRS
    requires Conserved([s], evset, ZEROS, base, seen, e, reg)
    ensures forall i :: 0 <= i < CTRS ==> s.ctr[i] == Occurred(seen, e, reg, 0, i) + base[i]
    ensures TotalDuration([s]) == s.duration
  {
    assert [s][..0] == [];
    forall i | 0 <= i < CTRS
      ensures Reported([s], 0, i) == s.ctr[i] && ZEROS[i] == 0
    {
    }
    assert forall i :: 0 <= i < CTRS ==> Reported([s], 0, i) == Occurred(seen, e, reg, 0, i) + base[i];
  }

  /** Time passing breaks no promise. */
  lemma Later(t: Task, tsc: int, ns: int, tsc': int, ns': int)
    requires t.Inv(tsc, ns) && tsc <= tsc' && ns <= ns'
    ensures t.Inv(tsc', ns')
  {
    hide SamplesOk, TotalDuration, Turn, Conserved, Period;
  }

  lemma TakeTurn(k: nat, n: nat)
    requires n > 0
    ensures (Turn(k, n) + 1) % n == Turn(k + 1, n)
  {
    var q, r := k / n, k % n;
    NextTurn(k, n, q, r);
  }
}
