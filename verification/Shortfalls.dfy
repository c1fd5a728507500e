/** Two runs of the machine in which the samples are wrong, or missing. */
module Shortfalls {
  import opened Wrappers
  import opened Environment
  import opened Budget
  import opened Counters
  import opened Sampling
  import opened Monitor

  const EVSET := Evset([-1, -1, -1, -1], [1, 0, 0], [true, false, false, false, false, false, false])
  const REG := Registry([], [EVSET])

  function Options(exec: bool, stat: bool): Environment.Options {
    Environment.Options(false, exec, false, false, false, false, stat)
  }

  /** One event set with one fixed counter, 10 ms. */
  function One(exec: bool, stat: bool): (e: Envir)
    ensures EnvirOk(e, REG) && Period(e) == 10_000_000
  {
    Envir(seq(MUX_EVSETS, _ => 0), 1, 10, 1, Options(exec, stat), 1)
  }

  /** A process counts one event and leaves the CPU; the next one there is registered without
      the exec option and leaves in turn. Its sample has the other's event, and more time than
      it was ever counted for. */
  method ListedWhileRunning() returns (m: Machine, t: Task)
    ensures m.Valid() && t in m.tasks && t.listed && t.seen == []
    ensures !t.CountsKept() && !t.TimeKept(m.tsc)
  {
    hide Task.Inv, Machine.Links, Task.CountsKept, Task.TimeKept, Task.OnSchedule;
    m := LeftBehind();
    t := m.Add(2, One(false, true), Live, Some(0));
    m.SwitchOut(0);
    assert m.Well(t);
    t.Totals(m.tsc, m.ns);
  }

  method LeftBehind() returns (m: Machine)
    ensures m.Valid() && |m.cpus| == 1 && m.cur[0] == m.startOn[0] == m.stopOn[0] == null
    ensures m.reg == REG && m.cpus[0].Shape() && m.cpus[0].ctr[0] == 1
    ensures fresh(m) && fresh(m.tasks) && fresh(m.cpus)
  {
    hide Task.Inv, Machine.Links, Machine.Well, Task.OnSchedule, Task.CountsTurn, Task.StrayRead, Period;
    var cpu := new Cpu();
    m := new Machine([cpu], REG);
    var t := m.Add(1, One(true, true), Waiting, Some(0));
    m.Exec(0);
    m.Occur(0, Fixed(0));
    FirstCount(m, t);
    m.SwitchOut(0);
  }

  /** The counter holds the one event. */
  lemma FirstCount(m: Machine, t: Task)
    requires m.Valid() && |m.cpus| == 1 && m.cur[0] == t && m.Busy(0) && t.seen == [(t.evset, Fixed(0))]
    requires t.saved == [] && !t.left && m.reg == REG && t.envir == One(true, true)
    ensures m.cpus[0].ctr[0] == 1
  {
    hide Period, Task.Timed;
    assert Turn(0, 1) == 0;
    assert Reported(t.saved, 0, 0) + t.Pending()[0] == Occurred(t.seen, t.envir, t.reg, 0, 0) + t.strayCtr[0];
    assert t.seen[..0] == [];
  }

  /** A task leaves CPU 0 after 4 ms, with its stop queued there, and is started again on CPU 1
      before that stop runs. Then its timer is cancelled: 100 ms later no sample has been taken
      and no tick is to come, though none was late. */
  method StoppedElsewhere() returns (m: Machine, t: Task)
    ensures m.Valid() && m.tasks == [t] && t.on != null && !t.ledger.late && t.saved == []
    ensures t.Ran(m.ns) == 104_000_000 > Period(t.envir) && !m.Enabled(TickStep(0))
  {
    hide Task.Inv, Machine.Links, Machine.Well, Task.OnSchedule, Period;
    m, t := Leaving();
    m.SwitchIn(1, t);
    m.RunStart(1);
    m.RunStop(0);
    m.Elapse(1, 100_000_000);
  }

  method Leaving() returns (m: Machine, t: Task)
    ensures m.Valid() && m.tasks == [t] && |m.cpus| == 2 && m.cur == [null, null]
    ensures m.startOn == [null, null] && m.stopOn == [t, null]
    ensures t.phase == Live && t.envir == One(true, false) && t.saved == []
    ensures !t.ledger.late && t.ledger.ran == 4_000_000
    ensures fresh(m) && fresh(t) && fresh(m.cpus)
  {
    hide Task.Inv, Machine.Links, Task.OnSchedule, Period;
    m, t := Running();
    m.Elapse(1, 4_000_000);
    OnTime(t, m.tsc, m.ns);
    m.SwitchOut(0);
  }

  method Running() returns (m: Machine, t: Task)
    ensures m.Valid() && m.tasks == [t] && |m.cpus| == 2 && m.cur == [t, null] && m.Busy(0)
    ensures m.startOn == m.stopOn == [null, null]
    ensures t.envir == One(true, false) && t.saved == [] && t.ledger == BLANK.(start := m.ns)
    ensures fresh(m) && fresh(t) && fresh(m.cpus)
  {
    hide Task.Inv, Machine.Links, Machine.Well, Task.OnSchedule, Period;
    var cpu0 := new Cpu();
    var cpu1 := new Cpu();
    m := new Machine([cpu0, cpu1], REG);
    t := m.Add(1, One(true, false), Waiting, Some(0));
    m.Exec(0);
    m.RunStart(0);
  }

  /** What is left on the timer. */
  lemma OnTime(t: Task, tsc: int, ns: int)
    requires t.Inv(tsc, ns) && t.on != null && !t.ledger.late && !t.ledger.cut
    requires !t.envir.options.stat && Period(t.envir) > 0
    ensures t.phase == Live && t.armed && t.expires - ns == Period(t.envir) - t.Ran(ns)
  {
    hide Period, SamplesOk, Conserved;
  }
}
