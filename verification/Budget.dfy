/** The sampling budget of driver/sched.c on values: what the PMC timer is set to, and a ledger
    of the time a task was counted with it and without it. */
module Budget {
  import Bits

  const RESOLUTION := 1       // of the timer clock, in ns

  /** hrtimer_active, the expiry, and kt_remain. */
  datatype Timer = Timer(armed: bool, expires: int, remain: int)

  /** What has happened, in nanoseconds. */
  datatype Ledger = Ledger(
    start: int,        // counted since then, if it is being counted
    ran: int,          // counted before, since the last save
    untimed: int,      // as much of that in stints that ended without a timer
    runs: seq<int>,    // what each saved sample was counted for
    gaps: seq<int>,    // as much of that in stints that ended without a timer
    taken: int,        // how far into the present period the last tick came
    ticked: bool,      // a tick began the present stint
    late: bool,        // some save came after its period had expired
    cut: bool)         // a stop queued elsewhere cancelled a timer in use

  const BLANK := Ledger(0, 0, 0, [], [], 0, false, false, false)

  /** What the timer is set to when counting starts: a full period, or what was left of one. */
  function NextTimer(t: Timer, p: int): int {
    if t.remain <= 0 then p else t.remain
  }

  function Ran(l: Ledger, counting: bool, ns: int): int {
    l.ran + if counting then ns - l.start else 0
  }

  /** As much of it as no timer ran down: a stint whose timer is gone counts in full. */
  function Untimed(l: Ledger, t: Timer, counting: bool, ns: int): int {
    l.untimed + if counting && !t.armed then ns - l.start else 0
  }

  // ---- what the hooks make of the ledger ----

  function Started(l: Ledger, ns: int): Ledger {
    l.(start := ns, ticked := false)
  }

  /** A sample is saved when the timer is due, or by the exit. */
  function Saved(l: Ledger, t: Timer, counting: bool, ns: int): Ledger {
    l.(runs := l.runs + [Ran(l, counting, ns)], gaps := l.gaps + [Untimed(l, t, counting, ns)],
       ran := 0, untimed := 0, late := l.late || (t.armed && t.expires < ns))
  }

  /** A counted task leaves its CPU. Without a timer it keeps the remainder it had when it was
      last set, which after a tick is a full period. */
  function SwitchedOut(l: Ledger, t: Timer, ns: int): Ledger {
    if t.armed && t.expires <= ns then Saved(l, t, true, ns).(taken := 0, ticked := false)
    else l.(ran := Ran(l, true, ns), untimed := Untimed(l, t, true, ns),
            taken := if l.ticked && !t.armed then 0 else l.taken, ticked := false)
  }

  function Ticked(l: Ledger, t: Timer, p: int, ns: int): Ledger
    requires t.expires <= ns
  {
    Saved(l, t, true, ns).(start := ns, taken := Excess(ns - t.expires, Interval(p)), ticked := true)
  }

  // ---- the timer of the kernel ----

  /** How far past a multiple of the period a delay reaches. */
  function Excess(delta: int, kt: int): (r: int)
    requires kt > 0
    ensures 0 <= r < kt && (0 <= delta < kt ==> r == delta)
    ensures Whole(delta - r, kt)
  {
    assert delta - delta % kt == (delta / kt) * kt;
    delta % kt
  }

  /** A whole number of intervals. */
  ghost predicate Whole(d: int, kt: int) {
    exists n: int :: d == n * kt
  }

  /** The interval hrtimer_forward steps by: not less than the clock's resolution. */
  function Interval(kt: int): (r: int)
    ensures r > 0 && (kt > 0 ==> r == kt)
  {
    if kt < RESOLUTION then RESOLUTION else kt
  }

  /** hrtimer_forward: by as many intervals as it takes to lie after now. */
  function HrtimerForward(expires: int, now: int, kt: int): (r: int)
    requires expires <= now
    ensures r - Interval(kt) <= now < r && Whole(r - expires, Interval(kt))
    ensures r == now - Excess(now - expires, Interval(kt)) + Interval(kt)
  {
    var delta, step := now - expires, Interval(kt);
    assert (delta / step) * step == delta - delta % step;
    assert (delta / step + 1) * step == (delta / step) * step + step;
    expires + (delta / step + 1) * step
  }

  // ---- the budget ----

  ghost predicate AllEqual(runs: seq<int>, p: int) {
    forall k :: 0 <= k < |runs| ==> runs[k] == p
  }

  /** Every run is one period and a gap. */
  ghost predicate Periods(runs: seq<int>, gaps: seq<int>, p: int) {
    |runs| == |gaps| && forall k :: 0 <= k < |runs| ==> runs[k] == p + gaps[k] && gaps[k] >= 0
  }

  /** Every run but the last is, and the last has at most a period. */
  ghost predicate Ended(runs: seq<int>, gaps: seq<int>, p: int) {
    |runs| == |gaps| && (runs != [] ==>
      && Periods(runs[..|runs| - 1], gaps[..|gaps| - 1], p)
      && 0 <= gaps[|gaps| - 1] <= runs[|runs| - 1] <= gaps[|gaps| - 1] + p)
  }

  /** Time counted since the last save and time left on the timer make up one period, plus what
      was counted without a timer, less what a late tick had already taken from the period. */
  ghost predicate Scheduled(l: Ledger, t: Timer, p: int, counting: bool, exited: bool, ns: int) {
    && 0 <= l.untimed <= l.ran && |l.runs| == |l.gaps| && (counting ==> l.start <= ns)
    && (counting && t.armed ==> Ran(l, true, ns) + (t.expires - ns) == p + l.untimed - l.taken)
    && (counting ==> l.ran + NextTimer(t, p) == p + l.untimed - if l.ticked then 0 else l.taken)
    && (!counting && !exited ==> l.ran + NextTimer(t, p) == p + l.untimed - l.taken)
    && (!l.cut ==> l.untimed == 0 && AllEqual(l.gaps, 0))
    && (!l.late ==> l.taken == 0 && if exited then Ended(l.runs, l.gaps, p) else Periods(l.runs, l.gaps, p))
  }

  /** The timer runs neither ahead nor behind: while counting, the tick comes when a period has
      been counted; off the CPU, what remains of it is kept. */
  ghost predicate OnSchedule(l: Ledger, t: Timer, p: int, counting: bool, ns: int) {
    if counting then t.armed && Ran(l, true, ns) + (t.expires - ns) == p
    else l.ran + NextTimer(t, p) == p
  }

  /** Without a late tick the budget fails exactly while a counted task has no timer, and after
      that until the next save if it was counted for any time like that. In general it is also
      ahead by what a late tick has taken. */
  lemma BudgetExact(l: Ledger, t: Timer, p: int, counting: bool, ns: int)
    requires Scheduled(l, t, p, counting, false, ns) && (counting && !t.armed ==> l.cut) && (!counting ==> !l.ticked)
    ensures OnSchedule(l, t, p, counting, ns) <==> l.untimed == l.taken && (counting ==> t.armed)
    ensures !l.late ==> (OnSchedule(l, t, p, counting, ns) <==> l.untimed == 0 && (counting ==> t.armed))
    ensures !l.late && !OnSchedule(l, t, p, counting, ns) ==> l.cut
  {
  }

  /** `start_timer_pmc` sets the timer so that the schedule, kept or missed, goes on. */
  lemma StartKeeps(l: Ledger, t: Timer, p: int, ns: int)
    requires Scheduled(l, t, p, false, false, ns) && !l.ticked
    ensures var on := Timer(true, ns + NextTimer(t, p), t.remain);
      && Scheduled(Started(l, ns), on, p, true, false, ns)
      && (OnSchedule(Started(l, ns), on, p, true, ns) <==> OnSchedule(l, t, p, false, ns))
    ensures Started(l, ns).late == l.late && Started(l, ns).cut == l.cut
    ensures Total(Started(l, ns), true, ns) == Total(l, false, ns)
  {
  }

  /** `smon_sched_task_out`. A timer that still runs keeps the schedule; one that has run out
      brings the task back to it; without one, only a stint of no length could. */
  lemma SwitchKeeps(l: Ledger, t: Timer, p: int, ns: int)
    requires p > 0 && Scheduled(l, t, p, true, false, ns) && (!t.armed ==> l.cut)
    ensures var off := t.(remain := if t.armed then t.expires - ns else t.remain);
      && Scheduled(SwitchedOut(l, t, ns), off, p, false, false, ns)
      && (t.armed && ns < t.expires ==>
            (OnSchedule(SwitchedOut(l, t, ns), off, p, false, ns) <==> OnSchedule(l, t, p, true, ns)))
      && (t.armed && t.expires <= ns ==> OnSchedule(SwitchedOut(l, t, ns), off, p, false, ns))
      && (!t.armed && !l.late ==> (OnSchedule(SwitchedOut(l, t, ns), off, p, false, ns) <==>
            l.untimed == 0 && ns == l.start))
    ensures SwitchedOut(l, t, ns).late <==> l.late || (t.armed && t.expires < ns)
    ensures SwitchedOut(l, t, ns).cut == l.cut && Total(SwitchedOut(l, t, ns), false, ns) == Total(l, true, ns)
  {
    TotalSaved(l, t, true, ns);
    if t.armed && t.expires <= ns {
      OneMoreRun(l.runs, l.gaps, Ran(l, true, ns), Untimed(l, t, true, ns), p);
    }
  }

  /** `smon_sched_timer_tick`. The task is on schedule again, unless the tick was late, and not
      by whole periods. */
  lemma TickKeeps(l: Ledger, t: Timer, p: int, ns: int)
    requires p > 0 && Scheduled(l, t, p, true, false, ns) && t.armed && t.expires <= ns
    ensures var on := Timer(true, HrtimerForward(t.expires, ns, p), p);
      && Scheduled(Ticked(l, t, p, ns), on, p, true, false, ns)
      && (OnSchedule(Ticked(l, t, p, ns), on, p, true, ns) <==> Ticked(l, t, p, ns).taken == 0)
      && (t.expires == ns ==> OnSchedule(Ticked(l, t, p, ns), on, p, true, ns))
    ensures Ticked(l, t, p, ns).late <==> l.late || t.expires < ns
    ensures Ticked(l, t, p, ns).cut == l.cut && Total(Ticked(l, t, p, ns), true, ns) == Total(l, true, ns)
  {
    TotalSaved(l, t, true, ns);
    OneMoreRun(l.runs, l.gaps, Ran(l, true, ns), Untimed(l, t, true, ns), p);
  }

  /** `stop_timer_pmc`, late or not. */
  lemma StopKeeps(l: Ledger, t: Timer, p: int, counting: bool, exited: bool, ns: int)
    requires Scheduled(l, t, p, counting, exited, ns)
    ensures Scheduled(l.(cut := l.cut || counting), t.(armed := false), p, counting, exited, ns)
    ensures OnSchedule(l.(cut := l.cut || counting), t.(armed := false), p, counting, ns) <==>
      OnSchedule(l, t, p, counting, ns) && !counting
  {
  }

  /** `smon_sched_process_exit`. */
  lemma ExitKeeps(l: Ledger, t: Timer, p: int, counting: bool, ns: int)
    requires p > 0 && Scheduled(l, t, p, counting, false, ns) && (counting && !t.armed ==> l.cut)
    requires !counting ==> l.ran == 0
    ensures Scheduled(Saved(l, t, counting, ns), t.(armed := false), p, false, true, ns)
    ensures Saved(l, t, counting, ns).late <==> l.late || (t.armed && t.expires < ns)
    ensures Saved(l, t, counting, ns).cut == l.cut
    ensures Total(Saved(l, t, counting, ns), false, ns) == Total(l, counting, ns)
  {
    TotalSaved(l, t, counting, ns);
    OneMoreRun(l.runs, l.gaps, Ran(l, counting, ns), Untimed(l, t, counting, ns), p);
  }

  lemma LaterKeeps(l: Ledger, t: Timer, p: int, counting: bool, exited: bool, ns: int, ns': int)
    requires Scheduled(l, t, p, counting, exited, ns) && ns <= ns'
    ensures Scheduled(l, t, p, counting, exited, ns')
    ensures Total(l, counting, ns') == Total(l, counting, ns) + if counting then ns' - ns else 0
  {
  }

  /** All the time a task was counted: the hooks lose and invent none. */
  function Total(l: Ledger, counting: bool, ns: int): int {
    Sum(l.runs) + Ran(l, counting, ns)
  }

  lemma TotalSaved(l: Ledger, t: Timer, counting: bool, ns: int)
    ensures Total(Saved(l, t, counting, ns), false, ns) == Total(l, counting, ns)
  {
    assert (l.runs + [Ran(l, counting, ns)])[..|l.runs|] == l.runs;
  }

  lemma OneMoreRun(runs: seq<int>, gaps: seq<int>, r: int, gap: int, p: int)
    ensures (runs + [r])[..|runs|] == runs && (gaps + [gap])[..|gaps|] == gaps
    ensures gap == 0 && AllEqual(gaps, 0) ==> AllEqual(gaps + [gap], 0)
    ensures Periods(runs, gaps, p) && gap >= 0 && r == p + gap ==> Periods(runs + [r], gaps + [gap], p)
    ensures Periods(runs, gaps, p) && 0 <= gap <= r <= p + gap ==> Ended(runs + [r], gaps + [gap], p)
  {
  }

  // ---- how many samples that makes ----

  function Sum(runs: seq<int>): int {
    if runs == [] then 0 else Sum(runs[..|runs| - 1]) + runs[|runs| - 1]
  }

  /** With no save late, the number of samples is the number of whole periods in the time
      counted with a timer: no period is saved twice, none is missed. */
  lemma OnePerPeriod(runs: seq<int>, gaps: seq<int>, ran: int, p: int)
    requires Periods(runs, gaps, p) && 0 <= ran < p
    ensures |runs| == (Sum(runs) - Sum(gaps) + ran) / p
    ensures |runs| * p <= Sum(runs)
  {
    hide Periods, Sum;
    SumPeriods(runs, gaps, p);
    Bits.ModIs(|runs| * p + ran, p, |runs|, ran);
  }

  lemma PeriodsAndRest(runs: seq<int>, gaps: seq<int>, p: int)
    requires runs != [] && Ended(runs, gaps, p)
    ensures (|runs| - 1) * p <= Sum(runs) - Sum(gaps) <= |runs| * p
    ensures (|runs| - 1) * p <= Sum(runs)
  {
    hide Periods;
    var n := |runs| - 1;
    SumPeriods(runs[..n], gaps[..n], p);
    assert Sum(runs) == Sum(runs[..n]) + runs[n] && Sum(gaps) == Sum(gaps[..n]) + gaps[n];
    OneMore(n, p);
    hide *;
  }

  lemma OneMore(n: nat, p: int)
    ensures (n + 1) * p == n * p + p
  {
  }

  lemma {:induction false} SumPeriods(runs: seq<int>, gaps: seq<int>, p: int)
    requires Periods(runs, gaps, p)
    ensures Sum(runs) == |runs| * p + Sum(gaps) && Sum(gaps) >= 0
  {
    if runs != [] {
      SumPeriods(runs[..|runs| - 1], gaps[..|gaps| - 1], p);
      assert (|runs| - 1) * p + p == |runs| * p;
    }
  }

  lemma {:induction false} SumZero(s: seq<int>)
    requires AllEqual(s, 0)
    ensures Sum(s) == 0
  {
    if s != [] {
      SumZero(s[..|s| - 1]);
    }
  }
}
