/** Hardware counters of a CPU, driver/pmc.c, and the totals a task's samples must add up to. */
module Counters {
  import opened Environment

  const FX: nat := 3
  const GP: nat := 4
  const CTRS: nat := 7

  /** struct smon_evset, its control words as bit fields: counter i < FX is a fixed one. */
  datatype Evset = Evset(evids: seq<int>, fxEnable: seq<nat>, global: seq<bool>)

  /** The registered events (their PERFEVTSEL values) and event sets. */
  datatype Registry = Registry(events: seq<int>, evsets: seq<Evset>)

  /** Something countable happens: on a fixed counter's event, or on a selectable one. */
  datatype Event = Fixed(i: nat) | Selected(sel: int)

  /** struct smon_sample_pmc. */
  datatype PmcSample = PmcSample(start: int, stop: int, duration: int, pid: nat, ctr: seq<int>, evset: nat)

  const ZEROS: seq<int> := [0, 0, 0, 0, 0, 0, 0]
  const CLEARED := PmcSample(0, 0, 0, 0, ZEROS, 0)

  predicate Configured(es: Evset, i: nat)
    requires |es.evids| == GP && |es.fxEnable| == FX && i < CTRS
  {
    if i < FX then es.fxEnable[i] != 0 else es.evids[i - FX] >= 0
  }

  /** A valid event set: known events, and enabled counters are the configured ones. */
  predicate EvsetOk(es: Evset, events: seq<int>) {
    && |es.evids| == GP && |es.fxEnable| == FX && |es.global| == CTRS
    && (forall i :: 0 <= i < GP ==> es.evids[i] < |events|)
    && (forall i :: 0 <= i < CTRS ==> (es.global[i] <==> Configured(es, i)))
  }

  /** The environment's event-set ids are valid; in stat mode there is one. */
  predicate EnvirOk(e: Envir, reg: Registry) {
    && |e.esids| == MUX_EVSETS && 1 <= e.nEsids <= MUX_EVSETS && (e.options.stat ==> e.nEsids == 1)
    && (forall k :: 0 <= k < e.nEsids ==> EsidOk(e.esids[k], reg))
  }

  predicate EsidOk(id: int, reg: Registry) {
    0 <= id < |reg.evsets| && EvsetOk(reg.evsets[id], reg.events)
  }

  /** What `smon_create_envir` makes of valid ids is valid, and in stat mode single. The
      sampling period comes out 0 only for a multiple of 2^26 ms. */
  lemma CreatedOk(user: Envir, reg: Registry)
    requires |user.esids| == MUX_EVSETS && 1 <= user.nEsids <= MUX_EVSETS
    requires forall k :: 0 <= k < user.nEsids ==> EsidOk(user.esids[k], reg)
    ensures EnvirOk(CreateEnvir(user), reg)
    ensures Period(CreateEnvir(user)) == 0 <==> user.sampleTime > 0 && user.sampleTime % 0x400_0000 == 0
  {
    PeriodZero(CreateEnvir(user));
  }

  function EvsetOf(e: Envir, reg: Registry, k: nat): (es: Evset)
    requires EnvirOk(e, reg) && k < e.nEsids
    ensures EsidOk(e.esids[k], reg) && es == reg.evsets[e.esids[k]] && EvsetOk(es, reg.events)
  {
    assert EsidOk(e.esids[k], reg);
    reg.evsets[e.esids[k]]
  }

  /** What counter i is asked to count by an event set. */
  predicate Counts(es: Evset, events: seq<int>, i: nat, ev: Event)
    requires EvsetOk(es, events) && i < CTRS
  {
    Configured(es, i) &&
    if i < FX then ev == Fixed(i) else ev == Selected(events[es.evids[i - FX]])
  }

  /** How often the event of counter i occurred among those seen while event set k counted. */
  function Occurred(seen: seq<(nat, Event)>, e: Envir, reg: Registry, k: nat, i: nat): nat
    requires EnvirOk(e, reg) && k < e.nEsids && i < CTRS
  {
    if seen == [] then 0
    else
      var last := seen[|seen| - 1];
      Occurred(seen[..|seen| - 1], e, reg, k, i)
        + if last.0 == k && Counts(EvsetOf(e, reg, k), reg.events, i, last.1) then 1 else 0
  }

  /** From the registry alone: an event seen in some turn is one of counter i's in turn k
      exactly if it was that turn, and the event set the k-th id names asks counter i for it. */
  lemma EventCounts(seen: seq<(nat, Event)>, turn: nat, ev: Event, e: Envir, reg: Registry, k: nat, i: nat)
    requires EnvirOk(e, reg) && k < e.nEsids && i < CTRS
    ensures EsidOk(e.esids[k], reg)
    ensures Occurred(seen + [(turn, ev)], e, reg, k, i) == Occurred(seen, e, reg, k, i)
      + if turn == k && Counts(reg.evsets[e.esids[k]], reg.events, i, ev) then 1 else 0
  {
    assert EsidOk(e.esids[k], reg);
    assert (seen + [(turn, ev)])[..|seen|] == seen;
  }

  /** The sum of counter i over the samples of event set k. */
  function Reported(saved: seq<PmcSample>, k: nat, i: nat): int
    requires i < CTRS && forall s :: s in saved ==> |s.ctr| == CTRS
  {
    if saved == [] then 0
    else
      var last := saved[|saved| - 1];
      Reported(saved[..|saved| - 1], k, i) + if last.evset == k then last.ctr[i] else 0
  }

  function TotalDuration(saved: seq<PmcSample>): int {
    if saved == [] then 0 else TotalDuration(saved[..|saved| - 1]) + saved[|saved| - 1].duration
  }

  predicate AllFull(saved: seq<PmcSample>) {
    forall s :: s in saved ==> |s.ctr| == CTRS
  }

  /** Conservation up to a base: for every event set and counter, what was reported plus what
      is pending is what occurred, plus a base charged to event set 0. */
  ghost predicate Conserved(saved: seq<PmcSample>, evset: nat, pending: seq<int>, base: seq<int>,
                            seen: seq<(nat, Event)>, e: Envir, reg: Registry)
    requires EnvirOk(e, reg) && |pending| == CTRS == |base| && AllFull(saved)
  {
    forall k, i :: 0 <= k < e.nEsids && 0 <= i < CTRS ==>
      Reported(saved, k, i) + (if k == evset then pending[i] else 0)
        == Occurred(seen, e, reg, k, i) + if k == 0 then base[i] else 0
  }

  /** Handing a sample over moves its counts from pending to reported. */
  lemma ConservedSave(saved: seq<PmcSample>, s: PmcSample, base: seq<int>, seen: seq<(nat, Event)>,
                      e: Envir, reg: Registry, next: nat)
    requires EnvirOk(e, reg) && AllFull(saved) && |s.ctr| == CTRS == |base|
    requires Conserved(saved, s.evset, s.ctr, base, seen, e, reg)
    ensures AllFull(saved + [s]) && Conserved(saved + [s], next, ZEROS, base, seen, e, reg)
  {
    assert (saved + [s])[..|saved|] == saved;
    forall k, i | 0 <= k < e.nEsids && 0 <= i < CTRS
      ensures Reported(saved + [s], k, i) == Reported(saved, k, i) + if k == s.evset then s.ctr[i] else 0
      ensures ZEROS[i] == 0
    {
    }
  }

  /** One occurrence while counting advances exactly the counters that ask for it. */
  lemma ConservedOccur(saved: seq<PmcSample>, evset: nat, before: seq<int>, after: seq<int>, base: seq<int>,
                       seen: seq<(nat, Event)>, ev: Event, e: Envir, reg: Registry)
    requires EnvirOk(e, reg) && AllFull(saved) && |before| == CTRS == |after| == |base| && evset < e.nEsids
    requires Conserved(saved, evset, before, base, seen, e, reg)
    requires forall i :: 0 <= i < CTRS ==>
      after[i] == before[i] + if Counts(EvsetOf(e, reg, evset), reg.events, i, ev) then 1 else 0
    ensures Conserved(saved, evset, after, base, seen + [(evset, ev)], e, reg)
  {
    var now := seen + [(evset, ev)];
    assert now[..|seen|] == seen;
    forall k, i | 0 <= k < e.nEsids && 0 <= i < CTRS
      ensures Occurred(now, e, reg, k, i) == Occurred(seen, e, reg, k, i)
        + if k == evset && Counts(EvsetOf(e, reg, k), reg.events, i, ev) then 1 else 0
    {
    }
  }

  /** The totals are right exactly when the base is zero: no later count makes up for it. */
  lemma BaseShows(saved: seq<PmcSample>, evset: nat, pending: seq<int>, base: seq<int>,
                  seen: seq<(nat, Event)>, e: Envir, reg: Registry)
    requires EnvirOk(e, reg) && AllFull(saved) && |pending| == CTRS == |base|
    requires Conserved(saved, evset, pending, base, seen, e, reg)
    ensures Conserved(saved, evset, pending, ZEROS, seen, e, reg) <==> base == ZEROS
  {
    if Conserved(saved, evset, pending, ZEROS, seen, e, reg) {
      forall i | 0 <= i < CTRS
        ensures base[i] == ZEROS[i]
      {
        assert Reported(saved, 0, i) + (if 0 == evset then pending[i] else 0)
          == Occurred(seen, e, reg, 0, i) + ZEROS[i];
      }
    }
  }

  class Cpu {
    var fixedCtrl: seq<nat>     // IA32_FIXED_CTR_CTRL
    var perfevtsel: seq<int>    // IA32_PERFEVTSEL(i)
    var global: seq<bool>       // IA32_PERF_GLOBAL_CTRL
    var ctr: seq<int>           // IA32_FX_CTR(i), then IA32_GP_CTR(i)

    ghost predicate Shape()
      reads this
    {
      |fixedCtrl| == FX && |perfevtsel| == GP && |global| == CTRS && |ctr| == CTRS
    }

    ghost predicate Stopped()
      reads this
    {
      Shape() && forall i :: 0 <= i < CTRS ==> !global[i]
    }

    /** The registers select what the event set asks for. */
    ghost predicate Programmed(es: Evset, events: seq<int>)
      reads this`fixedCtrl, this`perfevtsel
    {
      && EvsetOk(es, events) && fixedCtrl == es.fxEnable && |perfevtsel| == GP
      && forall i :: 0 <= i < GP && es.evids[i] >= 0 ==> perfevtsel[i] == events[es.evids[i]]
    }

    ghost predicate Counting(es: Evset, events: seq<int>)
      reads this
    {
      && Shape() && Programmed(es, events)
      && forall i :: 0 <= i < CTRS ==> (global[i] <==> Configured(es, i)) && (!Configured(es, i) ==> ctr[i] == 0)
    }

    constructor ()
      ensures Stopped()
    {
      fixedCtrl, perfevtsel := [0, 0, 0], [0, 0, 0, 0];
      global := seq(CTRS, _ => false);
      ctr := ZEROS;
    }

    /** `smon_pmc_set`. */
    method PmcSet(es: Evset, events: seq<int>)
      requires Shape() && EvsetOk(es, events)
      modifies this`fixedCtrl, this`perfevtsel
      ensures Shape() && Programmed(es, events)
    {
      fixedCtrl := es.fxEnable;
      for i := 0 to GP
        invariant Shape() && fixedCtrl == es.fxEnable
        invariant forall k :: 0 <= k < i && es.evids[k] >= 0 ==> perfevtsel[k] == events[es.evids[k]]
      {
        if 0 <= es.evids[i] {
          perfevtsel := perfevtsel[i := events[es.evids[i]]];
        }
      }
    }

    /** `smon_pmc_start`. */
    method PmcStart(es: Evset, events: seq<int>)
      requires Shape() && EvsetOk(es, events)
      modifies this`global
      ensures Shape() && forall i :: 0 <= i < CTRS ==> (global[i] <==> Configured(es, i))
    {
      global := es.global;
    }

    /** `smon_pmc_stop`. */
    method PmcStop()
      requires Shape()
      modifies this`global
      ensures Stopped()
    {
      global := seq(CTRS, _ => false);
    }

    /** `smon_pmc_read`: configured counters are read, the others reported as 0. */
    method PmcRead(es: Evset, events: seq<int>) returns (pmc: seq<int>)
      requires Shape() && EvsetOk(es, events)
      ensures |pmc| == CTRS
      ensures forall i :: 0 <= i < CTRS ==> pmc[i] == if Configured(es, i) then ctr[i] else 0
    {
      pmc := [];
      for i := 0 to FX
        invariant |pmc| == i
        invariant forall k :: 0 <= k < i ==> pmc[k] == if Configured(es, k) then ctr[k] else 0
      {
        pmc := pmc + [if es.fxEnable[i] != 0 then ctr[i] else 0];
      }
      for i := 0 to GP
        invariant |pmc| == FX + i
        invariant forall k :: 0 <= k < FX + i ==> pmc[k] == if Configured(es, k) then ctr[k] else 0
      {
        pmc := pmc + [if es.evids[i] >= 0 then ctr[FX + i] else 0];
      }
    }

    /** `smon_pmc_write`. */
    method PmcWrite(pmc: seq<int>)
      requires Shape() && |pmc| == CTRS
      modifies this`ctr
      ensures Shape() && ctr == pmc
    {
      for i := 0 to FX
        invariant Shape() && forall k :: 0 <= k < i ==> ctr[k] == pmc[k]
      {
        ctr := ctr[i := pmc[i]];
      }
      for i := 0 to GP
        invariant Shape() && forall k :: 0 <= k < FX + i ==> ctr[k] == pmc[k]
      {
        ctr := ctr[FX + i := pmc[FX + i]];
      }
    }

    /** The hardware: an event occurs, and every enabled counter selecting it advances. */
    method Occur(ev: Event)
      requires Shape()
      modifies this`ctr
      ensures Shape()
      ensures forall i :: 0 <= i < CTRS ==> ctr[i] == old(ctr[i]) + if Advances(i, ev) then 1 else 0
    {
      for i := 0 to CTRS
        invariant Shape()
        invariant forall k :: 0 <= k < CTRS ==> ctr[k] == old(ctr[k]) + if k < i && Advances(k, ev) then 1 else 0
      {
        if Advances(i, ev) {
          ctr := ctr[i := ctr[i] + 1];
        }
      }
    }

    predicate Advances(i: nat, ev: Event)
      requires Shape() && i < CTRS
      reads this
    {
      global[i] && if i < FX then fixedCtrl[i] != 0 && ev == Fixed(i) else ev == Selected(perfevtsel[i - FX])
    }
  }
}
