/** The scheduler hooks as writers of the channel: what they do to a ring buffer is a sequence
    of the writers' steps of `Pipeline`, whatever the tool does in between. */
module Channel {
  import FamilyTree
  import Hooks
  import opened Pipeline
  import opened Samples
  import Sched
  import opened Wrappers

  predicate OfTool(step: Step) {
    step.PollStep? || step.TurnStep? || step.FlushStep?
  }

  function KindOf(m: Sched.Msg): (kind: nat)
    ensures Known(kind) && (kind == EOF <==> m == Sched.EofMsg)
    ensures (kind == PMC <==> m.PmcMsg?) && (kind == FORK <==> m.ForkMsg?) && (kind == CPU <==> m.CpuMsg?)
  {
    match m
    case InfoMsg => INFO
    case PmcMsg(_) => PMC
    case ForkMsg(_, _) => FORK
    case CpuMsg(_, _, _) => CPU
    case EofMsg => EOF
  }

  /** The step that a hook's use of the ring buffer is, with whatever the sample holds. */
  predicate Matches(step: Step, use: Sched.Use) {
    match use
    case WriteUse(m) => step.WriteStep? && IsSample(step.s) && step.s.kind == KindOf(m)
    case GetUse => step.GetStep?
    case ReleaseUse => step.ReleaseStep?
  }

  /** The writers' steps among these are the uses, in order. */
  predicate Follows(steps: seq<Step>, uses: seq<Sched.Use>) {
    if steps == [] then uses == []
    else
      var last, before := steps[|steps| - 1], steps[..|steps| - 1];
      if OfTool(last) then Follows(before, uses)
      else uses != [] && Matches(last, uses[|uses| - 1]) && Follows(before, uses[..|uses| - 1])
  }

  /** However the tool's steps come in between, the writers count is what the hooks have made
      it, and no step of theirs is ever refused: a run ends, if it does, with the tool. */
  lemma {:induction false} Driven(s0: Sys, steps: seq<Step>, uses: seq<Sched.Use>)
    requires Init(s0) && Inv(s0) && Follows(steps, uses) && Sched.Play(uses).Some?
    ensures Run(s0, steps).Some? ==> Run(s0, steps).value.active == Sched.Play(uses).value.active
    ensures steps != [] && Run(s0, steps[..|steps| - 1]).Some? && Run(s0, steps).None? ==> OfTool(steps[|steps| - 1])
  {
    hide Inv, Pipeline.Append, Turn, Flush, Sched.LogOk;
    if steps != [] {
      var last, before := steps[|steps| - 1], steps[..|steps| - 1];
      if OfTool(last) {
        Driven(s0, before, uses);
        if Run(s0, before).Some? {
          ToolHoldsNothing(Run(s0, before).value, last);
        }
      } else {
        var use, earlier := uses[|uses| - 1], uses[..|uses| - 1];
        Driven(s0, before, earlier);
        if Run(s0, before).Some? {
          WriterMoves(Run(s0, before).value, last, Sched.Play(earlier).value, use);
        }
      }
    }
  }

  /** What the steps offer the channel is what the hooks have logged, sample by sample. */
  lemma {:induction false} OffersLog(steps: seq<Step>, uses: seq<Sched.Use>)
    requires Follows(steps, uses)
    ensures |Offered(steps)| == |Sched.Messages(uses)|
    ensures forall k :: 0 <= k < |Offered(steps)| ==> Offered(steps)[k].kind == KindOf(Sched.Messages(uses)[k])
  {
    if steps != [] {
      var last, before := steps[|steps| - 1], steps[..|steps| - 1];
      if OfTool(last) {
        OffersLog(before, uses);
        assert Offered(before) + [] == Offered(before);
      } else {
        var use, earlier := uses[|uses| - 1], uses[..|uses| - 1];
        OffersLog(before, earlier);
        assert last.WriteStep? <==> use.WriteUse?;
      }
    }
  }

  lemma ToolHoldsNothing(s: Sys, step: Step)
    requires Inv(s) && OfTool(step)
    ensures Next(s, step).Some? ==> Next(s, step).value.active == s.active
  {
  }

  lemma WriterMoves(s: Sys, step: Step, b: Sched.Rb, use: Sched.Use)
    requires Inv(s)
    requires s.active == b.active && Sched.Permitted(b, use) && Matches(step, use)
    ensures Next(s, step).Some? && Next(s, step).value.active == Sched.After(b, use).active
  {
  }

  /** For every ring buffer in use, after any hooks: the tool's steps and what the hooks did to
      it, in any interleaving, are a run of the channel that only the tool can be out of turn
      in, with as many writers as there are tasks holding the ring buffer; and what is offered
      to it is what the hooks have logged. */
  lemma HooksDrive(h: Hooks.Scheduler, b: FamilyTree.Ptr, s0: Sys, steps: seq<Step>)
    requires h.Valid() && b in h.rbs && Sched.Used(h.rbs[b]) && b in h.uses && Follows(steps, h.uses[b])
    requires Init(s0)
    ensures Inv(s0)
    ensures Run(s0, steps).Some? ==> Run(s0, steps).value.active == |Sched.Writers(h.tasks, b)|
    ensures steps != [] && Run(s0, steps[..|steps| - 1]).Some? && Run(s0, steps).None? ==> OfTool(steps[|steps| - 1])
    ensures Logs(h.rbs[b], Offered(steps))
  {
    hide Inv, Init, Follows, Sched.Play, Logs, Run;
    hide Sched.FamilyOk, Sched.SharedOk, Sched.EnvOk, Sched.RootsOk, Hooks.HeapOk, Hooks.Placed;
    FromStart(s0, steps, h.uses[b]);
    FromHistory(h.rbs[b], steps, h.uses[b]);
  }

  /** These samples are in the log, and nothing but EOF behind them once nobody holds it. */
  predicate Logs(b: Sched.Rb, samples: seq<Sample>) {
    && |b.log| == |samples| + (if b.active == 0 then 1 else 0)
    && (forall k :: 0 <= k < |samples| ==> samples[k].kind == KindOf(b.log[k]))
    && (b.active == 0 ==> b.log[|samples|] == Sched.EofMsg)
  }

  lemma FromHistory(b: Sched.Rb, steps: seq<Step>, uses: seq<Sched.Use>)
    requires Follows(steps, uses) && Sched.Play(uses) == Some(b)
    ensures Logs(b, Offered(steps))
  {
    hide Follows, Sched.Play, Sched.Messages, Offered;
    OffersLog(steps, uses);
    Sched.PlayLog(uses);
  }

  lemma FromStart(s0: Sys, steps: seq<Step>, uses: seq<Sched.Use>)
    requires Init(s0) && Follows(steps, uses) && Sched.Play(uses).Some?
    ensures Inv(s0)
    ensures Run(s0, steps).Some? ==> Run(s0, steps).value.active == Sched.Play(uses).value.active
    ensures steps != [] && Run(s0, steps[..|steps| - 1]).Some? && Run(s0, steps).None? ==> OfTool(steps[|steps| - 1])
  {
    InitInv(s0);
    Driven(s0, steps, uses);
  }
}
