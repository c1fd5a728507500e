/** Two runs of the channel in which EOF is dropped: 87 samples on two pages leave no room
    for it. */
module EofLost {
  import opened Wrappers
  import opened Samples
  import opened RingSpec
  import opened Pipeline

  function Blank(kind: nat): (s: Sample)
    requires Known(kind)
    ensures IsSample(s) && s.kind == kind
  {
    Sample(kind, seq(PayloadSize(kind), _ => 0))
  }

  /** Two pages with m samples, up to h, and the tool not yet awake. */
  predicate At(s: Sys, h: nat, m: nat) {
    && |s.ring.mem| == 2 * PAGE && s.ring.tail == 0 && s.ring.head == h && s.ring.items == m
    && s.active == 1 && s.mode == Idle && |s.accepted| == m && s.delivered == [] && s.batch == 87 && !s.lost
  }

  ghost predicate Filled(s0: Sys, steps: seq<Step>, h: nat, m: nat) {
    Inv(s0) && Run(s0, steps).Some? && At(Run(s0, steps).value, h, m)
  }

  lemma OneWrite(s: Sys, h: nat, m: nat, kind: nat)
    requires Placed(s.ring) && s.user < |s.ring.mem| && At(s, h, m) && m < 100
    requires Known(kind) && kind != EOF
    requires h + Length(kind) <= 2 * PAGE - 4 && h % PAGE + Length(kind) <= PAGE
    ensures Next(s, WriteStep(Blank(kind))).Some?
    ensures At(Next(s, WriteStep(Blank(kind))).value, h + Length(kind), m + 1)
  {
    hide Inv;
    var t := Next(s, WriteStep(Blank(kind))).value;
    assert Fits(s.ring, kind) && t.ring == Put(s.ring, Blank(kind));
  }

  /** n samples of one kind, all within one page. */
  lemma {:induction false} Fill(s0: Sys, done: seq<Step>, h: nat, m: nat, kind: nat, n: nat, end: nat)
    returns (steps: seq<Step>)
    requires Filled(s0, done, h, m) && Known(kind) && kind != EOF && m + n <= 100
    requires end - h == n * Length(kind) && end <= 2 * PAGE - 4 && h % PAGE + (end - h) <= PAGE
    ensures Filled(s0, steps, end, m + n)
    decreases n
  {
    hide Inv, Length, Next, At;
    if n == 0 {
      steps := done;
    } else {
      var s, step := Run(s0, done).value, WriteStep(Blank(kind));
      OneMore(h, Length(kind), n);
      InvPlaced(s);
      OneWrite(s, h, m, kind);
      steps := done + [step];
      assert steps[..|steps| - 1] == done;
      steps := Fill(s0, steps, h + Length(kind), m + 1, kind, n - 1, end);
    }
  }

  lemma OneMore(h: nat, k: nat, n: nat)
    requires n > 0 && h + n * k <= 2 * PAGE - 4 && h % PAGE + n * k <= PAGE
    ensures n * k == k + (n - 1) * k && k <= n * k
    ensures (h + k) % PAGE + (n - 1) * k <= PAGE
  {
    var rest := (n - 1) * k;
    assert n * k == k + rest;
    var page := h / PAGE;
    assert h == PAGE * page + h % PAGE;
    if h % PAGE + k < PAGE {
      assert (h + k) / PAGE == page;
    } else {
      assert rest == 0;
    }
  }

  /** 87 samples fill two pages but for the last word. */
  lemma FillUp() returns (s0: Sys, steps: seq<Step>)
    ensures Init(s0) && Filled(s0, steps, 2 * PAGE - 4, 87)
  {
    hide Inv;
    var zero: byte := 0;
    s0 := Sys(Ring(seq(2 * PAGE, _ => zero), 0, 0, 0), 87, 1, 0, 0, Idle, [], [], [], false);
    InitInv(s0);
    steps := Fill(s0, [], 0, 0, PMC, 40, 4000);
    steps := Fill(s0, steps, 4000, 40, CPU, 2, 4056);
    steps := Fill(s0, steps, 4056, 42, FORK, 2, 4096);
    steps := Fill(s0, steps, 4096, 44, PMC, 40, 8096);
    steps := Fill(s0, steps, 8096, 84, RAPL, 1, 8140);
    steps := Fill(s0, steps, 8140, 85, CPU, 1, 8168);
    steps := Fill(s0, steps, 8168, 86, FORK, 1, 8188);
  }

  /** One more step of a run. */
  lemma Go(s0: Sys, steps: seq<Step>, step: Step) returns (more: seq<Step>, t: Sys)
    requires Inv(s0) && Run(s0, steps).Some? && Next(Run(s0, steps).value, step).Some?
    ensures more == steps + [step] && Run(s0, more) == Some(t)
    ensures t == Next(Run(s0, steps).value, step).value && Inv(t)
  {
    hide Inv, Next;
    InvPlaced(Run(s0, steps).value);
    more := steps + [step];
    assert more[..|steps|] == steps;
    NextInv(Run(s0, steps).value, step);
    t := Next(Run(s0, steps).value, step).value;
  }

  /** The last release on a full ring changes nothing but the count. */
  lemma Dropped(s: Sys)
    requires Placed(s.ring) && s.user < |s.ring.mem| && s.active == 1 && Count(s.ring) == |s.ring.mem| - 4
    ensures Next(s, ReleaseStep) == Some(s.(active := 0, lost := true))
  {
    assert s.accepted + [] == s.accepted;
  }

  /** The last task exits and EOF is dropped; the tool, woken by the hang-up, reads all 87
      samples and then on past the head. */
  lemma PastTheHead() returns (s0: Sys, steps: seq<Step>)
    ensures Init(s0) && Inv(s0) && Run(s0, steps).Some?
    ensures var t := Run(s0, steps).value; t.mode == Overrun && t.delivered == t.accepted && |t.accepted| == 87
  {
    hide Inv, Write, Fits;
    s0, steps := FillUp();
    var s := Run(s0, steps).value;
    InvPlaced(s);
    Dropped(s);
    steps, s := Go(s0, steps, ReleaseStep);
    steps, s := Go(s0, steps, PollStep);
    var turns := FinalRead(s);
    RunJoin(s0, steps, turns);
    RunEnd(s, turns);
    steps := steps + turns;
  }

  lemma RunEnd(s: Sys, steps: seq<Step>)
    requires Inv(s) && Run(s, steps).Some?
    ensures Inv(Run(s, steps).value) && (Run(s, steps).value.mode == Overrun ==>
      Run(s, steps).value.delivered == Run(s, steps).value.accepted)
  {
    FinalEnd(Run(s, steps).value);
  }

  /** Woken for a batch of 87 just before EOF is dropped. */
  lemma Woken() returns (s0: Sys, steps: seq<Step>, s: Sys)
    ensures Init(s0) && Inv(s0) && Run(s0, steps) == Some(s) && Inv(s)
    ensures s.mode == Reading(0, 87, false) && s.active == 0 && s.lost && |s.accepted| == 87 && s.delivered == []
    ensures |s.ring.mem| == 2 * PAGE && s.ring.head == 2 * PAGE - 4
  {
    hide Inv, Write, Fits;
    s0, steps := FillUp();
    s := Run(s0, steps).value;
    InvPlaced(s);
    steps, s := Go(s0, steps, PollStep);
    Dropped(s);
    steps, s := Go(s0, steps, ReleaseStep);
  }

  /** The last task exits while the tool is reading a full batch, and EOF is dropped. The tool
      reads its batch, which empties the ring, and polls: no step of any kind is left. */
  lemma NeverWoken() returns (s0: Sys, steps: seq<Step>)
    ensures Init(s0) && Inv(s0) && Run(s0, steps).Some?
    ensures var t := Run(s0, steps).value;
      && t.mode == Idle && t.active == 0 && t.lost && Placed(t.ring) && Count(t.ring) == 0 && t.user < |t.ring.mem|
      && forall step :: Next(t, step).None?
  {
    hide Inv, Next, Write, Fits, Init;
    var s;
    s0, steps, s := Woken();
    var turns := BatchRead(s);
    RunJoin(s0, steps, turns);
    steps, s := steps + turns, Run(s, turns).value;
    InvPlaced(s);
    Flushed(s);
    steps, s := Go(s0, steps, FlushStep);
    InvPlaced(s);
    AllPrinted(s);
    NothingAhead(s);
    Stuck(s);
  }

  lemma Flushed(s: Sys)
    requires Placed(s.ring) && s.user < |s.ring.mem| && s.mode == Reading(87, 87, false)
    ensures Next(s, FlushStep).Some?
    ensures var t := Next(s, FlushStep).value;
      && t.mode == Idle && t.active == s.active && t.lost == s.lost && t.ring.head == s.ring.head
      && t.accepted == s.accepted && t.delivered == s.delivered
  {
  }

  lemma Stuck(s: Sys)
    requires Placed(s.ring) && s.user < |s.ring.mem| && s.mode == Idle && s.active == 0 && Count(s.ring) == 0
    requires Inv(s)
    ensures forall step :: Next(s, step).None?
  {
    HangUp(s);
  }

  lemma AllPrinted(s: Sys)
    requires Inv(s) && s.mode == Idle && |s.accepted| == |s.delivered|
    ensures s.accepted == s.delivered
  {
  }
}
