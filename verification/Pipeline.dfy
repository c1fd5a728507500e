/** The whole channel as a state machine: kernel writers, the poll gate, the lock-free
    reader one record at a time, and the kernel's tail update, in any interleaving. */
module Pipeline {
  import opened Wrappers
  import opened Samples
  import opened RingSpec
  import opened ReaderSpec

  /** Where `start_sampling` is. A reading session wants nr samples; the final one follows
      POLLHUP. Overrun: the reader went on at the head, where no writer has framed anything. */
  datatype Mode =
    | Idle
    | Reading(n: nat, nr: nat, final: bool)
    | FoundEof(n: nat, final: bool)
    | Done
    | Failed
    | Overrun

  datatype Sys = Sys(
    ring: Ring, batch: nat, active: nat,           // kernel
    user: nat, consumed: nat, mode: Mode,          // tool
    accepted: seq<Sample>, delivered: seq<Sample>, // all that was queued, all that was printed
    session: seq<Sample>, lost: bool)              // printed since the last flush; EOF dropped

  datatype Step =
    | WriteStep(s: Sample)
    | GetStep
    | ReleaseStep
    | PollStep
    | TurnStep
    | FlushStep

  /** A mapped ring whose first task has been registered. */
  predicate Init(s: Sys) {
    && Geometry(|s.ring.mem|) && |s.ring.mem| <= 0x40_0000
    && s.ring.head == 0 && s.ring.tail == 0 && s.ring.items == 0
    && s.batch >= 1 && s.active == 1
    && s.user == 0 && s.consumed == 0 && s.mode == Idle
    && s.accepted == [] && s.delivered == [] && s.session == [] && !s.lost
  }

  function Append(s: Sys, x: Sample): Sys
    requires Placed(s.ring) && IsSample(x)
  {
    s.(ring := Write(s.ring, x), accepted := s.accepted + if Fits(s.ring, x.kind) then [x] else [])
  }

  /** `smon_rb_read`. */
  function KernelRead(r: Ring, n: nat, sz: nat): Ring
    requires Placed(r)
  {
    r.(tail := if sz > Count(r) then r.head else Fwd(r.tail, sz, |r.mem|),
       items := if n > r.items then 0 else r.items - n)
  }

  function Flush(s: Sys, n: nat, final: bool): Sys
    requires Placed(s.ring)
  {
    s.(ring := KernelRead(s.ring, n, s.consumed), consumed := 0, session := [],
       mode := if final then Done else Idle)
  }

  /** One turn of the loop in `read_samples`. */
  function Turn(s: Sys): Sys
    requires s.mode.Reading? && s.user < |s.ring.mem| && s.user != s.ring.head
  {
    if !Readable(s.ring.mem, s.user) then s.(mode := Failed)
    else
      var seen := Look(s.ring.mem, s.user);
      var k := Stride(s.ring.mem, s.user);
      StepFits(s.user, k, |s.ring.mem|);
      var t := s.(user := Fwd(s.user, k, |s.ring.mem|), consumed := s.consumed + k,
                  delivered := s.delivered + Yield(seen), session := s.session + Yield(seen));
      match seen
      case Got(_) => t.(mode := Reading(s.mode.n + 1, s.mode.nr, s.mode.final))
      case Skipped => t
      case AtEof => t.(mode := FoundEof(s.mode.n + 1, s.mode.final))
      case Unknown => t.(mode := Failed)
  }

  lemma StepFits(p: nat, k: nat, size: nat)
    requires Position(p, size) && k <= PageSpace(p)
    ensures k <= size
  {
  }

  /** The state after a step, or None where the step is not possible. */
  function Next(s: Sys, step: Step): Option<Sys>
    requires Placed(s.ring) && s.user < |s.ring.mem|
  {
    match step
    case WriteStep(x) =>
      if s.active > 0 && IsSample(x) && x.kind != EOF then Some(Append(s, x)) else None
    case GetStep =>
      if s.active > 0 then Some(s.(active := s.active + 1)) else None
    case ReleaseStep =>
      if s.active > 1 then Some(s.(active := s.active - 1))
      else if s.active == 1 then
        Some(Append(s, EOF_SAMPLE).(active := 0, lost := !Fits(s.ring, EOF)))
      else None
    case PollStep =>
      if s.mode != Idle then None
      else if s.ring.items >= s.batch && s.active > 0 then Some(s.(mode := Reading(0, s.batch, false)))
      else if s.active == 0 && (s.ring.items >= s.batch || Count(s.ring) != 0) then
        Some(s.(mode := Reading(0, |s.ring.mem|, true)))
      else None
    case TurnStep =>
      if !s.mode.Reading? || s.mode.n >= s.mode.nr then None
      else if s.user == s.ring.head then Some(s.(mode := Overrun))
      else Some(Turn(s))
    case FlushStep =>
      if s.mode.Reading? && s.mode.n >= s.mode.nr then Some(Flush(s, s.mode.n, s.mode.final))
      else if s.mode.FoundEof? then Some(Flush(s, s.mode.n, s.mode.final))
      else None
  }

  ghost predicate NoEof(c: seq<Sample>) {
    forall s :: s in c ==> s.kind != EOF
  }

  /** EOF is queued behind everything, once, when the last writer has left. */
  ghost predicate EofLast(ended: bool, ahead: seq<Sample>) {
    if ended
    then ahead != [] && ahead[|ahead| - 1] == EOF_SAMPLE && NoEof(ahead[..|ahead| - 1])
    else NoEof(ahead)
  }

  /** Mid-session: the reader's cursor and the kernel's tail agree with the queue. */
  ghost predicate Tracking(s: Sys) {
    && Walk(s.ring, s.user, s.consumed, s.session)
    && s.accepted == s.delivered + Ahead(s.ring, s.user)
    && EofLast(s.active == 0 && !s.lost, Ahead(s.ring, s.user))
    && NoEof(s.session) && s.batch >= 1 && (s.lost ==> s.active == 0)
  }

  ghost predicate Inv(s: Sys) {
    && Placed(s.ring) && s.user < |s.ring.mem|
    && match s.mode
       case Idle => Tracking(s) && s.user == s.ring.tail && s.session == []
       case Reading(n, nr, final) =>
         && Tracking(s) && n == |s.session| <= nr
         && (if final then s.active == 0 && nr == |s.ring.mem|
             else nr == s.batch && nr <= n + EofIndex(Ahead(s.ring, s.user)))
       case FoundEof(n, final) =>
         && Tracking(s) && n == |s.session| + 1
         && final && s.active == 0 && !s.lost && Ahead(s.ring, s.user) == [EOF_SAMPLE]
       case Done =>
         && s.accepted == s.delivered + [EOF_SAMPLE] && s.user == s.ring.tail && s.active == 0 && !s.lost
       case Failed => false
       case Overrun => s.lost && s.active == 0 && s.delivered == s.accepted
  }

  lemma InitInv(s: Sys)
    requires Init(s)
    ensures Inv(s)
  {
    WalkStart(s.ring);
  }

  lemma EofIndexGrows(c: seq<Sample>, d: seq<Sample>)
    ensures EofIndex(c) <= EofIndex(c + d)
    ensures NoEof(c) ==> EofIndex(c) == |c|
  {
    if c != [] {
      assert (c + d)[1..] == c[1..] + d;
      EofIndexGrows(c[1..], d);
    }
  }

  lemma AppendInv(s: Sys, x: Sample)
    requires Inv(s) && IsSample(x)
    requires if x.kind == EOF then s.active == 1 else s.active > 0
    ensures var t := if x.kind == EOF
      then Append(s, x).(active := 0, lost := !Fits(s.ring, EOF)) else Append(s, x);
      Inv(t)
  {
    hide Write, Fits, Decode, EofIndex, Aligned;
    var ahead := Ahead(s.ring, s.user);
    WalkWrite(s.ring, x, s.user, s.consumed, s.session);
    var t := Append(s, x);
    var grown := Ahead(t.ring, s.user);
    WriteKeepsUnread(s.ring, x);
    EofIndexGrows(ahead, if Fits(s.ring, x.kind) then [x] else []);
    assert t.accepted == s.delivered + grown;
    if Fits(s.ring, x.kind) {
      assert grown[..|grown| - 1] == ahead;
    } else {
      assert grown == ahead;
    }
  }

  lemma PollInv(s: Sys)
    requires Inv(s) && Next(s, PollStep).Some?
    ensures Inv(Next(s, PollStep).value)
  {
    hide Decode, Aligned, Counted, EofIndex;
    WalkSplits(s.ring, s.user, s.consumed, s.session);
    EofIndexGrows(Ahead(s.ring, s.user), []);
  }

  lemma TurnFields(s: Sys)
    requires Placed(s.ring) && s.mode.Reading? && s.user < |s.ring.mem| && s.user != s.ring.head
    requires Readable(s.ring.mem, s.user)
    ensures Stride(s.ring.mem, s.user) <= |s.ring.mem|
    ensures var t, seen := Turn(s), Look(s.ring.mem, s.user);
      && t.ring == s.ring && t.active == s.active && t.lost == s.lost && t.user < |t.ring.mem|
      && t.batch == s.batch && t.accepted == s.accepted
      && t.user == Fwd(s.user, Stride(s.ring.mem, s.user), |s.ring.mem|)
      && t.consumed == s.consumed + Stride(s.ring.mem, s.user)
      && t.delivered == s.delivered + Yield(seen) && t.session == s.session + Yield(seen)
      && t.mode == match seen
                   case Got(_) => Reading(s.mode.n + 1, s.mode.nr, s.mode.final)
                   case Skipped => s.mode
                   case AtEof => FoundEof(s.mode.n + 1, s.mode.final)
                   case Unknown => Failed
  {
    StepFits(s.user, Stride(s.ring.mem, s.user), |s.ring.mem|);
  }

  /** What one turn does to the queue ahead of the reader. */
  lemma TurnTracks(s: Sys)
    requires Placed(s.ring) && s.mode.Reading? && Tracking(s) && s.user != s.ring.head
    ensures Readable(s.ring.mem, s.user) && !Look(s.ring.mem, s.user).Unknown?
    ensures var t, seen, ahead := Turn(s), Look(s.ring.mem, s.user), Ahead(s.ring, s.user);
      && t.ring == s.ring && Tracking(t) && |t.session| == |s.session| + |Yield(seen)|
      && ahead == Yield(seen) + Ahead(t.ring, t.user)
      && (if seen.AtEof? then ahead == [EOF_SAMPLE] && s.active == 0 && !s.lost
          else EofIndex(ahead) == |Yield(seen)| + EofIndex(Ahead(t.ring, t.user)))
  {
    hide Decode, Readable, Look, Stride, Aligned, Walk, Turn, From, Fwd, Gap, EofLast, EofIndex, NoEof;
    TurnWalks(s);
    TurnFields(s);
    var t, seen, ahead := Turn(s), Look(s.ring.mem, s.user), Ahead(s.ring, s.user);
    var next := Ahead(t.ring, t.user);
    NoEofYield(s.session, seen);
    MovedOver(s.accepted, s.delivered, Yield(seen), next);
    AheadSplits(s.active == 0 && !s.lost, seen, ahead, next);
  }

  lemma TurnWalks(s: Sys)
    requires Placed(s.ring) && s.mode.Reading? && Walk(s.ring, s.user, s.consumed, s.session)
    requires s.user != s.ring.head
    ensures Readable(s.ring.mem, s.user) && !Look(s.ring.mem, s.user).Unknown?
    ensures Position(s.user, |s.ring.mem|) && From(s.ring, s.user).Some?
    ensures var t, seen := Turn(s), Look(s.ring.mem, s.user);
      && t.ring == s.ring && Position(t.user, |s.ring.mem|) && From(s.ring, t.user).Some?
      && Walk(t.ring, t.user, t.consumed, t.session)
      && Ahead(s.ring, s.user) == Yield(seen) + Ahead(s.ring, t.user)
      && (seen.Got? ==> seen.s.kind != EOF)
      && (seen.AtEof? ==> Ahead(s.ring, s.user) != [] && Ahead(s.ring, s.user)[0] == EOF_SAMPLE)
  {
    hide Decode, Readable, Look, Stride, Aligned, Counted, Turn, Fwd, Gap;
    WalkLook(s.ring, s.user, s.consumed, s.session);
    TurnFields(s);
  }

  lemma MovedOver(accepted: seq<Sample>, delivered: seq<Sample>, out: seq<Sample>, next: seq<Sample>)
    ensures accepted == delivered + (out + next) <==> accepted == (delivered + out) + next
  {
    assert delivered + (out + next) == (delivered + out) + next;
  }

  lemma NoEofYield(session: seq<Sample>, seen: Seen)
    requires NoEof(session) && (seen.Got? ==> seen.s.kind != EOF)
    ensures NoEof(session + Yield(seen))
  {
  }

  lemma AheadSplits(ended: bool, seen: Seen, ahead: seq<Sample>, next: seq<Sample>)
    requires ahead == Yield(seen) + next && (seen.Got? ==> seen.s.kind != EOF)
    requires seen.AtEof? ==> ahead != [] && ahead[0] == EOF_SAMPLE
    requires EofLast(ended, ahead)
    ensures EofIndex(ahead) == |Yield(seen)| + EofIndex(next)
    ensures EofLast(ended, next)
    ensures seen.AtEof? ==> ahead == [EOF_SAMPLE] && ended
  {
    if seen.Got? {
      assert ahead[1..] == next;
      if ended {
        assert next[..|next| - 1] == ahead[..|ahead| - 1][1..];
      }
    } else {
      assert ahead == next by { assert [] + next == next; }
    }
    if |ahead| > 1 {
      assert ahead[0] == ahead[..|ahead| - 1][0];
    }
  }

  lemma TurnInv(s: Sys)
    requires Inv(s) && Next(s, TurnStep).Some?
    ensures Inv(Next(s, TurnStep).value)
  {
    hide Decode, Readable, Look, Stride, Aligned, Walk, Turn, EofLast;
    if s.user == s.ring.head {
      HeadReached(s);
    } else {
      TurnTracks(s);
      TurnFields(s);
    }
  }

  /** Only a final session whose EOF was dropped gets to the head, after the last sample. */
  lemma HeadReached(s: Sys)
    requires Inv(s) && s.mode.Reading? && s.mode.n < s.mode.nr && s.user == s.ring.head
    ensures s.mode.final && s.lost && s.active == 0 && s.delivered == s.accepted
  {
    hide Aligned;
    assert Ahead(s.ring, s.user) == [];
    assert s.delivered + [] == s.delivered;
  }

  /** Both tails meet at every flush, and neither clamping branch of `smon_rb_read` runs. */
  lemma FlushAgrees(s: Sys)
    requires Inv(s) && Next(s, FlushStep).Some?
    ensures var t := Next(s, FlushStep).value;
      Inv(t) && t.ring.tail == t.user && t.consumed == 0
    ensures s.consumed <= Count(s.ring) && s.mode.n <= s.ring.items
    ensures s.mode.Reading? ==> !s.mode.final && |s.session| == s.batch && NoEof(s.session)
  {
    hide Decode;
    WalkSplits(s.ring, s.user, s.consumed, s.session);
    WalkFlush(s.ring, s.user, s.consumed, s.session);
    var t := Next(s, FlushStep).value;
    assert t.ring == s.ring.(tail := s.user, items := s.ring.items - s.mode.n);
    if s.mode.Reading? {
      WalkStart(t.ring);
    }
  }

  lemma NextInv(s: Sys, step: Step)
    requires Inv(s) && Next(s, step).Some?
    ensures Inv(Next(s, step).value)
  {
    hide Tracking, Turn, Flush, Write, Fits, EofIndex;
    match step
    case WriteStep(x) =>
      AppendInv(s, x);
    case GetStep =>
      GetInv(s);
    case ReleaseStep =>
      if s.active > 1 {
        GetInv(s);
      } else {
        AppendInv(s, EOF_SAMPLE);
      }
    case PollStep =>
      PollInv(s);
    case TurnStep =>
      TurnInv(s);
    case FlushStep =>
      FlushAgrees(s);
  }

  lemma GetInv(s: Sys)
    requires Inv(s) && s.active > 0
    ensures Inv(s.(active := s.active + 1))
    ensures s.active > 1 ==> Inv(s.(active := s.active - 1))
  {
  }

  /** A run: the state after the steps, or None if one of them was not possible. Every state
      a run can reach satisfies the invariant. */
  ghost function Run(s: Sys, steps: seq<Step>): (t: Option<Sys>)
    requires Inv(s)
    ensures t.Some? ==> Inv(t.value)
  {
    if steps == [] then Some(s)
    else
      var t := Run(s, steps[..|steps| - 1]);
      if t.None? || Next(t.value, steps[|steps| - 1]).None? then None
      else
        NextInv(t.value, steps[|steps| - 1]);
        Next(t.value, steps[|steps| - 1])
  }

  /** The channel is a FIFO. Whatever the interleaving of writers, reader turns and tail
      updates: what was printed is a prefix of what was queued, no unknown header is ever met,
      a finished session has printed everything before EOF, and the reader only ever passes
      the head when EOF was dropped, having printed everything first. */
  lemma {:induction false} Fifo(s0: Sys, steps: seq<Step>)
    requires Init(s0)
    ensures Inv(s0)
    ensures Run(s0, steps).Some? ==>
      var s := Run(s0, steps).value;
      && s.delivered <= s.accepted
      && s.mode != Failed
      && (s.mode == Done ==> s.accepted == s.delivered + [EOF_SAMPLE] && s.active == 0)
      && (s.mode == Overrun ==> s.lost && s.delivered == s.accepted)
      && (s.lost ==> s.mode != Done)
  {
    InitInv(s0);
  }

  /** When poll lets the idle tool go, and what for. */
  lemma PollExact(s: Sys)
    requires Inv(s) && s.mode == Idle
    ensures Framed(s.ring) && var queued := |Contents(s.ring)|; var t := Next(s, PollStep);
      if s.active > 0 then t == if queued >= s.batch then Some(s.(mode := Reading(0, s.batch, false))) else None
      else t == if Count(s.ring) != 0 then Some(s.(mode := Reading(0, |s.ring.mem|, true))) else None
  {
    hide Decode, Aligned;
    WalkSplits(s.ring, s.user, s.consumed, s.session);
  }

  /** At POLLIN the batch is there: a flush after a non-final session has read exactly the
      first `batch` samples queued, none of them EOF, and leaves the others. */
  lemma ExactBatch(s: Sys)
    requires Inv(s) && Next(s, FlushStep).Some? && s.mode.Reading?
    ensures !s.mode.final && Framed(s.ring) && s.batch <= |Contents(s.ring)|
    ensures s.session == Contents(s.ring)[..s.batch] && NoEof(s.session) && s.mode.n == s.batch
    ensures var t := Next(s, FlushStep).value;
      && Framed(t.ring) && Contents(t.ring) == Contents(s.ring)[s.batch..]
      && t.ring.items == s.ring.items - s.batch && t.mode == Idle
  {
    hide Decode, Aligned;
    FlushAgrees(s);
    WalkSplits(s.ring, s.user, s.consumed, s.session);
    WalkFlush(s.ring, s.user, s.consumed, s.session);
    var t := Next(s, FlushStep).value;
    assert t.ring == s.ring.(tail := s.user, items := s.ring.items - s.mode.n);
    assert Contents(s.ring) == s.session + Ahead(s.ring, s.user);
  }

  /** The session of one POLLIN, whatever is written meanwhile: from the poll to the flush the
      tool prints exactly the first `batch` samples that were queued at the poll. */
  lemma OneSession(s: Sys, steps: seq<Step>)
    requires Inv(s) && s.mode == Idle && s.active > 0 && Next(s, PollStep).Some? && FlushStep !in steps
    requires var p := Next(s, PollStep).value; Inv(p) && Run(p, steps).Some?
    requires var t := Run(Next(s, PollStep).value, steps).value;
      t.mode.Reading? && Next(t, FlushStep).Some?
    ensures Framed(s.ring) && s.batch <= |Contents(s.ring)|
    ensures Run(Next(s, PollStep).value, steps).value.delivered == s.delivered + Contents(s.ring)[..s.batch]
  {
    hide Decode, Aligned;
    PollExact(s);
    var p := Next(s, PollStep).value;
    SessionGrows(p, steps);
    var t := Run(p, steps).value;
    ExactBatch(t);
    assert t.session[0..] == t.session;
  }

  /** Between flushes the queue and the session only grow, and what is printed is the session. */
  lemma {:induction false} SessionGrows(s: Sys, steps: seq<Step>)
    requires Inv(s) && FlushStep !in steps && Run(s, steps).Some?
    ensures var t := Run(s, steps).value;
      t.mode != Overrun && t.mode != Done ==>
        && s.mode != Overrun && s.mode != Done && t.batch == s.batch && Framed(s.ring) && Framed(t.ring)
        && Contents(s.ring) <= Contents(t.ring) && s.session <= t.session
        && t.delivered == s.delivered + t.session[|s.session|..]
  {
    hide Inv, Next, Framed, Contents;
    if steps == [] {
      TrackedFramed(s);
      assert s.delivered + [] == s.delivered;
    } else {
      var before, last := steps[..|steps| - 1], steps[|steps| - 1];
      SessionGrows(s, before);
      InvPlaced(Run(s, before).value);
      StepGrows(Run(s, before).value, last);
    }
  }

  lemma TrackedFramed(s: Sys)
    requires Inv(s)
    ensures s.mode != Overrun && s.mode != Done ==> Framed(s.ring)
  {
    hide Decode;
  }

  lemma StepGrows(s: Sys, step: Step)
    requires Inv(s) && step != FlushStep && Next(s, step).Some?
    ensures var t := Next(s, step).value;
      t.mode != Overrun ==>
        && s.mode != Overrun && s.mode != Done && t.mode != Done && t.batch == s.batch
        && Framed(s.ring) && Framed(t.ring)
        && Contents(s.ring) <= Contents(t.ring) && s.session <= t.session
        && t.delivered == s.delivered + t.session[|s.session|..]
  {
    hide Tracking, Turn, Decode, Aligned, RingSpec.Write, Fits, EofIndex;
    assert s.delivered + [] == s.delivered;
    TrackedFramed(s);
    match step
    case WriteStep(x) =>
      assert Tracking(s);
      WriteGrows(s.ring, x);
    case ReleaseStep =>
      assert Tracking(s);
      WriteGrows(s.ring, EOF_SAMPLE);
    case TurnStep =>
      if s.user != s.ring.head {
        assert Tracking(s);
        TurnGrows(s);
      }
    case _ =>
  }

  lemma WriteGrows(r: Ring, x: Sample)
    requires Framed(r) && IsSample(x)
    ensures Framed(RingSpec.Write(r, x)) && Contents(r) <= Contents(RingSpec.Write(r, x))
  {
    hide Decode, Aligned, RingSpec.Write, Fits;
    WriteAppends(r, x, r.tail);
    WriteKeepsUnread(r, x);
  }

  lemma TurnGrows(s: Sys)
    requires Placed(s.ring) && s.mode.Reading? && Tracking(s) && s.user != s.ring.head && s.user < |s.ring.mem|
    ensures Framed(s.ring)
    ensures var t := Turn(s);
      && t.ring == s.ring && t.batch == s.batch && s.session <= t.session && t.mode != Done && t.mode != Overrun
      && t.delivered == s.delivered + t.session[|s.session|..]
  {
    hide Decode, Readable, Look, Stride, Aligned, Turn, EofLast, EofIndex;
    TurnTracks(s);
    TurnFields(s);
    var y := Yield(Look(s.ring.mem, s.user));
    assert (s.session + y)[|s.session|..] == y;
  }

  // ---- what is queued ----

  /** What the writers offered. */
  function Offered(steps: seq<Step>): seq<Sample> {
    if steps == [] then []
    else
      var last := steps[|steps| - 1];
      Offered(steps[..|steps| - 1]) + if last.WriteStep? then [last.s] else []
  }

  /** a is b with some elements left out. */
  predicate LeftOver(a: seq<Sample>, b: seq<Sample>) {
    if b == [] then a == []
    else
      var last, before := b[|b| - 1], b[..|b| - 1];
      LeftOver(a, before) || (a != [] && a[|a| - 1] == last && LeftOver(a[..|a| - 1], before))
  }

  /** A write queues its sample, at the latest when 196 bytes are free, or nothing, and touches
      nothing of the reader's. */
  lemma WriteQueues(s: Sys, x: Sample)
    requires Inv(s)
    ensures Next(s, WriteStep(x)).Some? <==> s.active > 0 && IsSample(x) && x.kind != EOF
    ensures Next(s, WriteStep(x)).Some? ==>
      var t := Next(s, WriteStep(x)).value;
      && t == s.(ring := t.ring, accepted := t.accepted)
      && (t.accepted == s.accepted + [x] || (t.accepted == s.accepted && Space(s.ring) < 196))
  {
    hide Write, Decode, Aligned;
    if s.active > 0 && IsSample(x) {
      WhenDropped(s.ring, x);
      assert s.accepted + [] == s.accepted;
    }
  }

  /** What is queued was offered, in the order it was offered, with EOF behind it once every
      writer has gone, unless EOF was dropped. */
  lemma {:induction false} OnlyOffered(s0: Sys, steps: seq<Step>)
    requires Init(s0) && Inv(s0) && Run(s0, steps).Some?
    ensures var t := Run(s0, steps).value;
      if t.active > 0 || t.lost then LeftOver(t.accepted, Offered(steps))
      else t.accepted != [] && t.accepted[|t.accepted| - 1] == EOF_SAMPLE
           && LeftOver(t.accepted[..|t.accepted| - 1], Offered(steps))
  {
    hide Inv, Next, Write, Fits;
    if steps != [] {
      var before, last := steps[..|steps| - 1], steps[|steps| - 1];
      OnlyOffered(s0, before);
      var s := Run(s0, before).value;
      InvPlaced(s);
      StepQueues(s, last);
      var t := Next(s, last).value;
      if last.WriteStep? {
        OneMoreOffered(s.accepted, Offered(before), last.s);
      } else {
        assert Offered(before) + [] == Offered(before) && s.accepted + [] == s.accepted;
      }
      if last.ReleaseStep? && t.active == 0 && !t.lost {
        assert t.accepted[..|s.accepted|] == s.accepted;
      }
    }
  }

  lemma OneMoreOffered(a: seq<Sample>, b: seq<Sample>, x: Sample)
    requires LeftOver(a, b)
    ensures LeftOver(a, b + [x]) && LeftOver(a + [x], b + [x])
  {
    assert (b + [x])[..|b|] == b && (a + [x])[..|a|] == a;
  }

  lemma StepQueues(s: Sys, step: Step)
    requires Inv(s) && Next(s, step).Some?
    ensures var t := Next(s, step).value;
      match step
      case WriteStep(x) => s.active > 0 && t.active > 0 && (t.accepted == s.accepted ||
        t.accepted == s.accepted + [x])
      case ReleaseStep => if t.active > 0 then t.accepted == s.accepted && s.active > 0 && t.lost == s.lost
        else s.active > 0 && t.accepted == s.accepted + if t.lost then [] else [EOF_SAMPLE]
      case _ => t.accepted == s.accepted && (t.active > 0 <==> s.active > 0) && t.lost == s.lost
  {
    hide Write, Fits, Look, Stride, Readable, Decode, Aligned;
    assert s.accepted + [] == s.accepted;
  }

  /** Until the reader's flush, nothing in the unread stretch moves or changes. */
  lemma {:induction false} UnreadStable(s: Sys, steps: seq<Step>)
    requires Inv(s) && FlushStep !in steps && Run(s, steps).Some?
    ensures var t := Run(s, steps).value;
      && t.ring.tail == s.ring.tail && |t.ring.mem| == |s.ring.mem| && Count(s.ring) <= Count(t.ring)
      && forall i :: 0 <= i < Count(s.ring) ==>
           t.ring.mem[Fwd(s.ring.tail, i, |s.ring.mem|)] == s.ring.mem[Fwd(s.ring.tail, i, |s.ring.mem|)]
  {
    hide Inv, Write, Fits;
    if steps != [] {
      var step := steps[|steps| - 1];
      UnreadStable(s, steps[..|steps| - 1]);
      InvPlaced(Run(s, steps[..|steps| - 1]).value);
      StepKeepsUnread(Run(s, steps[..|steps| - 1]).value, step);
    }
  }

  lemma StepKeepsUnread(s: Sys, step: Step)
    requires Placed(s.ring) && s.user < |s.ring.mem| && step != FlushStep && Next(s, step).Some?
    ensures var t := Next(s, step).value;
      && Placed(t.ring) && t.ring.tail == s.ring.tail && |t.ring.mem| == |s.ring.mem|
      && Count(s.ring) <= Count(t.ring)
      && forall i :: 0 <= i < Count(s.ring) ==>
           t.ring.mem[Fwd(s.ring.tail, i, |s.ring.mem|)] == s.ring.mem[Fwd(s.ring.tail, i, |s.ring.mem|)]
  {
    hide Write, Fits;
    if step.WriteStep? && IsSample(step.s) {
      WriteKeepsUnread(s.ring, step.s);
    } else if step.ReleaseStep? {
      WriteKeepsUnread(s.ring, EOF_SAMPLE);
    }
  }

  /** Every turn that does not end the session brings the cursor closer to the head. */
  lemma TurnShrinks(s: Sys)
    requires Inv(s) && Next(s, TurnStep).Some? && s.user != s.ring.head
    ensures var t := Next(s, TurnStep).value;
      t.mode.FoundEof? || Gap(t.user, t.ring.head, |t.ring.mem|) < Gap(s.user, s.ring.head, |s.ring.mem|)
  {
    hide Decode, Aligned, Turn, Look, Stride, Readable, EofLast, EofIndex, Counted;
    var n := Gap(s.user, s.ring.head, |s.ring.mem|);
    TurnTracks(s);
    TurnFields(s);
    LookDecodes(s.ring.mem, s.user, n);
    WalkMoves(s.ring, s.user, Stride(s.ring.mem, s.user), n);
  }

  /** When all writers have gone, an idle tool is woken unless EOF was dropped and nothing
      is left to read. */
  lemma HangUp(s: Sys)
    requires Inv(s) && s.mode == Idle && s.active == 0
    ensures Next(s, PollStep).None? <==> Count(s.ring) == 0
    ensures Next(s, PollStep).None? ==> s.lost
    ensures Next(s, PollStep).Some? ==> Next(s, PollStep).value.mode == Reading(0, |s.ring.mem|, true)
  {
    hide Decode, Aligned;
    WalkSplits(s.ring, s.user, s.consumed, s.session);
  }

  /** What is left to do of a session. */
  function Left(s: Sys): nat
    requires Placed(s.ring) && s.user < |s.ring.mem|
  {
    if s.mode.Reading? then 1 + Gap(s.user, s.ring.head, |s.ring.mem|) else 0
  }

  lemma FinalTurn(s: Sys)
    requires Inv(s) && s.mode.Reading? && s.mode.final
    ensures Next(s, TurnStep).Some?
    ensures var t := Next(s, TurnStep).value;
      && Inv(t) && Left(t) < Left(s) && t.accepted == s.accepted && t.lost == s.lost
      && match t.mode
         case Reading(_, _, final) => final
         case FoundEof(_, final) => final && !s.lost
         case Overrun => s.lost
         case _ => false
  {
    hide Tracking, Turn, Decode, Aligned, Look, Stride, Readable;
    if Next(s, FlushStep).Some? {
      FlushAgrees(s);
    }
    TurnInv(s);
    if s.user != s.ring.head {
      TurnShrinks(s);
      assert Tracking(s);
      TurnReads(s);
    }
  }

  lemma TurnReads(s: Sys)
    requires Placed(s.ring) && s.mode.Reading? && Tracking(s) && s.user != s.ring.head && s.user < |s.ring.mem|
    ensures var t := Turn(s);
      && t.accepted == s.accepted && t.lost == s.lost && t.mode != Failed
      && match t.mode
         case Reading(_, _, final) => final == s.mode.final
         case FoundEof(_, final) => final == s.mode.final
         case _ => false
  {
    hide Decode, Readable, Look, Stride, Aligned, Walk, Turn, EofLast, EofIndex;
    TurnTracks(s);
    TurnFields(s);
  }

  /** The read after POLLHUP, left alone, comes to an end, and how it ends says whether EOF
      was accepted: if so it stops on EOF with everything before it printed, if not it has
      printed everything and goes on past the head. */
  lemma FinalRead(s: Sys) returns (turns: seq<Step>)
    requires Inv(s) && s.mode.Reading? && s.mode.final
    ensures forall x :: x in turns ==> x == TurnStep
    ensures Run(s, turns).Some?
    ensures var t := Run(s, turns).value;
      && t.accepted == s.accepted
      && if s.lost then t.mode == Overrun && t.delivered == s.accepted
         else t.mode.FoundEof? && t.delivered + [EOF_SAMPLE] == s.accepted
              && Next(t, FlushStep).Some? && Next(t, FlushStep).value.mode == Done
  {
    hide Inv, Next, Left;
    InvPlaced(s);
    turns := [];
    var t := s;
    while t.mode.Reading?
      invariant Inv(t) && Placed(t.ring) && t.user < |t.ring.mem|
      invariant Run(s, turns) == Some(t) && t.accepted == s.accepted && t.lost == s.lost
      invariant forall x :: x in turns ==> x == TurnStep
      invariant match t.mode
                case Reading(_, _, final) => final
                case FoundEof(_, final) => final && !s.lost
                case Overrun => s.lost
                case _ => false
      decreases Left(t)
    {
      FinalTurn(t);
      assert (turns + [TurnStep])[..|turns|] == turns;
      turns, t := turns + [TurnStep], Next(t, TurnStep).value;
      InvPlaced(t);
    }
    FinalEnd(t);
  }

  lemma FinalEnd(s: Sys)
    requires Inv(s)
    ensures s.mode == Overrun ==> s.delivered == s.accepted
    ensures s.mode.FoundEof? && s.mode.final ==>
      && s.delivered + [EOF_SAMPLE] == s.accepted
      && Next(s, FlushStep).Some? && Next(s, FlushStep).value.mode == Done
  {
    hide Walk, EofLast, NoEof;
  }

  /** EOF is dropped exactly when the last writer leaves a ring with only 4 bytes unused. */
  lemma EofDropped(s: Sys)
    requires Inv(s) && s.active == 1
    ensures Next(s, ReleaseStep).Some?
    ensures Next(s, ReleaseStep).value.lost <==> Count(s.ring) == |s.ring.mem| - 4
  {
    WhenDropped(s.ring, EOF_SAMPLE);
  }

  /** A session begun at POLLIN, left alone, comes to an end too, with its batch printed. */
  lemma BatchRead(s: Sys) returns (turns: seq<Step>)
    requires Inv(s) && s.mode.Reading? && !s.mode.final
    ensures forall x :: x in turns ==> x == TurnStep
    ensures Run(s, turns).Some?
    ensures var t := Run(s, turns).value;
      && t.ring == s.ring && t.active == s.active && t.lost == s.lost && t.batch == s.batch
      && t.accepted == s.accepted && |t.delivered| == |s.delivered| + (s.mode.nr - s.mode.n)
      && t.mode == Reading(s.mode.nr, s.mode.nr, false)
  {
    hide Inv, Next, Left;
    InvPlaced(s);
    BatchBound(s);
    turns := [];
    var t := s;
    while t.mode.n < t.mode.nr
      invariant Inv(t) && Placed(t.ring) && t.user < |t.ring.mem| && Run(s, turns) == Some(t)
      invariant forall x :: x in turns ==> x == TurnStep
      invariant t.ring == s.ring && t.active == s.active && t.lost == s.lost && t.batch == s.batch
      invariant t.accepted == s.accepted && t.mode.Reading? && !t.mode.final && t.mode.nr == s.mode.nr
      invariant |t.delivered| == |s.delivered| + (t.mode.n - s.mode.n) && t.mode.n <= t.mode.nr
      decreases Left(t)
    {
      BatchTurn(t);
      assert (turns + [TurnStep])[..|turns|] == turns;
      turns, t := turns + [TurnStep], Next(t, TurnStep).value;
      InvPlaced(t);
    }
  }

  lemma BatchTurn(s: Sys)
    requires Inv(s) && s.mode.Reading? && !s.mode.final && s.mode.n < s.mode.nr
    ensures Next(s, TurnStep).Some?
    ensures var t := Next(s, TurnStep).value;
      && Inv(t) && Left(t) < Left(s) && t.ring == s.ring && t.active == s.active && t.lost == s.lost
      && t.batch == s.batch && t.accepted == s.accepted
      && t.mode.Reading? && t.mode.nr == s.mode.nr && !t.mode.final && t.mode.n <= t.mode.nr
      && |t.delivered| == |s.delivered| + (t.mode.n - s.mode.n)
  {
    hide Tracking, Turn, Decode, Aligned, Look, Stride, Readable;
    if s.user == s.ring.head {
      HeadReached(s);
    }
    TurnInv(s);
    TurnShrinks(s);
    assert Tracking(s);
    TurnReads(s);
    TurnCounts(s);
  }

  lemma TurnCounts(s: Sys)
    requires Placed(s.ring) && s.mode.Reading? && Tracking(s) && s.user != s.ring.head && s.user < |s.ring.mem|
    ensures var t := Turn(s);
      && t.ring == s.ring && t.active == s.active && t.batch == s.batch
      && (t.mode.Reading? ==> t.mode.nr == s.mode.nr && |t.delivered| == |s.delivered| + (t.mode.n - s.mode.n))
  {
    hide Decode, Readable, Look, Stride, Aligned, Walk, Turn, EofLast, EofIndex;
    TurnTracks(s);
    TurnFields(s);
  }

  lemma BatchBound(s: Sys)
    requires Inv(s) && s.mode.Reading?
    ensures s.mode.n <= s.mode.nr
  {
  }

  /** A run goes on from where a first part of it got. */
  lemma {:induction false} RunJoin(s: Sys, first: seq<Step>, rest: seq<Step>)
    requires Inv(s) && Run(s, first).Some?
    ensures Run(s, first + rest) == Run(Run(s, first).value, rest)
  {
    hide Inv, Next;
    if rest == [] {
      assert first + rest == first;
    } else {
      RunJoin(s, first, rest[..|rest| - 1]);
      assert (first + rest)[..|first + rest| - 1] == first + rest[..|rest| - 1];
    }
  }

  /** With no sample left ahead, an idle reader is at the head, unless a PAD has brought the
      head to a page start. */
  lemma NothingAhead(s: Sys)
    requires Inv(s) && s.mode == Idle && s.accepted == s.delivered && s.ring.head % PAGE != 0
    ensures Count(s.ring) == 0
  {
    hide Decode, Aligned, FrameAt, EofLast;
    var r, p := s.ring, s.ring.tail;
    var n := Count(r);
    assert s.delivered + [] == s.delivered;
    assert Ahead(r, p) == [];
    if n > 0 {
      LookDecodes(r.mem, p, n);
      var q := Fwd(p, Stride(r.mem, p), |r.mem|);
      if n > Stride(r.mem, p) {
        LookDecodes(r.mem, q, n - Stride(r.mem, p));
      }
    }
  }

  lemma InvPlaced(s: Sys)
    requires Inv(s)
    ensures Placed(s.ring) && s.user < |s.ring.mem|
  {
  }
}
