/**
  Inevitable recovery: once packets stop arriving, six full rounds bring every frame home, in
  whatever order the threads and the kernel take their steps.
*/
module Rounds {
  import opened Basics
  import opened FrameProtocol
  import opened Ownership
  import opened Capacity
  import opened Recovery

  // ---- Stretches of runs ------------------------------------------------------------

  /** A run with all the states it goes through. */
  datatype Stretch = Stretch(states: seq<State>, steps: seq<Step>)

  ghost predicate Goes(c: Setup, sch: Schedule, x: State, step: Step, y: State) {
    NoArrival(step) && Allowed(c, sch, x, step) && y == Apply(c, x, step)
  }

  /** Without arrivals, every step leads from one state to the next. */
  ghost predicate Walks(c: Setup, sch: Schedule, p: Stretch) {
    && |p.states| == |p.steps| + 1
    && forall i :: 0 <= i < |p.steps| ==> Goes(c, sch, p.states[i], p.steps[i], p.states[i + 1])
  }

  ghost predicate Between(c: Setup, sch: Schedule, p: Stretch, x: State, y: State) {
    Walks(c, sch, p) && p.states[0] == x && p.states[|p.steps|] == y
  }

  lemma StretchOn(c: Setup, sch: Schedule, s: State, steps: seq<Step>, k: nat, next: nat, x: State, y: State)
    requires k < |steps| && next == k + 1 && Goes(c, sch, x, steps[k], y)
    requires Runs(c, sch, s, steps[..k]) && Calm(steps[..k]) && Exec(c, sch, s, steps[..k]) == x
    ensures Runs(c, sch, s, steps[..next]) && Calm(steps[..next]) && Exec(c, sch, s, steps[..next]) == y
  {
    RunsSnoc(c, sch, s, steps[..k], steps[k], x);
    assert steps[..next] == steps[..k] + [steps[k]];
  }

  /** A stretch is a calm run. */
  lemma {:induction false} StretchRuns(c: Setup, sch: Schedule, p: Stretch, s: State, i: nat)
    requires Walks(c, sch, p) && i <= |p.steps| && s == p.states[0]
    ensures Runs(c, sch, s, p.steps[..i]) && Calm(p.steps[..i]) && Exec(c, sch, s, p.steps[..i]) == p.states[i]
  {
    if i > 0 {
      var k := i - 1;
      StretchRuns(c, sch, p, s, k);
      assert Goes(c, sch, p.states[k], p.steps[k], p.states[k + 1]);
      StretchOn(c, sch, s, p.steps, k, i, p.states[k], p.states[i]);
    }
  }

  // ---- A full round ---------------------------------------------------------------

  /** Reading a queue as far as it goes. */
  datatype Duty = Receive(t: nat) | Send(t: nat) | Complete | Collect

  predicate IsDuty(c: Setup, duty: Duty) {
    match duty case Receive(t) => IsWorker(c, t) case Send(t) => IsWorker(c, t) case _ => true
  }

  predicate Does(c: Setup, s: State, step: Step, duty: Duty)
    requires Enabled(c, s, step)
  {
    match duty
    case Receive(t) => IsWorker(c, t) && step == Recv(t, Min(|s.threads[t].rx|, |s.threads[t].scratch|))
    case Send(t) => IsWorker(c, t) && step == KSend(t, |s.threads[t].tx|)
    case Complete => step.KComplete? && multiset(step.ds) == s.sending
    case Collect =>
      var at := if c.mode.FirstThread? && Med(c, s).pc.Sent? then Med(c, s).pc.recvd else 0;
      step.Reap? && at + step.k <= |Med(c, s).scratch| && step.k == Min(|s.cq|, |Med(c, s).scratch| - at)
  }

  ghost predicate DoneAt(c: Setup, p: Stretch, duty: Duty, i: nat) {
    i < |p.steps| && i < |p.states| && Enabled(c, p.states[i], p.steps[i])
    && Does(c, p.states[i], p.steps[i], duty)
  }

  ghost predicate DoneOnce(c: Setup, p: Stretch, duty: Duty) {
    exists i: nat :: DoneAt(c, p, duty, i)
  }

  /** Where a thread's loop begins; the extra thread's after it has drained all rings. */
  predicate AtHead(c: Setup, t: nat, pc: Pc) {
    if IsWorker(c, t) then pc.Idle? else pc == Drain(NumRings(c))
  }

  ghost predicate HeadAt(c: Setup, p: Stretch, t: nat, i: nat) {
    i < |p.states| && t < |p.states[i].threads| && AtHead(c, t, p.states[i].threads[t].pc)
  }

  ghost predicate HeadOnce(c: Setup, p: Stretch, t: nat) {
    exists i: nat :: HeadAt(c, p, t, i)
  }

  /** The mediator visits ring `r` between `i` and `j`. */
  ghost predicate VisitedFrom(c: Setup, p: Stretch, r: nat, i: nat, j: nat) {
    && i <= j < |p.states| && |p.states[i].threads| == NumThreads(c) == |p.states[j].threads|
    && Med(c, p.states[i]).pc == Drain(r) && Med(c, p.states[j]).pc == Drain(r + 1)
  }

  ghost predicate VisitedOnce(c: Setup, p: Stretch, r: nat) {
    exists i: nat, j: nat :: VisitedFrom(c, p, r, i, j)
  }

  /** Every thread comes by the head of its loop, every queue is once read as far as it goes, and
      the mediator once visits every ring; in any order, and with any other steps in between. */
  ghost predicate FullRound(c: Setup, p: Stretch) {
    && (forall duty :: IsDuty(c, duty) ==> DoneOnce(c, p, duty))
    && (forall t: nat :: t < NumThreads(c) ==> HeadOnce(c, p, t))
    && (forall r: nat :: r < NumRings(c) ==> VisitedOnce(c, p, r))
  }

  // ---- What one round after the other empties --------------------------------------

  /** The pass in progress received no packet. */
  predicate Clean(pc: Pc) {
    match pc case Received(k) => k == 0 case Partitioned(_, k) => k == 0 case Sent(_, k) => k == 0 case _ => true
  }

  predicate Refilled(pc: Pc) { pc.Completed? ==> pc.upto <= pc.numTx }

  /** Ring `r` is empty, or the drain in progress will empty it. */
  predicate Draining(c: Setup, s: State, r: nat)
    requires |s.threads| == NumThreads(c) && r < |s.rings|
  {
    var ring, pc := s.rings[r], Med(c, s).pc;
    Pending(ring) == []
    || match pc
       case Drain(q) => q == r
       case Sliced(q, n1, n2) => q == r && ring.taken + n1 + n2 == |ring.pushed|
       case HalfProduced(q, n1, n2) => q == r && ring.taken + n1 + n2 == |ring.pushed|
       case Produced(q, n1, n2) => q == r && ring.taken + n1 + n2 == |ring.pushed|
       case _ => false
  }

  datatype Goal =
    | NoRx(t: nat) | NoWindow(t: nat) | NoTx(t: nat) | Drains(r: nat) | NoPending(r: nat)
    | NothingSent | NothingCompleted | NoRefill(t: nat)

  /** The round that reaches a goal. */
  function RoundOf(g: Goal): nat {
    match g
    case NoRx(_) => 1
    case NoWindow(_) => 2
    case NoTx(_) => 3
    case Drains(_) => 3
    case NoPending(_) => 3
    case NothingSent => 4
    case NothingCompleted => 5
    case NoRefill(_) => 6
  }

  ghost predicate Holds(c: Setup, s: State, g: Goal) {
    Shaped(c, s)
    && match g
       case NoRx(t) => t < |s.threads| && s.threads[t].rx == []
       case NoWindow(t) => t < |s.threads| && Clean(s.threads[t].pc)
       case NoTx(t) => t < |s.threads| && s.threads[t].tx == []
       case Drains(r) => r < |s.rings| && Draining(c, s, r)
       case NoPending(r) => r < |s.rings| && Pending(s.rings[r]) == []
       case NothingSent => s.sending == multiset{}
       case NothingCompleted => s.cq == []
       case NoRefill(t) => t < |s.threads| && Refilled(s.threads[t].pc)
  }

  /** After `n` full rounds. */
  ghost predicate Stage(c: Setup, s: State, n: nat) {
    && (n >= 1 ==> forall t: nat :: t < NumThreads(c) ==> Holds(c, s, NoRx(t)))
    && (n >= 2 ==> forall t: nat :: t < NumThreads(c) ==> Holds(c, s, NoWindow(t)))
    && (n >= 3 ==> forall t: nat :: t < NumThreads(c) ==> Holds(c, s, NoTx(t)))
    && (n >= 3 ==> forall r: nat :: r < NumRings(c) ==> Holds(c, s, NoPending(r)))
    && (n >= 4 ==> Holds(c, s, NothingSent))
    && (n >= 5 ==> Holds(c, s, NothingCompleted))
    && (n >= 6 ==> forall t: nat :: t < NumThreads(c) ==> Holds(c, s, NoRefill(t)))
  }

  // ---- What is empty stays empty ----------------------------------------------------

  /** What a worker's or the kernel's step without arrivals does to thread `t`. */
  ghost predicate WorkerMove(s: State, step: Step, th: Thread, th': Thread, t: nat) {
    || th' == th
    || match step
       case KSend(u, k) => u == t && k <= |th.tx| && th' == th.(tx := th.tx[k..])
       case Recv(u, k) => u == t && k <= |th.rx| && th'.rx == th.rx[k..] && th'.tx == th.tx && th'.pc == Received(k)
       case Partition(u, _, numTx) =>
         u == t && th.pc.Received? && th'.rx == th.rx && th'.tx == th.tx && th'.pc == Partitioned(numTx, th.pc.recvd)
       case Transmit(u) =>
         u == t && th.pc.Partitioned? && th.pc.numTx <= |th.scratch| && th'.rx == th.rx
         && (th'.tx == th.tx || th'.tx == th.tx + th.scratch[..th.pc.numTx])
         && th'.pc == Sent(th.pc.numTx, th.pc.recvd)
       case Push(u) => u == t && th' == th.(pc := Idle)
       case _ => false
  }

  lemma WorkerMoves(c: Setup, s: State, step: Step, s': State, t: nat)
    requires |s.threads| == NumThreads(c) && Enabled(c, s, step) && NoArrival(step) && s' == Apply(c, s, step)
    requires !MovesMediator(step) && t < |s.threads|
    ensures |s'.threads| == |s.threads| && |s'.rings| == |s.rings|
    ensures WorkerMove(s, step, s.threads[t], s'.threads[t], t)
  {
  }

  /** What a step of the mediator does to thread `t`. */
  ghost predicate MediatorMove(c: Setup, s: State, step: Step, th: Thread, th': Thread, t: nat) {
    || th' == th
    || (t == Mediator(c) && th'.rx == th.rx && th'.tx == th.tx
        && match step
           case Reap(m) =>
             th'.pc == if c.mode.FirstThread? && th.pc.Sent? then Completed(th.pc.numTx, th.pc.recvd + m)
                       else Completed(0, m)
           case _ => !th'.pc.Received? && !th'.pc.Partitioned? && !th'.pc.Sent? && !th'.pc.Completed?)
  }

  lemma CollectingMoves(c: Setup, s: State, step: Step, s': State, t: nat)
    requires |s.threads| == NumThreads(c) && Enabled(c, s, step) && s' == Apply(c, s, step)
    requires (step.Reap? || step.Refill? || step.Wrap?) && t < |s.threads|
    ensures |s'.threads| == |s.threads| && |s'.rings| == |s.rings|
    ensures MediatorMove(c, s, step, s.threads[t], s'.threads[t], t)
  {
  }

  lemma DrainingMoves(c: Setup, s: State, step: Step, s': State, t: nat)
    requires |s.threads| == NumThreads(c) && Enabled(c, s, step) && s' == Apply(c, s, step)
    requires (step.Look? || step.ProduceFirst? || step.ProduceSecond? || step.Advance?) && t < |s.threads|
    ensures |s'.threads| == |s.threads| && |s'.rings| == |s.rings|
    ensures MediatorMove(c, s, step, s.threads[t], s'.threads[t], t)
  {
  }

  /** One of the two, whichever the step calls for. */
  lemma ThreadMoves(c: Setup, s: State, step: Step, s': State, t: nat)
    requires |s.threads| == NumThreads(c) && Enabled(c, s, step) && NoArrival(step) && s' == Apply(c, s, step)
    requires t < |s.threads|
    ensures |s'.threads| == |s.threads| && |s'.rings| == |s.rings|
    ensures if MovesMediator(step) then MediatorMove(c, s, step, s.threads[t], s'.threads[t], t)
            else WorkerMove(s, step, s.threads[t], s'.threads[t], t)
  {
    if !MovesMediator(step) { WorkerMoves(c, s, step, s', t); }
    else if step.Reap? || step.Refill? || step.Wrap? { CollectingMoves(c, s, step, s', t); }
    else { DrainingMoves(c, s, step, s', t); }
  }

  lemma RxStays(c: Setup, s: State, step: Step, s': State, t: nat)
    requires Enabled(c, s, step) && NoArrival(step) && s' == Apply(c, s, step)
    requires Holds(c, s, NoRx(t))
    ensures Holds(c, s', NoRx(t))
  {
    ThreadMoves(c, s, step, s', t);
  }

  lemma WindowStays(c: Setup, s: State, step: Step, s': State, t: nat)
    requires Enabled(c, s, step) && NoArrival(step) && s' == Apply(c, s, step)
    requires Holds(c, s, NoRx(t)) && Holds(c, s, NoWindow(t))
    ensures Holds(c, s', NoWindow(t))
  {
    ThreadMoves(c, s, step, s', t);
  }

  lemma TxStays(c: Setup, s: State, step: Step, s': State, t: nat, th: Thread)
    requires Enabled(c, s, step) && NoArrival(step) && s' == Apply(c, s, step)
    requires Holds(c, s, NoWindow(t)) && Holds(c, s, NoTx(t)) && th == s.threads[t] && ThreadOk(c, t, th)
    ensures Holds(c, s', NoTx(t))
  {
    ThreadMoves(c, s, step, s', t);
  }

  /** With empty windows a push pushes nothing. */
  lemma PushesNothing(c: Setup, s: State, t: nat, s': State)
    requires Ok(c, s) && Enabled(c, s, Push(t)) && s' == Apply(c, s, Push(t)) && Holds(c, s, NoWindow(t))
    ensures |s'.threads| == |s.threads| && Med(c, s') == Med(c, s)
    ensures |s'.rings| == |s.rings| && forall r :: 0 <= r < |s.rings| ==> s'.rings[r] == s.rings[r]
  {
    assert ThreadOk(c, t, s.threads[t]) && Window(s.threads[t]) == [];
    assert s.rings[RingOf(c, t)].pushed + [] == s.rings[RingOf(c, t)].pushed;
  }

  /** Only pushes and the mediator's drains touch the rings, only the mediator moves its program counter. */
  lemma OthersKeepRings(c: Setup, s: State, step: Step, s': State)
    requires Ok(c, s) && Enabled(c, s, step) && !MovesMediator(step) && !step.Push? && s' == Apply(c, s, step)
    ensures |s'.threads| == |s.threads| && s'.rings == s.rings
    ensures Med(c, s').pc == Med(c, s).pc || step.Recv? || step.Partition? || step.Transmit?
  {
  }

  /** The step, if it is a push, comes from a thread that has nothing to push. */
  ghost predicate PushesNone(c: Setup, s: State, step: Step) { step.Push? ==> Holds(c, s, NoWindow(step.t)) }

  lemma PendingStays(c: Setup, s: State, step: Step, s': State, r: nat)
    requires Ok(c, s) && Enabled(c, s, step) && NoArrival(step) && s' == Apply(c, s, step)
    requires PushesNone(c, s, step) && r < |s.rings| && Pending(s.rings[r]) == []
    ensures |s'.rings| == |s.rings| && Pending(s'.rings[r]) == []
  {
    if step.Push? { PushesNothing(c, s, step.t, s'); }
    else if MovesMediator(step) { MediatorKeepsEmpty(c, s, step, s', r); }
    else { OthersKeepRings(c, s, step, s'); }
  }

  lemma MediatorKeepsEmpty(c: Setup, s: State, step: Step, s': State, r: nat)
    requires Ok(c, s) && Enabled(c, s, step) && MovesMediator(step) && s' == Apply(c, s, step)
    requires r < |s.rings| && Pending(s.rings[r]) == []
    ensures |s'.rings| == |s.rings| && Pending(s'.rings[r]) == []
  {
  }

  lemma LookDrains(c: Setup, s: State, s': State, r: nat)
    requires Ok(c, s) && Enabled(c, s, Look) && s' == Apply(c, s, Look) && r < |s.rings| && Draining(c, s, r)
    ensures Ok(c, s') && Draining(c, s', r)
  {
    ApplyKeepsOk(c, s, Look);
    var q := Med(c, s).pc.ring;
    assert RingOk(c, Med(c, s).pc, q, s.rings[q]);
    if s.rings[q].Occupied() > 0 { SlicesCoverRing(c.ringCap, s.rings[q]); }
  }

  lemma ProduceDrains(c: Setup, s: State, step: Step, s': State, r: nat)
    requires Ok(c, s) && Enabled(c, s, step) && s' == Apply(c, s, step) && r < |s.rings| && Draining(c, s, r)
    requires step.ProduceFirst? || step.ProduceSecond?
    ensures Ok(c, s') && Draining(c, s', r)
  {
    ApplyKeepsOk(c, s, step);
  }

  lemma AdvanceDrains(c: Setup, s: State, s': State, r: nat)
    requires Ok(c, s) && Enabled(c, s, Advance) && s' == Apply(c, s, Advance) && r < |s.rings| && Draining(c, s, r)
    ensures Ok(c, s') && Draining(c, s', r)
  {
    ApplyKeepsOk(c, s, Advance);
    assert RingOk(c, Med(c, s).pc, r, s.rings[r]);
  }

  lemma DrainsStays(c: Setup, s: State, step: Step, s': State, r: nat)
    requires Ok(c, s) && Enabled(c, s, step) && NoArrival(step) && s' == Apply(c, s, step)
    requires PushesNone(c, s, step) && r < |s.rings| && Draining(c, s, r)
    ensures Shaped(c, s') && Draining(c, s', r)
  {
    if step.Look? { LookDrains(c, s, s', r); }
    else if step.ProduceFirst? || step.ProduceSecond? { ProduceDrains(c, s, step, s', r); }
    else if step.Advance? { AdvanceDrains(c, s, s', r); }
    else if step.Push? { PushesNothing(c, s, step.t, s'); }
    else if MovesMediator(step) { IdleMediatorDrains(c, s, step, s', r); }
    else { OthersDrain(c, s, step, s', r); }
  }

  lemma OthersDrain(c: Setup, s: State, step: Step, s': State, r: nat)
    requires Ok(c, s) && Enabled(c, s, step) && s' == Apply(c, s, step) && !MovesMediator(step) && !step.Push?
    requires r < |s.rings| && Draining(c, s, r)
    ensures Shaped(c, s') && Draining(c, s', r)
  {
    OthersKeepRings(c, s, step, s');
  }

  /** Outside its drains the mediator's steps are of no concern to a ring. */
  lemma IdleMediatorDrains(c: Setup, s: State, step: Step, s': State, r: nat)
    requires Ok(c, s) && Enabled(c, s, step) && s' == Apply(c, s, step) && (step.Reap? || step.Refill? || step.Wrap?)
    requires r < |s.rings| && Draining(c, s, r)
    ensures Shaped(c, s') && Draining(c, s', r)
  {
  }

  lemma SendingStays(c: Setup, s: State, step: Step, s': State)
    requires Enabled(c, s, step) && s' == Apply(c, s, step)
    requires s.sending == multiset{} && (step.KSend? ==> Holds(c, s, NoTx(step.t)))
    ensures Shaped(c, s') && s'.sending == multiset{}
  {
  }

  lemma CompletesNothing(c: Setup, s: State, step: Step)
    requires Enabled(c, s, step) && step.KComplete? && s.sending == multiset{}
    ensures step.ds == []
  {
    assert |multiset(step.ds)| == 0;
  }

  lemma CompletionsStay(c: Setup, s: State, step: Step, s': State)
    requires Enabled(c, s, step) && s' == Apply(c, s, step)
    requires s.cq == [] && (step.KComplete? ==> step.ds == [])
    ensures Shaped(c, s') && s'.cq == []
  {
  }

  lemma ReapsNothing(c: Setup, s: State, step: Step)
    requires Enabled(c, s, step) && step.Reap? && s.cq == []
    ensures step.k == 0
  {
  }

  lemma RefillStays(c: Setup, s: State, step: Step, s': State, t: nat, th: Thread)
    requires Enabled(c, s, step) && NoArrival(step) && s' == Apply(c, s, step)
    requires Holds(c, s, NoWindow(t)) && s.cq == [] && Holds(c, s, NoRefill(t))
    requires th == s.threads[t] && ThreadOk(c, t, th)
    ensures Holds(c, s', NoRefill(t))
  {
    ThreadMoves(c, s, step, s', t);
    if step.Reap? { ReapsNothing(c, s, step); }
  }

  ghost predicate IsGoal(c: Setup, g: Goal) {
    match g
    case NoRx(t) => t < NumThreads(c)
    case NoWindow(t) => t < NumThreads(c)
    case NoTx(t) => t < NumThreads(c)
    case Drains(r) => r < NumRings(c)
    case NoPending(r) => r < NumRings(c)
    case NoRefill(t) => t < NumThreads(c)
    case _ => true
  }

  lemma RingGoalStays(c: Setup, s: State, step: Step, s': State, g: Goal)
    requires Ok(c, s) && Enabled(c, s, step) && NoArrival(step) && s' == Apply(c, s, step)
    requires (g.Drains? || g.NoPending?) && IsGoal(c, g) && Stage(c, s, 2) && Holds(c, s, g)
    ensures Holds(c, s', g)
  {
    assert PushesNone(c, s, step);
    if g.Drains? {
      DrainsStays(c, s, step, s', g.r);
    } else {
      RingsStay(c, s, step, s');
      PendingStays(c, s, step, s', g.r);
    }
  }

  lemma RingsStay(c: Setup, s: State, step: Step, s': State)
    requires Ok(c, s) && Enabled(c, s, step) && s' == Apply(c, s, step)
    ensures Shaped(c, s')
  {
    ApplyKeepsOk(c, s, step);
  }

  lemma KernelGoalStays(c: Setup, s: State, step: Step, s': State, g: Goal)
    requires Enabled(c, s, step) && s' == Apply(c, s, step)
    requires (g.NothingSent? && Stage(c, s, 3)) || (g.NothingCompleted? && Stage(c, s, 4))
    requires Holds(c, s, g)
    ensures Holds(c, s', g)
  {
    if g.NothingSent? {
      SendingStays(c, s, step, s');
    } else {
      if step.KComplete? { CompletesNothing(c, s, step); }
      CompletionsStay(c, s, step, s');
    }
  }

  /** A goal reached after the rounds before it stays reached without arrivals. */
  lemma GoalStays(c: Setup, s: State, step: Step, s': State, g: Goal)
    requires Ok(c, s) && Enabled(c, s, step) && NoArrival(step) && s' == Apply(c, s, step)
    requires IsGoal(c, g) && Stage(c, s, RoundOf(g) - 1) && Holds(c, s, g)
    ensures Holds(c, s', g)
  {
    match g
    case NoRx(t) => RxStays(c, s, step, s', t);
    case NoWindow(t) => WindowStays(c, s, step, s', t);
    case NoTx(t) => TxStays(c, s, step, s', t, s.threads[t]);
    case Drains(_) => RingGoalStays(c, s, step, s', g);
    case NoPending(_) => RingGoalStays(c, s, step, s', g);
    case NothingSent => KernelGoalStays(c, s, step, s', g);
    case NothingCompleted => KernelGoalStays(c, s, step, s', g);
    case NoRefill(t) => RefillStays(c, s, step, s', t, s.threads[t]);
  }

  /** A stage is its goals. */
  lemma StageIs(c: Setup, s: State, n: nat)
    requires forall g :: IsGoal(c, g) && !g.Drains? && RoundOf(g) <= n ==> Holds(c, s, g)
    ensures Stage(c, s, n)
  {
  }

  lemma StageGives(c: Setup, s: State, n: nat, g: Goal)
    requires Stage(c, s, n) && IsGoal(c, g) && !g.Drains? && RoundOf(g) <= n
    ensures Holds(c, s, g) && Stage(c, s, RoundOf(g) - 1)
  {
  }

  lemma StageStays(c: Setup, s: State, step: Step, s': State, n: nat)
    requires Ok(c, s) && Enabled(c, s, step) && NoArrival(step) && s' == Apply(c, s, step)
    requires Stage(c, s, n)
    ensures Stage(c, s', n)
  {
    forall g | IsGoal(c, g) && !g.Drains? && RoundOf(g) <= n
      ensures Holds(c, s', g)
    {
      StageGives(c, s, n, g);
      GoalStays(c, s, step, s', g);
    }
    StageIs(c, s', n);
  }

  // ---- Through a whole run ----------------------------------------------------------

  /** What the states of a calm run have in common. */
  ghost predicate Along(c: Setup, x: State, n: nat) { Steady(c, x) && Stage(c, x, n) }

  lemma StageStep(c: Setup, sch: Schedule, x: State, step: Step, y: State, n: nat)
    requires Goes(c, sch, x, step, y) && Along(c, x, n)
    ensures Along(c, y, n)
  {
    StageStays(c, x, step, y, n);
    StepKeepsSteady(c, x, step, y);
  }

  lemma {:induction false} StageLasts(c: Setup, sch: Schedule, p: Stretch, n: nat, i: nat)
    requires Walks(c, sch, p) && Along(c, p.states[0], n) && i <= |p.steps|
    ensures Along(c, p.states[i], n)
  {
    if i > 0 {
      var k := i - 1;
      StageLasts(c, sch, p, n, k);
      assert Goes(c, sch, p.states[k], p.steps[k], p.states[k + 1]);
      StageStep(c, sch, p.states[k], p.steps[k], p.states[i], n);
    }
  }

  lemma GoalStep(c: Setup, sch: Schedule, x: State, step: Step, y: State, g: Goal, n: nat)
    requires Goes(c, sch, x, step, y) && n + 1 == RoundOf(g) && Along(c, x, n) && IsGoal(c, g) && Holds(c, x, g)
    ensures Holds(c, y, g)
  {
    GoalStays(c, x, step, y, g);
  }

  lemma {:induction false} GoalLasts(c: Setup, sch: Schedule, p: Stretch, g: Goal, i: nat, j: nat)
    requires Walks(c, sch, p) && i <= j <= |p.steps|
    requires IsGoal(c, g) && Along(c, p.states[0], RoundOf(g) - 1) && Holds(c, p.states[i], g)
    ensures Holds(c, p.states[j], g)
    decreases j - i
  {
    if i < j {
      var k, n := j - 1, RoundOf(g) - 1;
      GoalLasts(c, sch, p, g, i, k);
      StageLasts(c, sch, p, n, k);
      assert Goes(c, sch, p.states[k], p.steps[k], p.states[k + 1]);
      GoalStep(c, sch, p.states[k], p.steps[k], p.states[j], g, n);
    }
  }

  // ---- One round reaches the next stage ----------------------------------------------

  lemma RxFits(c: Setup, s: State, t: nat)
    requires Conserved(c, s) && t < |s.threads|
    ensures |s.threads[t].rx| <= c.frames
  {
    forall d: Frame
      ensures Occ(s.threads[t].rx, d) <= if d < c.frames then 1 else 0
    {
      ThreadWithinSum(s.threads, t, d);
      assert Total(s, d) == if d < c.frames then 1 else 0;
    }
    OnceEachFits(s.threads[t].rx, c.frames);
  }

  lemma CqFits(c: Setup, s: State)
    requires Conserved(c, s)
    ensures |s.cq| <= c.frames
  {
    forall d: Frame
      ensures Occ(s.cq, d) <= if d < c.frames then 1 else 0
    {
      assert Total(s, d) == if d < c.frames then 1 else 0;
    }
    OnceEachFits(s.cq, c.frames);
  }

  function GoalOf(duty: Duty): Goal {
    match duty
    case Receive(t) => NoRx(t)
    case Send(t) => NoTx(t)
    case Complete => NothingSent
    case Collect => NothingCompleted
  }

  /** Reading a queue as far as it goes empties it. */
  lemma DutyDone(c: Setup, s: State, step: Step, s': State, duty: Duty, g: Goal)
    requires Steady(c, s) && Stage(c, s, RoundOf(g) - 1) && Enabled(c, s, step) && s' == Apply(c, s, step)
    requires Does(c, s, step, duty)
    requires g == GoalOf(duty)
    ensures Holds(c, s', g)
  {
    match duty
    case Receive(t) =>
      assert ThreadOk(c, t, s.threads[t]);
      RxFits(c, s, t);
    case Send(_) =>
    case Complete =>
    case Collect =>
      assert ThreadOk(c, Mediator(c), Med(c, s)) && Holds(c, s, NoWindow(Mediator(c)));
      CqFits(c, s);
  }

  lemma DutyReaches(c: Setup, sch: Schedule, p: Stretch, duty: Duty, g: Goal)
    requires Walks(c, sch, p) && DoneOnce(c, p, duty)
    requires IsGoal(c, g) && Along(c, p.states[0], RoundOf(g) - 1)
    requires g == GoalOf(duty)
    ensures Holds(c, p.states[|p.steps|], g)
  {
    var i: nat :| DoneAt(c, p, duty, i);
    DutyReachedAt(c, sch, p, duty, g, i, i + 1);
    GoalLasts(c, sch, p, g, i + 1, |p.steps|);
  }

  lemma DutyReachedAt(c: Setup, sch: Schedule, p: Stretch, duty: Duty, g: Goal, i: nat, next: nat)
    requires Walks(c, sch, p) && DoneAt(c, p, duty, i) && next == i + 1
    requires IsGoal(c, g) && Along(c, p.states[0], RoundOf(g) - 1) && g == GoalOf(duty)
    ensures Holds(c, p.states[next], g)
  {
    StageLasts(c, sch, p, RoundOf(g) - 1, i);
    assert Goes(c, sch, p.states[i], p.steps[i], p.states[i + 1]);
    DutyDone(c, p.states[i], p.steps[i], p.states[next], duty, g);
  }

  /** At the head of its loop a thread holds nothing. */
  lemma HeadReaches(c: Setup, sch: Schedule, p: Stretch, t: nat, g: Goal)
    requires Walks(c, sch, p) && HeadOnce(c, p, t)
    requires g == NoWindow(t) || g == NoRefill(t)
    requires IsGoal(c, g) && Along(c, p.states[0], RoundOf(g) - 1)
    ensures Holds(c, p.states[|p.steps|], g)
  {
    var i: nat :| HeadAt(c, p, t, i);
    StageLasts(c, sch, p, RoundOf(g) - 1, i);
    GoalLasts(c, sch, p, g, i, |p.steps|);
  }

  /** A visited ring ends up empty. */
  lemma VisitReaches(c: Setup, sch: Schedule, p: Stretch, r: nat)
    requires Walks(c, sch, p) && VisitedOnce(c, p, r)
    requires r < NumRings(c) && Along(c, p.states[0], 2)
    ensures Holds(c, p.states[|p.steps|], NoPending(r))
  {
    var i: nat, j: nat :| VisitedFrom(c, p, r, i, j);
    StageLasts(c, sch, p, 2, i);
    GoalLasts(c, sch, p, Drains(r), i, j);
    GoalLasts(c, sch, p, NoPending(r), j, |p.steps|);
  }

  lemma RoundReaches(c: Setup, sch: Schedule, p: Stretch, g: Goal)
    requires Walks(c, sch, p) && FullRound(c, p)
    requires IsGoal(c, g) && !g.Drains? && Along(c, p.states[0], RoundOf(g) - 1)
    ensures Holds(c, p.states[|p.steps|], g)
  {
    match g
    case NoRx(t) => WorkersReceive(c, sch, p, t);
    case NoWindow(t) => HeadReaches(c, sch, p, t, g);
    case NoTx(t) => WorkersSend(c, sch, p, t);
    case NoPending(r) => VisitReaches(c, sch, p, r);
    case NothingSent =>
      assert DoneOnce(c, p, Complete);
      DutyReaches(c, sch, p, Complete, g);
    case NothingCompleted =>
      assert DoneOnce(c, p, Collect);
      DutyReaches(c, sch, p, Collect, g);
    case NoRefill(t) => HeadReaches(c, sch, p, t, g);
  }

  /** The extra thread has no queues of its own. */
  lemma NoQueues(c: Setup, sch: Schedule, p: Stretch, t: nat)
    requires Walks(c, sch, p) && Steady(c, p.states[0]) && t < NumThreads(c) && !IsWorker(c, t)
    ensures Holds(c, p.states[|p.steps|], NoRx(t)) && Holds(c, p.states[|p.steps|], NoTx(t))
  {
    StageLasts(c, sch, p, 0, |p.steps|);
    assert ThreadOk(c, t, p.states[|p.steps|].threads[t]);
  }

  lemma WorkersReceive(c: Setup, sch: Schedule, p: Stretch, t: nat)
    requires Walks(c, sch, p) && FullRound(c, p)
    requires t < NumThreads(c) && Along(c, p.states[0], 0)
    ensures Holds(c, p.states[|p.steps|], NoRx(t))
  {
    if IsWorker(c, t) {
      assert IsDuty(c, Receive(t));
      DutyReaches(c, sch, p, Receive(t), NoRx(t));
    } else {
      NoQueues(c, sch, p, t);
    }
  }

  lemma WorkersSend(c: Setup, sch: Schedule, p: Stretch, t: nat)
    requires Walks(c, sch, p) && FullRound(c, p)
    requires t < NumThreads(c) && Along(c, p.states[0], 2)
    ensures Holds(c, p.states[|p.steps|], NoTx(t))
  {
    if IsWorker(c, t) {
      assert IsDuty(c, Send(t));
      DutyReaches(c, sch, p, Send(t), NoTx(t));
    } else {
      NoQueues(c, sch, p, t);
    }
  }

  lemma RoundAdvances(c: Setup, sch: Schedule, p: Stretch, n: nat)
    requires Walks(c, sch, p) && FullRound(c, p) && Along(c, p.states[0], n)
    ensures Along(c, p.states[|p.steps|], n + 1)
  {
    var s' := p.states[|p.steps|];
    StageLasts(c, sch, p, n, |p.steps|);
    forall g | IsGoal(c, g) && !g.Drains? && RoundOf(g) <= n + 1
      ensures Holds(c, s', g)
    {
      if RoundOf(g) <= n {
        StageGives(c, s', n, g);
      } else {
        RoundReaches(c, sch, p, g);
      }
    }
    StageIs(c, s', n + 1);
  }

  // ---- Main results -----------------------------------------------------------------

  /** The stretch `p` is a full round from `x` to `y`. */
  ghost predicate Round(c: Setup, sch: Schedule, p: Stretch, x: State, y: State) {
    Between(c, sch, p, x, y) && FullRound(c, p)
  }

  /** `s'` follows from `s` by `n` full rounds without arrivals. */
  ghost predicate AfterRounds(c: Setup, sch: Schedule, s: State, n: nat, s': State) {
    if n == 0 then s' == s
    else exists x, p :: AfterRounds(c, sch, s, n - 1, x) && Round(c, sch, p, x, s')
  }

  lemma OneRoundOn(c: Setup, sch: Schedule, p: Stretch, x: State, n: nat, next: nat, y: State)
    requires Along(c, x, n) && Round(c, sch, p, x, y) && next == n + 1
    ensures Along(c, y, next)
    ensures Roomy(c, sch) ==> y.lost == x.lost
  {
    RoundAdvances(c, sch, p, n);
    StretchRuns(c, sch, p, x, |p.steps|);
    RunLosesNothing(c, sch, x, p.steps[..|p.steps|]);
  }

  lemma {:induction false} RoundsAdvance(c: Setup, sch: Schedule, s: State, n: nat, s': State)
    requires Steady(c, s) && AfterRounds(c, sch, s, n, s')
    ensures Along(c, s', n)
    ensures Roomy(c, sch) ==> s'.lost == s.lost
  {
    if n > 0 {
      var x, p :| AfterRounds(c, sch, s, n - 1, x) && Round(c, sch, p, x, s');
      RoundsAdvance(c, sch, s, n - 1, x);
      OneRoundOn(c, sch, p, x, n - 1, n, s');
    }
  }

  lemma LastStageIsHome(c: Setup, s: State)
    requires Along(c, s, 6)
    ensures NothingOut(s)
  {
    forall t: nat | t < |s.threads|
      ensures s.threads[t].rx == [] && s.threads[t].tx == [] && Window(s.threads[t]) == []
    {
      assert ThreadOk(c, t, s.threads[t]);
      assert Holds(c, s, NoRx(t)) && Holds(c, s, NoTx(t)) && Holds(c, s, NoWindow(t)) && Holds(c, s, NoRefill(t));
    }
    forall r: nat | r < |s.rings|
      ensures Pending(s.rings[r]) == []
    {
      assert Holds(c, s, NoPending(r));
    }
  }

  /** From every reachable state, six or more full rounds without arrivals leave nothing out,
      however their steps interleave: every frame that was not lost is with the kernel's receive
      side, and with enough room for the schedule none is lost on the way. */
  lemma SixRoundsBringAllHome(c: Setup, before: Schedule, sch: Schedule, s: State, n: nat, s': State)
    requires Reachable(c, before, s) && AfterRounds(c, sch, s, n, s') && n >= 6
    ensures NothingOut(s') && AllHome(c, s')
    ensures Roomy(c, sch) ==> s'.lost == s.lost
  {
    ReachableIsSteady(c, before, s);
    RoundsAdvance(c, sch, s, n, s');
    LastStageIsHome(c, s');
    NothingOutIsHome(c, s');
  }
}
