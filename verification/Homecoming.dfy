/**
  Full rounds without arrivals can always be run, so every reachable state has a way home.
*/
module Homecoming {
  import opened Basics
  import opened FrameProtocol
  import opened Ownership
  import opened Capacity
  import opened Recovery
  import opened Rounds

  // ---- One thread on its way to the head of its loop -------------------------------

  /** The next step a thread takes when nothing arrives and it keeps nothing for sending. */
  function NextStep(c: Setup, t: nat, th: Thread): Step {
    match th.pc
    case Idle => Recv(t, 0)
    case Received(_) => Partition(t, th.scratch, 0)
    case Partitioned(_, _) => Transmit(t)
    case Sent(_, _) => if t == Mediator(c) then Reap(0) else Push(t)
    case Completed(_, _) => Refill
    case Drain(r) => if r < NumRings(c) then Look else Wrap
    case Sliced(_, _, _) => ProduceFirst
    case HalfProduced(_, _, _) => ProduceSecond
    case Produced(_, _, _) => Advance
  }

  /** Distance to the head of the loop. */
  function Rank(c: Setup, pc: Pc): int {
    var n := 5 * NumRings(c);
    match pc
    case Idle => 0
    case Received(_) => n + 5
    case Partitioned(_, _) => n + 4
    case Sent(_, _) => n + 3
    case Completed(_, _) => n + 2
    case Drain(r) => n - 5 * r + 1
    case Sliced(r, _, _) => n - 5 * r
    case HalfProduced(r, _, _) => n - 5 * r - 1
    case Produced(r, _, _) => n - 5 * r - 2
  }

  lemma NextStepRuns(c: Setup, s: State, t: nat, th: Thread)
    requires Ok(c, s) && t < |s.threads| && th == s.threads[t] && !AtHead(c, t, th.pc)
    ensures Enabled(c, s, NextStep(c, t, th))
    ensures NoArrival(NextStep(c, t, th)) && !IsKernel(NextStep(c, t, th))
  {
    assert ThreadOk(c, t, th);
  }

  lemma WorkerCloser(c: Setup, s: State, t: nat, th: Thread, step: Step, s': State)
    requires t < |s.threads| && th == s.threads[t] && step == NextStep(c, t, th)
    requires th.pc.Received? || th.pc.Partitioned?
    requires Enabled(c, s, step) && s' == Apply(c, s, step)
    ensures t < |s'.threads| && Rank(c, s'.threads[t].pc) < Rank(c, th.pc)
  {
  }

  lemma PassCloser(c: Setup, s: State, t: nat, th: Thread, step: Step, s': State)
    requires t < |s.threads| && th == s.threads[t] && step == NextStep(c, t, th)
    requires th.pc.Sent? || (th.pc.Completed? && t == Mediator(c))
    requires Enabled(c, s, step) && s' == Apply(c, s, step)
    ensures t < |s'.threads| && Rank(c, s'.threads[t].pc) < Rank(c, th.pc)
  {
  }

  lemma LookCloser(c: Setup, s: State, t: nat, pc: Pc, s': State)
    requires t < |s.threads| && pc == s.threads[t].pc && t == Mediator(c)
    requires Enabled(c, s, Look) && s' == Apply(c, s, Look)
    ensures t < |s'.threads| && Rank(c, s'.threads[t].pc) < Rank(c, pc)
  {
  }

  lemma WrapCloser(c: Setup, s: State, t: nat, pc: Pc, s': State)
    requires t < |s.threads| && pc == s.threads[t].pc && t == Mediator(c)
    requires Enabled(c, s, Wrap) && s' == Apply(c, s, Wrap)
    ensures t < |s'.threads| && Rank(c, s'.threads[t].pc) < Rank(c, pc)
  {
    assert s'.threads[t].pc == Idle;
  }

  lemma FirstCloser(c: Setup, s: State, t: nat, pc: Pc, s': State)
    requires t < |s.threads| && pc == s.threads[t].pc && t == Mediator(c)
    requires Enabled(c, s, ProduceFirst) && s' == Apply(c, s, ProduceFirst)
    ensures t < |s'.threads| && Rank(c, s'.threads[t].pc) < Rank(c, pc)
  {
    assert s'.threads[t].pc == HalfProduced(pc.ring, pc.n1, pc.n2);
  }

  lemma SecondCloser(c: Setup, s: State, t: nat, pc: Pc, s': State)
    requires t < |s.threads| && pc == s.threads[t].pc && t == Mediator(c)
    requires Enabled(c, s, ProduceSecond) && s' == Apply(c, s, ProduceSecond)
    ensures t < |s'.threads| && Rank(c, s'.threads[t].pc) < Rank(c, pc)
  {
    assert s'.threads[t].pc == Produced(pc.ring, pc.n1, pc.n2);
  }

  lemma AdvanceCloser(c: Setup, s: State, t: nat, pc: Pc, s': State)
    requires t < |s.threads| && pc == s.threads[t].pc && t == Mediator(c)
    requires Enabled(c, s, Advance) && s' == Apply(c, s, Advance)
    ensures t < |s'.threads| && Rank(c, s'.threads[t].pc) < Rank(c, pc)
  {
    assert s'.threads[t].pc == Drain(pc.ring + 1);
  }

  lemma NextStepCloser(c: Setup, s: State, t: nat, th: Thread, s': State)
    requires Ok(c, s) && t < |s.threads| && th == s.threads[t] && !AtHead(c, t, th.pc)
    requires Enabled(c, s, NextStep(c, t, th)) && s' == Apply(c, s, NextStep(c, t, th))
    ensures t < |s'.threads| && Rank(c, s'.threads[t].pc) < Rank(c, th.pc)
  {
    assert ThreadOk(c, t, th);
    match th.pc
    case Drain(r) =>
      if r < NumRings(c) { LookCloser(c, s, t, th.pc, s'); } else { WrapCloser(c, s, t, th.pc, s'); }
    case Sliced(_, _, _) => FirstCloser(c, s, t, th.pc, s');
    case HalfProduced(_, _, _) => SecondCloser(c, s, t, th.pc, s');
    case Produced(_, _, _) => AdvanceCloser(c, s, t, th.pc, s');
    case Sent(_, _) => PassCloser(c, s, t, th, NextStep(c, t, th), s');
    case Completed(_, _) => PassCloser(c, s, t, th, NextStep(c, t, th), s');
    case _ => WorkerCloser(c, s, t, th, NextStep(c, t, th), s');
  }

  lemma RankNonNegative(c: Setup, t: nat, th: Thread)
    requires ThreadOk(c, t, th)
    ensures Rank(c, th.pc) >= 0
  {
  }

  // ---- Building a round step by step --------------------------------------------------

  /** The stretch `p` from `s` leads to the steady state `x`. */
  ghost predicate Log(c: Setup, sch: Schedule, s: State, p: Stretch, x: State) {
    Between(c, sch, p, s, x) && Steady(c, x)
  }

  predicate Extends(p: Stretch, q: Stretch) {
    && |p.steps| <= |q.steps| && |p.states| <= |q.states|
    && (forall i :: 0 <= i < |p.steps| ==> q.steps[i] == p.steps[i])
    && (forall i :: 0 <= i < |p.states| ==> q.states[i] == p.states[i])
  }

  lemma ExtendsOn(p: Stretch, q: Stretch, r: Stretch)
    requires Extends(p, q) && Extends(q, r)
    ensures Extends(p, r)
  {
  }

  lemma Take(c: Setup, sch: Schedule, s: State, p: Stretch, x: State, step: Step) returns (q: Stretch, y: State)
    requires Log(c, sch, s, p, x) && Allowed(c, sch, x, step) && NoArrival(step)
    ensures q == Stretch(p.states + [y], p.steps + [step]) && y == Apply(c, x, step)
    ensures Log(c, sch, s, q, y) && Extends(p, q)
  {
    y := Apply(c, x, step);
    q := Stretch(p.states + [y], p.steps + [step]);
    StepKeepsSteady(c, x, step, y);
    forall i | 0 <= i < |q.steps|
      ensures Goes(c, sch, q.states[i], q.steps[i], q.states[i + 1])
    {
      if i < |p.steps| { assert Goes(c, sch, p.states[i], p.steps[i], p.states[i + 1]); }
    }
  }

  lemma DutyKept(c: Setup, p: Stretch, q: Stretch, duty: Duty)
    requires Extends(p, q) && DoneOnce(c, p, duty)
    ensures DoneOnce(c, q, duty)
  {
    var i: nat :| DoneAt(c, p, duty, i);
    assert DoneAt(c, q, duty, i);
  }

  lemma HeadKept(c: Setup, p: Stretch, q: Stretch, t: nat)
    requires Extends(p, q) && HeadOnce(c, p, t)
    ensures HeadOnce(c, q, t)
  {
    var i: nat :| HeadAt(c, p, t, i);
    assert HeadAt(c, q, t, i);
  }

  lemma VisitKept(c: Setup, p: Stretch, q: Stretch, r: nat)
    requires Extends(p, q) && VisitedOnce(c, p, r)
    ensures VisitedOnce(c, q, r)
  {
    var i: nat, j: nat :| VisitedFrom(c, p, r, i, j);
    assert VisitedFrom(c, q, r, i, j);
  }

  lemma TakeDuty(c: Setup, sch: Schedule, s: State, p: Stretch, x: State, step: Step, duty: Duty)
    returns (q: Stretch, y: State)
    requires Log(c, sch, s, p, x) && Allowed(c, sch, x, step) && NoArrival(step) && Does(c, x, step, duty)
    ensures y == Apply(c, x, step) && Log(c, sch, s, q, y) && Extends(p, q) && DoneOnce(c, q, duty)
  {
    q, y := Take(c, sch, s, p, x, step);
    assert DoneAt(c, q, duty, |p.steps|);
  }

  lemma HeadNow(c: Setup, sch: Schedule, s: State, p: Stretch, x: State, t: nat)
    requires Log(c, sch, s, p, x) && t < |x.threads| && AtHead(c, t, x.threads[t].pc)
    ensures HeadOnce(c, p, t)
  {
    assert HeadAt(c, p, t, |p.steps|);
  }

  // ---- Every thread comes to its head ---------------------------------------------------

  lemma NextStepAllowed(c: Setup, sch: Schedule, s: State, t: nat, th: Thread)
    requires Ok(c, s) && t < |s.threads| && th == s.threads[t] && !AtHead(c, t, th.pc)
    requires t == Mediator(c) || Quiet(c, sch, s)
    ensures Allowed(c, sch, s, NextStep(c, t, th))
    ensures t != Mediator(c) ==> var s' := Apply(c, s, NextStep(c, t, th));
      |s'.threads| == |s.threads| && |s'.rings| == |s.rings| && Med(c, s') == Med(c, s)
  {
    NextStepRuns(c, s, t, th);
    assert ThreadOk(c, t, th);
  }

  /** Thread `t` alone runs to the head of its loop. */
  lemma {:induction false} ToHead(c: Setup, sch: Schedule, s: State, p: Stretch, x: State, t: nat)
    returns (q: Stretch, y: State)
    requires Log(c, sch, s, p, x) && t < |x.threads| && (t == Mediator(c) || Quiet(c, sch, x))
    ensures Log(c, sch, s, q, y) && Extends(p, q)
    ensures AtHead(c, t, y.threads[t].pc) && HeadOnce(c, q, t) && Quiet(c, sch, y)
    ensures t != Mediator(c) ==> Med(c, y) == Med(c, x)
    decreases Rank(c, x.threads[t].pc) + 3
  {
    var th := x.threads[t];
    assert ThreadOk(c, t, th);
    RankNonNegative(c, t, th);
    if AtHead(c, t, th.pc) {
      q, y := p, x;
      HeadNow(c, sch, s, p, x, t);
    } else {
      NextStepRuns(c, x, t, th);
      NextStepAllowed(c, sch, x, t, th);
      var p1, x1 := Take(c, sch, s, p, x, NextStep(c, t, th));
      NextStepCloser(c, x, t, th, x1);
      q, y := ToHead(c, sch, s, p1, x1, t);
      ExtendsOn(p, p1, q);
    }
  }

  /** What a worker has to do in a round. */
  ghost predicate Served(c: Setup, p: Stretch, t: nat) {
    HeadOnce(c, p, t) && DoneOnce(c, p, Receive(t)) && DoneOnce(c, p, Send(t))
  }

  lemma ServedKept(c: Setup, p: Stretch, q: Stretch, t: nat)
    requires Extends(p, q) && Served(c, p, t)
    ensures Served(c, q, t)
  {
    HeadKept(c, p, q, t);
    DutyKept(c, p, q, Receive(t));
    DutyKept(c, p, q, Send(t));
  }

  lemma ReceiveAll(c: Setup, sch: Schedule, s: State, p: Stretch, x: State, t: nat) returns (q: Stretch, y: State)
    requires Log(c, sch, s, p, x) && Quiet(c, sch, x) && IsWorker(c, t) && x.threads[t].pc == Idle
    ensures Log(c, sch, s, q, y) && Extends(p, q) && DoneOnce(c, q, Receive(t)) && Quiet(c, sch, y)
    ensures y.threads[t].pc.Received? && (t != Mediator(c) ==> Med(c, y) == Med(c, x))
  {
    var k := Min(|x.threads[t].rx|, |x.threads[t].scratch|);
    q, y := TakeDuty(c, sch, s, p, x, Recv(t, k), Receive(t));
  }

  lemma SendAll(c: Setup, sch: Schedule, s: State, p: Stretch, x: State, t: nat) returns (q: Stretch, y: State)
    requires Log(c, sch, s, p, x) && Quiet(c, sch, x) && IsWorker(c, t)
    ensures Log(c, sch, s, q, y) && Extends(p, q) && DoneOnce(c, q, Send(t)) && Quiet(c, sch, y)
    ensures y.threads[t].pc == x.threads[t].pc && (t != Mediator(c) ==> Med(c, y) == Med(c, x))
  {
    q, y := TakeDuty(c, sch, s, p, x, KSend(t, |x.threads[t].tx|), Send(t));
  }

  /** At its head worker `t` receives all it can, and the kernel sends all of its tx queue. */
  lemma ReceiveAndSendAll(c: Setup, sch: Schedule, s: State, p: Stretch, x: State, t: nat)
    returns (q: Stretch, y: State)
    requires Log(c, sch, s, p, x) && Quiet(c, sch, x) && IsWorker(c, t) && x.threads[t].pc == Idle
    requires HeadOnce(c, p, t)
    ensures Log(c, sch, s, q, y) && Extends(p, q) && Served(c, q, t) && Quiet(c, sch, y)
    ensures y.threads[t].pc.Received? && (t != Mediator(c) ==> Med(c, y) == Med(c, x))
  {
    var p1, x1 := ReceiveAll(c, sch, s, p, x, t);
    q, y := SendAll(c, sch, s, p1, x1, t);
    ExtendsOn(p, p1, q);
    DutyKept(c, p1, q, Receive(t));
    HeadKept(c, p, q, t);
  }

  ghost predicate RemotesServed(c: Setup, p: Stretch, u: nat) {
    forall t: nat :: t < u && IsRemote(c, t) ==> Served(c, p, t)
  }

  lemma RemotesKept(c: Setup, p: Stretch, q: Stretch, u: nat)
    requires Extends(p, q) && RemotesServed(c, p, u)
    ensures RemotesServed(c, q, u)
  {
    forall t: nat | t < u && IsRemote(c, t)
      ensures Served(c, q, t)
    {
      ServedKept(c, p, q, t);
    }
  }

  /** Serves worker `t`, if it is remote. */
  lemma ServeRemote(c: Setup, sch: Schedule, s: State, p: Stretch, x: State, t: nat) returns (q: Stretch, y: State)
    requires Log(c, sch, s, p, x) && Quiet(c, sch, x) && t < c.workers
    ensures Log(c, sch, s, q, y) && Extends(p, q) && (IsRemote(c, t) ==> Served(c, q, t))
    ensures Quiet(c, sch, y) && Med(c, y) == Med(c, x)
  {
    q, y := p, x;
    if IsRemote(c, t) {
      var p1, x1 := ToHead(c, sch, s, p, x, t);
      q, y := ReceiveAndSendAll(c, sch, s, p1, x1, t);
      ExtendsOn(p, p1, q);
    }
  }

  lemma {:induction false} ServeRemotes(c: Setup, sch: Schedule, s: State, p: Stretch, x: State, u: nat)
    returns (q: Stretch, y: State)
    requires Log(c, sch, s, p, x) && Quiet(c, sch, x) && u <= c.workers
    ensures Log(c, sch, s, q, y) && Extends(p, q) && RemotesServed(c, q, u)
    ensures Quiet(c, sch, y) && Med(c, y) == Med(c, x)
  {
    if u == 0 {
      q, y := p, x;
    } else {
      var p1, x1 := ServeRemotes(c, sch, s, p, x, u - 1);
      q, y := ServeRemote(c, sch, s, p1, x1, u - 1);
      ExtendsOn(p, p1, q);
      RemotesKept(c, p1, q, u - 1);
    }
  }

  lemma {:induction false} Listed(m: multiset<Frame>) returns (ds: seq<Frame>)
    ensures multiset(ds) == m
    decreases |m|
  {
    if m == multiset{} {
      ds := [];
    } else {
      var d :| d in m;
      var rest := Listed(m - multiset{d});
      ds := rest + [d];
    }
  }

  lemma CompleteAll(c: Setup, sch: Schedule, s: State, p: Stretch, x: State) returns (q: Stretch, y: State)
    requires Log(c, sch, s, p, x) && Quiet(c, sch, x)
    ensures Log(c, sch, s, q, y) && Extends(p, q) && DoneOnce(c, q, Complete)
    ensures Quiet(c, sch, y) && Med(c, y) == Med(c, x)
  {
    var ds := Listed(x.sending);
    q, y := TakeDuty(c, sch, s, p, x, KComplete(ds), Complete);
  }

  // ---- The mediator's pass ---------------------------------------------------------------

  lemma CollectAll(c: Setup, sch: Schedule, s: State, p: Stretch, x: State) returns (q: Stretch, y: State)
    requires Log(c, sch, s, p, x)
    requires if c.mode.FirstThread? then Med(c, x).pc.Sent? else Med(c, x).pc == Drain(NumRings(c))
    ensures Log(c, sch, s, q, y) && Extends(p, q) && DoneOnce(c, q, Collect) && Med(c, y).pc.Completed?
  {
    assert ThreadOk(c, Mediator(c), Med(c, x));
    var at := if c.mode.FirstThread? then Med(c, x).pc.recvd else 0;
    var m := Min(|x.cq|, |Med(c, x).scratch| - at);
    q, y := TakeDuty(c, sch, s, p, x, Reap(m), Collect);
  }

  lemma CollectAndRefill(c: Setup, sch: Schedule, s: State, p: Stretch, x: State) returns (q: Stretch, y: State)
    requires Log(c, sch, s, p, x)
    requires if c.mode.FirstThread? then Med(c, x).pc.Sent? else Med(c, x).pc == Drain(NumRings(c))
    ensures Log(c, sch, s, q, y) && Extends(p, q) && DoneOnce(c, q, Collect)
    ensures Med(c, y).pc == AfterRefill(c)
  {
    var p1, x1 := CollectAll(c, sch, s, p, x);
    q, y := Take(c, sch, s, p1, x1, Refill);
    ExtendsOn(p, p1, q);
    DutyKept(c, p1, q, Collect);
  }

  /** A mediating worker passes on what it received, then collects. */
  lemma PassOnAndCollect(c: Setup, sch: Schedule, s: State, p: Stretch, x: State, m: nat)
    returns (q: Stretch, y: State)
    requires Log(c, sch, s, p, x) && c.mode.FirstThread? && m == Mediator(c) && x.threads[m].pc.Received?
    ensures Log(c, sch, s, q, y) && Extends(p, q) && DoneOnce(c, q, Collect)
    ensures Med(c, y).pc == AfterRefill(c)
  {
    assert ThreadOk(c, m, x.threads[m]);
    var p1, x1 := Take(c, sch, s, p, x, Partition(m, x.threads[m].scratch, 0));
    var p2, x2 := Take(c, sch, s, p1, x1, Transmit(m));
    q, y := CollectAndRefill(c, sch, s, p2, x2);
    ExtendsOn(p1, p2, q);
    ExtendsOn(p, p1, q);
  }

  predicate InVisit(pc: Pc, r: nat) {
    match pc
    case Drain(i) => i == r
    case Sliced(i, _, _) => i == r
    case HalfProduced(i, _, _) => i == r
    case Produced(i, _, _) => i == r
    case _ => false
  }

  lemma VisitGoesOn(c: Setup, s: State, r: nat, next: nat, m: nat, pc: Pc, step: Step, s': State)
    requires Shaped(c, s) && m == Mediator(c) && pc == s.threads[m].pc && step == NextStep(c, m, s.threads[m])
    requires r < NumRings(c) && InVisit(pc, r) && next == r + 1
    requires Enabled(c, s, step) && s' == Apply(c, s, step)
    ensures |s'.threads| == NumThreads(c) && (InVisit(s'.threads[m].pc, r) || s'.threads[m].pc == Drain(next))
  {
    match pc
    case Drain(_) =>
    case Sliced(_, _, _) =>
    case HalfProduced(_, _, _) =>
    case Produced(_, _, _) =>
  }

  /** The mediator's visit of ring `r` comes to its end. */
  lemma {:induction false} DrainOn(c: Setup, sch: Schedule, s: State, p: Stretch, x: State, r: nat, next: nat)
    returns (q: Stretch, y: State)
    requires Log(c, sch, s, p, x) && r < NumRings(c) && InVisit(Med(c, x).pc, r) && next == r + 1
    ensures Log(c, sch, s, q, y) && Extends(p, q) && Med(c, y).pc == Drain(next)
    decreases Rank(c, Med(c, x).pc) + 3
  {
    var m := Mediator(c);
    var th := x.threads[m];
    assert ThreadOk(c, m, th);
    RankNonNegative(c, m, th);
    NextStepRuns(c, x, m, th);
    NextStepAllowed(c, sch, x, m, th);
    var p1, x1 := Take(c, sch, s, p, x, NextStep(c, m, th));
    NextStepCloser(c, x, m, th, x1);
    VisitGoesOn(c, x, r, next, m, th.pc, NextStep(c, m, th), x1);
    if Med(c, x1).pc == Drain(next) {
      q, y := p1, x1;
    } else {
      q, y := DrainOn(c, sch, s, p1, x1, r, next);
      ExtendsOn(p, p1, q);
    }
  }

  ghost predicate VisitedOn(c: Setup, p: Stretch, r: nat) {
    forall i: nat :: r <= i < NumRings(c) ==> VisitedOnce(c, p, i)
  }

  lemma {:induction false} VisitRings(c: Setup, sch: Schedule, s: State, p: Stretch, x: State, r: nat)
    returns (q: Stretch, y: State)
    requires Log(c, sch, s, p, x) && r <= NumRings(c) && Med(c, x).pc == Drain(r)
    ensures Log(c, sch, s, q, y) && Extends(p, q) && VisitedOn(c, q, r)
    decreases NumRings(c) - r
  {
    if r == NumRings(c) {
      q, y := p, x;
    } else {
      var p1, x1 := DrainOn(c, sch, s, p, x, r, r + 1);
      assert VisitedFrom(c, p1, r, |p.steps|, |p1.steps|);
      q, y := VisitRings(c, sch, s, p1, x1, r + 1);
      ExtendsOn(p, p1, q);
      VisitKept(c, p1, q, r);
    }
  }

  /** All that the mediator has to do in a round. */
  ghost predicate MediatorServed(c: Setup, p: Stretch) {
    && DoneOnce(c, p, Collect) && HeadOnce(c, p, Mediator(c)) && VisitedOn(c, p, 0)
    && (IsWorker(c, Mediator(c)) ==> Served(c, p, Mediator(c)))
  }

  lemma MediatorPass(c: Setup, sch: Schedule, s: State, p: Stretch, x: State) returns (q: Stretch, y: State)
    requires Log(c, sch, s, p, x) && AtHead(c, Mediator(c), Med(c, x).pc) && HeadOnce(c, p, Mediator(c))
    ensures Log(c, sch, s, q, y) && Extends(p, q) && MediatorServed(c, q)
  {
    var m := Mediator(c);
    var p1, x1 := p, x;
    if c.mode.FirstThread? {
      var p0, x0 := ReceiveAndSendAll(c, sch, s, p, x, m);
      p1, x1 := PassOnAndCollect(c, sch, s, p0, x0, m);
      ExtendsOn(p, p0, p1);
      ServedKept(c, p0, p1, m);
    } else {
      p1, x1 := CollectAndRefill(c, sch, s, p, x);
    }
    q, y := p1, x1;
    if AfterRefill(c).Drain? {
      q, y := VisitRings(c, sch, s, p1, x1, 0);
    }
    ExtendsOn(p, p1, q);
    DutyKept(c, p1, q, Collect);
    HeadKept(c, p, q, m);
    if IsWorker(c, m) { ServedKept(c, p1, q, m); }
  }

  // ---- Main results ------------------------------------------------------------------------

  lemma AllServed(c: Setup, p: Stretch)
    requires RemotesServed(c, p, c.workers) && MediatorServed(c, p) && DoneOnce(c, p, Complete)
    ensures FullRound(c, p)
  {
    forall duty | IsDuty(c, duty)
      ensures DoneOnce(c, p, duty)
    {
      match duty
      case Receive(t) => assert t == Mediator(c) || Served(c, p, t);
      case Send(t) => assert t == Mediator(c) || Served(c, p, t);
      case _ =>
    }
    forall t: nat | t < NumThreads(c)
      ensures HeadOnce(c, p, t)
    {
      assert t == Mediator(c) || Served(c, p, t);
    }
  }

  /** From every steady state a full round without arrivals can be run, under either schedule. */
  lemma RoundExists(c: Setup, sch: Schedule, s: State) returns (q: Stretch, y: State)
    requires Steady(c, s)
    ensures Round(c, sch, q, s, y) && Steady(c, y)
  {
    var p1, x1 := ToHead(c, sch, s, Stretch([s], []), s, Mediator(c));
    var p2, x2 := ServeRemotes(c, sch, s, p1, x1, c.workers);
    var p3, x3 := CompleteAll(c, sch, s, p2, x2);
    ExtendsOn(p1, p2, p3);
    HeadKept(c, p1, p3, Mediator(c));
    q, y := MediatorPass(c, sch, s, p3, x3);
    DutyKept(c, p3, q, Complete);
    ExtendsOn(p2, p3, q);
    RemotesKept(c, p2, q, c.workers);
    AllServed(c, q);
  }

  lemma LeadsGoing(c: Setup, sch: Schedule, s: State, x: State, step: Step, y: State)
    requires Leads(c, sch, true, s, x) && Goes(c, sch, x, step, y)
    ensures Leads(c, sch, true, s, y)
  {
    LeadsOn(c, sch, true, s, x, step, y);
  }

  lemma {:induction false} LeadsAlong(c: Setup, sch: Schedule, s: State, p: Stretch, x: State, i: nat, y: State)
    requires Leads(c, sch, true, s, x) && Walks(c, sch, p) && p.states[0] == x
    requires i <= |p.steps| && y == p.states[i]
    ensures Leads(c, sch, true, s, y)
  {
    if i > 0 {
      var k := i - 1;
      LeadsAlong(c, sch, s, p, x, k, p.states[k]);
      assert Goes(c, sch, p.states[k], p.steps[k], p.states[k + 1]);
      LeadsGoing(c, sch, s, p.states[k], p.steps[k], y);
    }
  }

  lemma AddRound(c: Setup, sch: Schedule, s: State, n: nat, next: nat, x: State, p: Stretch, y: State)
    requires AfterRounds(c, sch, s, n, x) && Round(c, sch, p, x, y) && next == n + 1
    ensures AfterRounds(c, sch, s, next, y)
  {
  }

  /** How things stand after `n` rounds from `s`. */
  ghost predicate Rounded(c: Setup, sch: Schedule, s: State, n: nat, x: State) {
    AfterRounds(c, sch, s, n, x) && Leads(c, sch, true, s, x) && Steady(c, x)
  }

  lemma OneMoreRound(c: Setup, sch: Schedule, s: State, n: nat, next: nat, x: State) returns (y: State)
    requires Rounded(c, sch, s, n, x) && next == n + 1
    ensures Rounded(c, sch, s, next, y)
  {
    var p;
    p, y := RoundExists(c, sch, x);
    LeadsAlong(c, sch, s, p, x, |p.steps|, y);
    AddRound(c, sch, s, n, next, x, p, y);
  }

  lemma {:induction false} RoundsExist(c: Setup, sch: Schedule, s: State, n: nat) returns (y: State)
    requires Steady(c, s)
    ensures Rounded(c, sch, s, n, y)
  {
    if n == 0 {
      y := s;
      LeadsNowhere(c, sch, true, s);
    } else {
      var k := n - 1;
      var x := RoundsExist(c, sch, s, k);
      y := OneMoreRound(c, sch, s, k, n, x);
    }
  }

  /** From every state that any interleaving can reach, without further arrivals and under either
      schedule, all frames can return to the fill queue or the kernel's receive buffers; with
      enough room for the schedule none is lost on the way. */
  lemma Recovers(c: Setup, before: Schedule, sch: Schedule, s: State) returns (s': State)
    requires Reachable(c, before, s)
    ensures Leads(c, sch, true, s, s') && NothingOut(s') && AllHome(c, s')
    ensures Roomy(c, sch) ==> s'.lost == s.lost
  {
    ReachableIsSteady(c, before, s);
    s' := RoundsExist(c, sch, s, 6);
    SixRoundsBringAllHome(c, before, sch, s, 6, s');
  }

  /** While a frame is out, some continuation without arrivals makes the state lighter. */
  lemma Lighten(c: Setup, before: Schedule, sch: Schedule, s: State) returns (s': State)
    requires Reachable(c, before, s) && Weight(s) > 0
    ensures Leads(c, sch, true, s, s') && Weight(s') < Weight(s)
  {
    s' := Recovers(c, before, sch, s);
    ZeroWeight(s');
  }

  /** At the sizes of the source: from any state of any interleaving that has lost nothing so
      far, every one of the 2048 frames can come back if ring drains are not interrupted. */
  lemma SourceSizesRecover(workers: nat, mode: Disposal, queues: nat, s: State) returns (s': State)
    requires 1 <= workers && 2048 <= queues
    requires Reachable(SourceSetup(workers, mode, queues), AnyOrder, s) && s.lost == multiset{}
    ensures Leads(SourceSetup(workers, mode, queues), AtomicDrains, true, s, s') && NothingOut(s')
    ensures forall d: Frame :: Occ(s'.fq, d) + s'.nic[d] == if d < 2048 then 1 else 0
  {
    s' := Recovers(SourceSetup(workers, mode, queues), AnyOrder, AtomicDrains, s);
  }
}
