/**
  Which queue capacities make the ignored return counts of `produce` and `push_slice`
  harmless: exactly when no run loses a descriptor.
*/
module Capacity {
  import opened Basics
  import opened FrameProtocol
  import opened Ownership

  // ---- Bounds from conservation -------------------------------------------------

  const NOBODY := Thread([], [], [], Idle)
  const EMPTY_RING := Ring([], 0, [])

  lemma ThreadWithinSum(ths: seq<Thread>, t: nat, d: Frame)
    requires t < |ths|
    ensures ThreadSum(ths[t := NOBODY], d) + ThreadCount(ths[t], d) == ThreadSum(ths, d)
  {
    ThreadSumUpdate(ths, t, NOBODY, d);
  }

  lemma TwoThreadsWithinSum(ths: seq<Thread>, t: nat, u: nat, d: Frame)
    requires t < |ths| && u < |ths| && t != u
    ensures ThreadCount(ths[t], d) + ThreadCount(ths[u], d) <= ThreadSum(ths, d)
  {
    ThreadWithinSum(ths, t, d);
    ThreadWithinSum(ths[t := NOBODY], u, d);
  }

  lemma RingWithinSum(rs: seq<Ring>, r: nat, d: Frame)
    requires r < |rs|
    ensures Occ(Pending(rs[r]), d) <= RingSum(rs, d)
  {
    RingSumUpdate(rs, r, EMPTY_RING, d);
  }

  lemma AllFramesSize(n: nat)
    ensures |Elements(AllFrames(n))| == n
    ensures forall d: Frame :: d in Elements(AllFrames(n)) <==> d < n
  {
    DistinctSize(AllFrames(n));
    forall d: Frame
      ensures d in Elements(AllFrames(n)) <==> d < n
    {
      if d < n { assert AllFrames(n)[d] == d; }
    }
  }

  ghost predicate OnceEach(xs: seq<Frame>, n: nat) {
    forall d: Frame :: Occ(xs, d) <= if d < n then 1 else 0
  }

  lemma OnceEachDistinct(xs: seq<Frame>, n: nat)
    requires OnceEach(xs, n)
    ensures Distinct(xs) && forall d <- xs :: d < n
  {
    forall i, j | 0 <= i < j < |xs|
      ensures xs[i] != xs[j]
    {
      OccSplit(xs, j, xs[i]);
      assert xs[..j][i] == xs[i] && xs[j..][0] == xs[j];
      assert Occ(xs, xs[i]) <= 1;
    }
    forall d | d in xs
      ensures d < n
    {
      assert Occ(xs, d) >= 1;
    }
  }

  /** Descriptors that exist at most once and lie below `n` are at most `n`. */
  lemma OnceEachFits(xs: seq<Frame>, n: nat)
    requires OnceEach(xs, n)
    ensures |xs| <= n
  {
    OnceEachDistinct(xs, n);
    AllFramesSize(n);
    Pigeonhole(xs, Elements(AllFrames(n)));
  }

  lemma TwoFit(xs: seq<Frame>, ys: seq<Frame>, n: nat)
    requires forall d: Frame :: Occ(xs, d) + Occ(ys, d) <= if d < n then 1 else 0
    ensures |xs| + |ys| <= n
  {
    forall d: Frame
      ensures Occ(xs + ys, d) <= if d < n then 1 else 0
    {
      OccAppend(xs, ys, d);
    }
    OnceEachFits(xs + ys, n);
  }

  ghost predicate Conserved(c: Setup, s: State) {
    Ok(c, s) && forall d: Frame :: Total(s, d) == if d < c.frames then 1 else 0
  }

  lemma StepKeepsConserved(c: Setup, s: State, step: Step)
    requires Conserved(c, s) && Enabled(c, s, step)
    ensures Conserved(c, Apply(c, s, step))
  {
    ApplyKeepsOk(c, s, step);
    forall d: Frame
      ensures Total(Apply(c, s, step), d) == if d < c.frames then 1 else 0
    {
      StepConserves(c, s, step, d);
    }
  }

  /** A window and the fill queue share no descriptor, so together they fit in F slots. */
  lemma WindowBesideFill(c: Setup, s: State, t: nat)
    requires Conserved(c, s) && t < |s.threads|
    ensures |s.fq| + |Window(s.threads[t])| <= c.frames
  {
    forall d: Frame
      ensures Occ(s.fq, d) + Occ(Window(s.threads[t]), d) <= if d < c.frames then 1 else 0
    {
      ThreadWithinSum(s.threads, t, d);
      assert Total(s, d) == if d < c.frames then 1 else 0;
    }
    TwoFit(s.fq, Window(s.threads[t]), c.frames);
  }

  lemma WindowBesideTx(c: Setup, s: State, t: nat)
    requires Conserved(c, s) && t < |s.threads|
    ensures |s.threads[t].tx| + |Window(s.threads[t])| <= c.frames
  {
    var th := s.threads[t];
    forall d: Frame
      ensures Occ(th.tx, d) + Occ(Window(th), d) <= if d < c.frames then 1 else 0
    {
      ThreadWithinSum(s.threads, t, d);
      assert Total(s, d) == if d < c.frames then 1 else 0;
    }
    TwoFit(th.tx, Window(th), c.frames);
  }

  lemma PendingBesideFill(c: Setup, s: State, r: nat)
    requires Conserved(c, s) && r < |s.rings|
    ensures |s.fq| + |Pending(s.rings[r])| <= c.frames
  {
    forall d: Frame
      ensures Occ(s.fq, d) + Occ(Pending(s.rings[r]), d) <= if d < c.frames then 1 else 0
    {
      RingWithinSum(s.rings, r, d);
      assert Total(s, d) == if d < c.frames then 1 else 0;
    }
    TwoFit(s.fq, Pending(s.rings[r]), c.frames);
  }

  lemma PendingBesideWindow(c: Setup, s: State, r: nat, t: nat)
    requires Conserved(c, s) && r < |s.rings| && t < |s.threads|
    ensures |Pending(s.rings[r])| + |Window(s.threads[t])| <= c.frames
  {
    var p, w := Pending(s.rings[r]), Window(s.threads[t]);
    forall d: Frame
      ensures Occ(p, d) + Occ(w, d) <= if d < c.frames then 1 else 0
    {
      RingWithinSum(s.rings, r, d);
      ThreadWithinSum(s.threads, t, d);
      assert Total(s, d) == if d < c.frames then 1 else 0;
    }
    TwoFit(p, w, c.frames);
  }

  lemma OneWindowOnce(c: Setup, sch: Schedule, s: State, t: nat, d: Frame)
    requires Reachable(c, sch, s) && t < |s.threads|
    ensures Occ(Window(s.threads[t]), d) + Occ(s.fq, d) + Occ(s.cq, d) <= if d < c.frames then 1 else 0
  {
    FrameConservation(c, sch, s, d);
    ThreadWithinSum(s.threads, t, d);
  }

  lemma TwoWindowsOnce(c: Setup, sch: Schedule, s: State, t: nat, u: nat, d: Frame)
    requires Reachable(c, sch, s) && t < |s.threads| && u < |s.threads| && t != u
    ensures Occ(Window(s.threads[t]), d) + Occ(Window(s.threads[u]), d) <= 1
  {
    FrameConservation(c, sch, s, d);
    TwoThreadsWithinSum(s.threads, t, u, d);
  }

  /** Exclusive ownership: no descriptor sits twice in one window, nor in a window and the
      fill or completion queue, nor in the windows of two threads. */
  lemma WindowsAreExclusive(c: Setup, sch: Schedule, s: State, t: nat)
    requires Reachable(c, sch, s) && t < |s.threads|
    ensures Distinct(Window(s.threads[t]))
    ensures forall d <- Window(s.threads[t]) :: d < c.frames && d !in s.fq && d !in s.cq
    ensures forall u :: 0 <= u < |s.threads| && u != t ==>
      forall d <- Window(s.threads[t]) :: d !in Window(s.threads[u])
  {
    var w := Window(s.threads[t]);
    forall d: Frame
      ensures Occ(w, d) + Occ(s.fq, d) + Occ(s.cq, d) <= if d < c.frames then 1 else 0
    {
      OneWindowOnce(c, sch, s, t, d);
    }
    OnceEachDistinct(w, c.frames);
    forall u, d | 0 <= u < |s.threads| && u != t && d in w
      ensures d !in Window(s.threads[u])
    {
      TwoWindowsOnce(c, sch, s, t, u, d);
    }
    forall d | d in w
      ensures d !in s.fq && d !in s.cq
    {
      assert Occ(w, d) >= 1;
    }
  }

  // ---- Enough room --------------------------------------------------------------

  /** The ring capacity that a schedule calls for. */
  function RingNeed(c: Setup, sch: Schedule): nat {
    if NumRings(c) == 0 then 0 else if sch.AtomicDrains? then c.frames else 2 * c.frames
  }

  predicate Roomy(c: Setup, sch: Schedule) {
    c.frames <= c.fqCap && c.frames <= c.txCap && RingNeed(c, sch) <= c.ringCap
  }

  predicate SnapshotBounded(c: Setup, pc: Pc) {
    match pc
    case Sliced(_, n1, n2) => n1 + n2 <= c.frames
    case HalfProduced(_, n1, n2) => n1 + n2 <= c.frames
    case Produced(_, n1, n2) => n1 + n2 <= c.frames
    case _ => true
  }

  /** What every reachable state keeps, whatever the capacities. */
  ghost predicate Steady(c: Setup, s: State) { Conserved(c, s) && SnapshotBounded(c, Med(c, s).pc) }

  lemma PushLosesNothing(c: Setup, sch: Schedule, s: State, t: nat)
    requires Roomy(c, sch) && Steady(c, s) && Allowed(c, sch, s, Push(t))
    ensures Apply(c, s, Push(t)).lost == s.lost
  {
    var r := RingOf(c, t);
    assert RingOk(c, Med(c, s).pc, r, s.rings[r]);
    PendingBesideWindow(c, s, r, t);
    assert s.rings[r].Occupied() == |Pending(s.rings[r])| + Ahead(Med(c, s).pc, r);
    var out := Window(s.threads[t]);
    assert out[|out|..] == [];
  }

  lemma RecycleLosesNothing(c: Setup, s: State, r: nat, lo: nat, hi: nat)
    requires c.frames <= c.fqCap && Conserved(c, s)
    requires r < |s.rings| && lo == |s.rings[r].recycled| && lo <= hi <= |s.rings[r].pushed|
    ensures Recycle(c, s, r, lo, hi).lost == s.lost
  {
    PendingBesideFill(c, s, r);
  }

  lemma DrainLosesNothing(c: Setup, s: State, step: Step, r: nat)
    requires c.frames <= c.fqCap && Conserved(c, s) && Enabled(c, s, step)
    requires step.ProduceFirst? || step.ProduceSecond?
    requires r == Med(c, s).pc.ring
    ensures Apply(c, s, step).lost == s.lost
  {
    var pc := Med(c, s).pc;
    assert RingOk(c, pc, r, s.rings[r]);
    if step.ProduceFirst? {
      RecycleLosesNothing(c, s, r, s.rings[r].taken, s.rings[r].taken + pc.n1);
    } else {
      RecycleLosesNothing(c, s, r, s.rings[r].taken + pc.n1, s.rings[r].taken + pc.n1 + pc.n2);
    }
  }

  lemma TransmitLosesNothing(c: Setup, s: State, t: nat)
    requires c.frames <= c.txCap && Conserved(c, s) && Enabled(c, s, Transmit(t))
    ensures Apply(c, s, Transmit(t)).lost == s.lost
  {
    assert ThreadOk(c, t, s.threads[t]);
    WindowBesideTx(c, s, t);
  }

  lemma StepLosesNothing(c: Setup, sch: Schedule, s: State, step: Step)
    requires Roomy(c, sch) && Steady(c, s) && Allowed(c, sch, s, step)
    ensures Apply(c, s, step).lost == s.lost
  {
    match step
    case Transmit(t) => TransmitLosesNothing(c, s, t);
    case Push(t) => PushLosesNothing(c, sch, s, t);
    case Refill => WindowBesideFill(c, s, Mediator(c));
    case ProduceFirst => DrainLosesNothing(c, s, step, Med(c, s).pc.ring);
    case ProduceSecond => DrainLosesNothing(c, s, step, Med(c, s).pc.ring);
    case _ =>
  }

  lemma LookBoundsSnapshot(c: Setup, s: State)
    requires Conserved(c, s) && Enabled(c, s, Look)
    ensures SnapshotBounded(c, Med(c, Apply(c, s, Look)).pc)
  {
    var r := Med(c, s).pc.ring;
    assert RingOk(c, Med(c, s).pc, r, s.rings[r]);
    PendingBesideFill(c, s, r);
    if s.rings[r].Occupied() > 0 { SlicesCoverRing(c.ringCap, s.rings[r]); }
  }

  predicate MovesMediator(step: Step) {
    step.Reap? || step.Refill? || step.Look? || step.ProduceFirst? || step.ProduceSecond? || step.Advance? || step.Wrap?
  }

  lemma OtherStepKeepsMediator(c: Setup, s: State, step: Step, s': State)
    requires Ok(c, s) && Enabled(c, s, step) && !MovesMediator(step) && s' == Apply(c, s, step)
    ensures |s'.threads| == NumThreads(c)
    ensures SnapshotBounded(c, Med(c, s).pc) ==> SnapshotBounded(c, Med(c, s').pc)
  {
  }

  lemma MediatorStepKeepsSnapshot(c: Setup, s: State, step: Step, s': State)
    requires |s.threads| == NumThreads(c) && SnapshotBounded(c, Med(c, s).pc)
    requires Enabled(c, s, step) && MovesMediator(step) && !step.Look? && s' == Apply(c, s, step)
    ensures |s'.threads| == NumThreads(c) && SnapshotBounded(c, Med(c, s').pc)
  {
  }

  lemma StepKeepsSteady(c: Setup, s: State, step: Step, s': State)
    requires Steady(c, s) && Enabled(c, s, step) && s' == Apply(c, s, step)
    ensures Steady(c, s')
  {
    StepKeepsConserved(c, s, step);
    if step.Look? { LookBoundsSnapshot(c, s); }
    else if MovesMediator(step) { MediatorStepKeepsSnapshot(c, s, step, s'); }
    else { OtherStepKeepsMediator(c, s, step, s'); }
  }

  /** A run keeps what was conserved, and with enough room for its schedule it loses nothing
      more than was lost before. */
  lemma {:induction false} RunLosesNothing(c: Setup, sch: Schedule, s: State, steps: seq<Step>)
    requires Steady(c, s) && Runs(c, sch, s, steps)
    ensures Steady(c, Exec(c, sch, s, steps))
    ensures Roomy(c, sch) ==> Exec(c, sch, s, steps).lost == s.lost
    decreases |steps|
  {
    if steps != [] {
      var n := |steps| - 1;
      RunLosesNothing(c, sch, s, steps[..n]);
      var last := Exec(c, sch, s, steps[..n]);
      StepKeepsSteady(c, last, steps[n], Apply(c, last, steps[n]));
      if Roomy(c, sch) { StepLosesNothing(c, sch, last, steps[n]); }
    }
  }

  lemma InitSteady(c: Setup)
    ensures Steady(c, Init(c))
    ensures c.frames <= c.fqCap ==> Init(c).lost == multiset{}
  {
    InitOk(c);
    forall d: Frame
      ensures Total(Init(c), d) == if d < c.frames then 1 else 0
    {
      InitTotal(c, d);
    }
  }

  lemma ReachableIsSteady(c: Setup, sch: Schedule, s: State)
    requires Reachable(c, sch, s)
    ensures Steady(c, s)
  {
    var steps :| Runs(c, sch, Init(c), steps) && s == Exec(c, sch, Init(c), steps);
    InitSteady(c);
    RunLosesNothing(c, sch, Init(c), steps);
  }

  // ---- Too little room ----------------------------------------------------------

  predicate Quiet(c: Setup, sch: Schedule, s: State) {
    Shaped(c, s) && (sch.AnyOrder? || !MidDrain(c, s))
  }

  /** The kernel takes everything the fill queue holds and delivers it to worker `t`. */
  lemma Arrive(c: Setup, sch: Schedule, s: State, t: nat, th: Thread, xs: seq<Frame>)
    requires Reachable(c, sch, s) && Quiet(c, sch, s)
    requires IsWorker(c, t) && s.threads[t] == th && th.rx == [] && s.fq == xs
    ensures Reachable(c, sch, SetThread(s, t, th.(rx := xs)).(fq := []))
  {
    var s1 := s.(fq := [], nic := s.nic + multiset(xs));
    assert xs[..|xs|] == xs && xs[|xs|..] == [];
    assert Apply(c, s, KTake(|xs|)) == s1;
    ReachStep(c, sch, s, KTake(|xs|));
    assert s1.nic - multiset(xs) == s.nic;
    Deliver(c, sch, s1, t, th, xs, s.nic);
  }

  lemma Deliver(c: Setup, sch: Schedule, s: State, t: nat, th: Thread, xs: seq<Frame>, rest: multiset<Frame>)
    requires Reachable(c, sch, s) && Quiet(c, sch, s)
    requires IsWorker(c, t) && s.threads[t] == th && th.rx == []
    requires multiset(xs) <= s.nic && s.nic - multiset(xs) == rest
    ensures Reachable(c, sch, SetThread(s, t, th.(rx := xs)).(nic := rest))
  {
    var next := SetThread(s, t, th.(rx := xs)).(nic := rest);
    assert th.rx + xs == xs;
    assert Apply(c, s, KDeliver(t, xs)) == next;
    ReachStep(c, sch, s, KDeliver(t, xs));
  }

  /** Worker `t` takes its whole receive queue and keeps the first `numTx` for sending. */
  lemma Accept(c: Setup, sch: Schedule, s: State, t: nat, th: Thread, numTx: nat)
    requires Reachable(c, sch, s) && Quiet(c, sch, s)
    requires IsWorker(c, t) && s.threads[t] == th && th.pc == Idle
    requires |th.scratch| == |th.rx| && numTx <= |th.rx|
    ensures Reachable(c, sch, SetThread(s, t, Thread([], th.tx, th.rx, Partitioned(numTx, |th.rx|))))
  {
    var n := |th.rx|;
    var s1 := SetThread(s, t, Thread([], th.tx, th.rx, Received(n)));
    assert th.rx[n..] == [] && th.rx[..n] + th.scratch[n..] == th.rx;
    assert Apply(c, s, Recv(t, n)) == s1;
    ReachStep(c, sch, s, Recv(t, n));
    assert Apply(c, s1, Partition(t, th.rx, numTx)) == SetThread(s, t, Thread([], th.tx, th.rx, Partitioned(numTx, n)));
    ReachStep(c, sch, s1, Partition(t, th.rx, numTx));
  }

  /** Worker `t` drops all it received and offers it to its ring. */
  lemma DropAll(c: Setup, sch: Schedule, s: State, t: nat, xs: seq<Frame>) returns (s': State)
    requires Reachable(c, sch, s) && Quiet(c, sch, s)
    requires IsRemote(c, t) && s.threads[t] == Thread([], [], xs, Partitioned(0, |xs|))
    ensures Reachable(c, sch, s')
    ensures s' == ApplyPush(c, SetThread(s, t, Thread([], [], xs, Sent(0, |xs|))), t)
  {
    var s1 := SetThread(s, t, Thread([], [], xs, Sent(0, |xs|)));
    assert xs[..0] == [];
    assert [] + xs[..0] == [] && s.lost + multiset(xs[..0]) == s.lost;
    assert Apply(c, s, Transmit(t)) == s1;
    ReachStep(c, sch, s, Transmit(t));
    ReachStep(c, sch, s1, Push(t));
    s' := Apply(c, s1, Push(t));
  }

  /** The worker whose ring is drained first. */
  function Victim(c: Setup): (t: nat)
    requires NumRings(c) > 0
    ensures IsRemote(c, t) && RingOf(c, t) == 0
  {
    c.workers - 1
  }

  /** A lone worker pass without packets brings the mediator to its first ring. */
  lemma ReachDrain(c: Setup, s: State, m: nat, sc: seq<Frame>)
    requires Reachable(c, AnyOrder, s) && Quiet(c, AnyOrder, s) && NumRings(c) > 0
    requires m == Mediator(c) && s.threads[m].scratch == sc && s.fq == []
    requires s.threads[m].pc == if c.mode.FirstThread? then Idle else Drain(0)
    ensures Reachable(c, AnyOrder, SetPc(s, m, Drain(0)))
  {
    if c.mode.ExtraThread? {
      assert s.threads[m := s.threads[m].(pc := Drain(0))] == s.threads;
    } else {
      EmptyReceive(c, s, m, s.threads[m].rx, sc);
      EmptyPassEnds(c, s, m, sc);
    }
  }

  lemma EmptyReceive(c: Setup, s: State, m: nat, rx: seq<Frame>, sc: seq<Frame>)
    requires Reachable(c, AnyOrder, s) && Quiet(c, AnyOrder, s) && IsWorker(c, m)
    requires s.threads[m].scratch == sc && s.threads[m].rx == rx && s.threads[m].pc == Idle
    ensures Reachable(c, AnyOrder, SetPc(s, m, Partitioned(0, 0)))
  {
    var s1 := SetPc(s, m, Received(0));
    assert rx[0..] == rx && rx[..0] + sc[0..] == sc;
    assert Apply(c, s, Recv(m, 0)) == s1;
    ReachStep(c, AnyOrder, s, Recv(m, 0));
    assert Apply(c, s1, Partition(m, sc, 0)) == SetPc(s, m, Partitioned(0, 0));
    ReachStep(c, AnyOrder, s1, Partition(m, sc, 0));
  }

  lemma EmptyPassEnds(c: Setup, s: State, m: nat, sc: seq<Frame>)
    requires Quiet(c, AnyOrder, s) && NumRings(c) > 0 && c.mode.FirstThread?
    requires m == Mediator(c) && s.threads[m].scratch == sc && s.fq == []
    requires Reachable(c, AnyOrder, SetPc(s, m, Partitioned(0, 0)))
    ensures Reachable(c, AnyOrder, SetPc(s, m, Drain(0)))
  {
    TransmitNothing(c, s, m, sc);
    ReachStep(c, AnyOrder, SetPc(s, m, Partitioned(0, 0)), Transmit(m));
    EmptyReapEnds(c, s, m, sc);
  }

  lemma TransmitNothing(c: Setup, s: State, m: nat, sc: seq<Frame>)
    requires Quiet(c, AnyOrder, s) && IsWorker(c, m) && s.threads[m].scratch == sc
    ensures Enabled(c, SetPc(s, m, Partitioned(0, 0)), Transmit(m))
    ensures Apply(c, SetPc(s, m, Partitioned(0, 0)), Transmit(m)) == SetPc(s, m, Sent(0, 0))
  {
    var tx := s.threads[m].tx;
    assert tx + sc[..0] == tx && s.lost + multiset(sc[..0]) == s.lost;
  }

  lemma EmptyReapEnds(c: Setup, s: State, m: nat, sc: seq<Frame>)
    requires Quiet(c, AnyOrder, s) && NumRings(c) > 0 && c.mode.FirstThread?
    requires m == Mediator(c) && s.threads[m].scratch == sc && s.fq == []
    requires Reachable(c, AnyOrder, SetPc(s, m, Sent(0, 0)))
    ensures Reachable(c, AnyOrder, SetPc(s, m, Drain(0)))
  {
    ReapNothing(c, s, m, sc);
    ReachStep(c, AnyOrder, SetPc(s, m, Sent(0, 0)), Reap(0));
    EmptyRefillEnds(c, s, m);
  }

  lemma ReapNothing(c: Setup, s: State, m: nat, sc: seq<Frame>)
    requires Quiet(c, AnyOrder, s) && c.mode.FirstThread? && m == Mediator(c) && s.threads[m].scratch == sc
    ensures Enabled(c, SetPc(s, m, Sent(0, 0)), Reap(0))
    ensures Apply(c, SetPc(s, m, Sent(0, 0)), Reap(0)) == SetPc(s, m, Completed(0, 0))
  {
    assert sc[..0] + s.cq[..0] + sc[0..] == sc && s.cq[0..] == s.cq;
  }

  lemma EmptyRefillEnds(c: Setup, s: State, m: nat)
    requires Quiet(c, AnyOrder, s) && NumRings(c) > 0 && c.mode.FirstThread?
    requires m == Mediator(c) && s.fq == []
    requires Reachable(c, AnyOrder, SetPc(s, m, Completed(0, 0)))
    ensures Reachable(c, AnyOrder, SetPc(s, m, Drain(0)))
  {
    RefillNothing(c, s, m);
    ReachStep(c, AnyOrder, SetPc(s, m, Completed(0, 0)), Refill);
  }

  lemma RefillNothing(c: Setup, s: State, m: nat)
    requires Quiet(c, AnyOrder, s) && NumRings(c) > 0 && c.mode.FirstThread? && m == Mediator(c) && s.fq == []
    ensures Enabled(c, SetPc(s, m, Completed(0, 0)), Refill)
    ensures Apply(c, SetPc(s, m, Completed(0, 0)), Refill) == SetPc(s, m, Drain(0))
  {
    var s2 := SetPc(s, m, Completed(0, 0));
    assert Window(Med(c, s2)) == [] && s2.lost + multiset([]) == s2.lost;
  }

  lemma LookFindsAll(c: Setup, s: State, m: nat, xs: seq<Frame>)
    requires Quiet(c, AnyOrder, s) && NumRings(c) > 0 && m == Mediator(c) && s.threads[m].pc == Drain(0)
    requires s.rings[0] == Ring(xs, 0, []) && 1 <= |xs| <= c.ringCap
    ensures Enabled(c, s, Look) && Apply(c, s, Look) == SetPc(s, m, Sliced(0, |xs|, 0))
  {
  }

  /** The first ring's content in the fill queue, its read position still where it was. */
  function Half(s: State, m: nat, xs: seq<Frame>, pc: Pc): State
    requires m < |s.threads| && 0 < |s.rings|
  {
    SetRing(SetPc(s, m, pc), 0, Ring(xs, 0, xs)).(fq := xs)
  }

  /** Both slices of the first ring are produced while its read position still stands. */
  lemma ProduceWithoutAdvance(c: Setup, s: State, m: nat, xs: seq<Frame>)
    requires Reachable(c, AnyOrder, s) && Quiet(c, AnyOrder, s) && NumRings(c) > 0
    requires m == Mediator(c) && s.threads[m].pc == Drain(0)
    requires s.rings[0] == Ring(xs, 0, []) && 1 <= |xs| <= c.fqCap && |xs| <= c.ringCap && s.fq == []
    ensures Reachable(c, AnyOrder, Half(s, m, xs, Produced(0, |xs|, 0)))
  {
    var n := |xs|;
    LookFindsAll(c, s, m, xs);
    ReachStep(c, AnyOrder, s, Look);
    var s1 := SetPc(s, m, Sliced(0, n, 0));
    FirstSlice(c, s1, m, xs);
    NoSecondSlice(c, Half(s1, m, xs, HalfProduced(0, n, 0)), m, xs);
    HalfTwice(s, m, xs, Sliced(0, n, 0), HalfProduced(0, n, 0), Produced(0, n, 0));
  }

  lemma HalfTwice(s: State, m: nat, xs: seq<Frame>, p: Pc, q: Pc, r: Pc)
    requires m < |s.threads| && 0 < |s.rings|
    ensures SetPc(Half(SetPc(s, m, p), m, xs, q), m, r) == Half(s, m, xs, r)
  {
  }

  lemma FirstSlice(c: Setup, s: State, m: nat, xs: seq<Frame>)
    requires Reachable(c, AnyOrder, s) && Quiet(c, AnyOrder, s) && NumRings(c) > 0
    requires m == Mediator(c) && s.threads[m].pc == Sliced(0, |xs|, 0)
    requires s.rings[0] == Ring(xs, 0, []) && |xs| <= c.fqCap && s.fq == []
    ensures Reachable(c, AnyOrder, Half(s, m, xs, HalfProduced(0, |xs|, 0)))
  {
    assert xs[0..|xs|] == xs && [] + xs == xs;
    assert Apply(c, s, ProduceFirst) == Half(s, m, xs, HalfProduced(0, |xs|, 0));
    ReachStep(c, AnyOrder, s, ProduceFirst);
  }

  lemma NoSecondSlice(c: Setup, s: State, m: nat, xs: seq<Frame>)
    requires Reachable(c, AnyOrder, s) && Quiet(c, AnyOrder, s) && NumRings(c) > 0
    requires m == Mediator(c) && s.threads[m].pc == HalfProduced(0, |xs|, 0)
    requires s.rings[0] == Ring(xs, 0, xs) && s.fq == xs && |xs| <= c.fqCap
    ensures Reachable(c, AnyOrder, SetPc(s, m, Produced(0, |xs|, 0)))
  {
    assert xs[|xs|..|xs|] == [] && xs + [] == xs;
    assert s.rings[0 := s.rings[0]] == s.rings;
    assert Apply(c, s, ProduceSecond) == SetPc(s, m, Produced(0, |xs|, 0));
    ReachStep(c, AnyOrder, s, ProduceSecond);
  }

  ghost predicate Lossless(c: Setup, sch: Schedule) {
    forall s :: Reachable(c, sch, s) ==> s.lost == multiset{}
  }

  lemma SmallFillLoses(c: Setup, sch: Schedule)
    requires c.fqCap < c.frames
    ensures !Lossless(c, sch)
  {
    ReachInit(c, sch);
    assert AllFrames(c.frames)[0] in Init(c).lost;
  }

  lemma TransmitTooMuch(c: Setup, sch: Schedule, s: State, t: nat, xs: seq<Frame>)
    requires Reachable(c, sch, s) && Quiet(c, sch, s) && IsWorker(c, t)
    requires s.threads[t] == Thread([], [], xs, Partitioned(|xs|, |xs|)) && c.txCap < |xs|
    ensures !Lossless(c, sch)
  {
    ReachStep(c, sch, s, Transmit(t));
    assert xs[..|xs|] == xs;
    assert xs[0] in Apply(c, s, Transmit(t)).lost;
  }

  lemma SmallTxLoses(c: Setup, sch: Schedule)
    requires c.frames <= c.fqCap && c.txCap < c.frames
    ensures !Lossless(c, sch)
  {
    var xs := AllFrames(c.frames);
    var s, t := Init(c), c.workers - 1;
    var th := Thread([], [], xs, Idle);
    ReachInit(c, sch);
    Arrive(c, sch, s, t, th, xs);
    var s1 := SetThread(s, t, th.(rx := xs)).(fq := []);
    Accept(c, sch, s1, t, th.(rx := xs), |xs|);
    TransmitTooMuch(c, sch, SetThread(s1, t, Thread([], [], xs, Partitioned(|xs|, |xs|))), t, xs);
  }

  /** A thread about to push its whole window, and nothing in the fill queue. */
  function AboutToPush(s: State, t: nat, xs: seq<Frame>): State
    requires t < |s.threads|
  {
    SetThread(s, t, Thread([], [], xs, Sent(0, |xs|))).(fq := [])
  }

  lemma SetThreadThrice(s: State, t: nat, a: Thread, b: Thread, d: Thread)
    requires t < |s.threads|
    ensures SetThread(SetThread(SetThread(s, t, a).(fq := []), t, b), t, d) == SetThread(s, t, d).(fq := [])
  {
  }

  /** From any calm state with all frames in the fill queue, the victim receives and drops them all. */
  lemma ReceiveAndDrop(c: Setup, sch: Schedule, s: State, t: nat, xs: seq<Frame>, ys: seq<Frame>) returns (s': State)
    requires Reachable(c, sch, s) && Quiet(c, sch, s) && IsRemote(c, t)
    requires s.threads[t] == Thread([], [], ys, Idle) && s.fq == xs && |xs| == |ys|
    ensures Reachable(c, sch, s') && s' == ApplyPush(c, AboutToPush(s, t, xs), t)
  {
    var th, got, cut := Thread([], [], ys, Idle), Thread(xs, [], ys, Idle), Thread([], [], xs, Partitioned(0, |xs|));
    Arrive(c, sch, s, t, th, xs);
    var s1 := SetThread(s, t, got).(fq := []);
    Accept(c, sch, s1, t, got, 0);
    s' := DropAll(c, sch, SetThread(s1, t, cut), t, xs);
    SetThreadThrice(s, t, got, cut, Thread([], [], xs, Sent(0, |xs|)));
  }

  /** Pushing onto a ring without room for all of it loses the rest. */
  lemma PushTooMuch(c: Setup, s: State, t: nat, out: seq<Frame>)
    requires Quiet(c, AnyOrder, s) && IsRemote(c, t) && s.threads[t].pc.Sent?
    requires out == Window(s.threads[t])
    requires c.ringCap < s.rings[RingOf(c, t)].Occupied() + |out| && out != []
    ensures ApplyPush(c, s, t).lost != multiset{}
  {
    assert out[|out| - 1] in ApplyPush(c, s, t).lost;
  }

  lemma SmallRingLoses(c: Setup, sch: Schedule)
    requires NumRings(c) > 0 && c.frames <= c.fqCap && c.ringCap < c.frames
    ensures !Lossless(c, sch)
  {
    var xs := AllFrames(c.frames);
    var s, t := Init(c), Victim(c);
    ReachInit(c, sch);
    var s' := ReceiveAndDrop(c, sch, s, t, xs, xs);
    var s1 := AboutToPush(s, t, xs);
    assert Window(s1.threads[t]) == xs;
    PushTooMuch(c, s1, t, xs);
  }

  lemma PushAll(c: Setup, s: State, t: nat, xs: seq<Frame>, m: nat)
    requires Quiet(c, AnyOrder, s) && IsRemote(c, t) && RingOf(c, t) == 0 && m == Mediator(c)
    requires s.rings[0] == Ring([], 0, []) && |xs| <= c.ringCap
    ensures var s' := ApplyPush(c, AboutToPush(s, t, xs), t);
      && Quiet(c, AnyOrder, s') && s'.rings[0] == Ring(xs, 0, []) && s'.fq == []
      && s'.threads[m] == s.threads[m] && s'.threads[t] == Thread([], [], xs, Idle)
  {
    assert Window(AboutToPush(s, t, xs).threads[t]) == xs && xs[..|xs|] == xs && [] + xs == xs;
  }

  /** All frames pass through one ring, and are recycled but not yet advanced over. */
  lemma RecycleEverything(c: Setup) returns (s': State, m: nat)
    requires NumRings(c) > 0 && 1 <= c.frames <= c.fqCap && c.frames <= c.ringCap
    ensures var xs := AllFrames(c.frames);
      Reachable(c, AnyOrder, s') && Quiet(c, AnyOrder, s')
      && s'.fq == xs && s'.rings[0] == Ring(xs, 0, xs) && s'.threads[Victim(c)] == Thread([], [], xs, Idle)
  {
    var xs := AllFrames(c.frames);
    var s, t := Init(c), Victim(c);
    m := Mediator(c);
    ReachInit(c, AnyOrder);
    var s1 := ReceiveAndDrop(c, AnyOrder, s, t, xs, xs);
    PushAll(c, s, t, xs, m);
    ReachDrain(c, s1, m, xs);
    var s2 := SetPc(s1, m, Drain(0));
    ProduceWithoutAdvance(c, s2, m, xs);
    s' := Half(s2, m, xs, Produced(0, |xs|, 0));
  }

  /** Between produce and advance the recycled frames can come back and find the ring full. */
  lemma RacingRingLoses(c: Setup)
    requires NumRings(c) > 0 && c.frames <= c.fqCap && c.frames <= c.ringCap < 2 * c.frames
    ensures !Lossless(c, AnyOrder)
  {
    var xs, t := AllFrames(c.frames), Victim(c);
    var s, _ := RecycleEverything(c);
    var s' := ReceiveAndDrop(c, AnyOrder, s, t, xs, xs);
    var s1 := AboutToPush(s, t, xs);
    assert Window(s1.threads[t]) == xs;
    PushTooMuch(c, s1, t, xs);
  }

  // ---- Main results -------------------------------------------------------------

  /** No run of the protocol loses a descriptor if and only if each queue is big enough;
      a ring needs F slots when drains are atomic and 2F when they interleave. */
  lemma LosslessIffRoomy(c: Setup, sch: Schedule)
    ensures Lossless(c, sch) <==> Roomy(c, sch)
  {
    if Roomy(c, sch) {
      forall s | Reachable(c, sch, s)
        ensures s.lost == multiset{}
      {
        var steps :| Runs(c, sch, Init(c), steps) && s == Exec(c, sch, Init(c), steps);
        InitSteady(c);
        RunLosesNothing(c, sch, Init(c), steps);
      }
    } else if c.fqCap < c.frames {
      SmallFillLoses(c, sch);
    } else if c.txCap < c.frames {
      SmallTxLoses(c, sch);
    } else if c.ringCap < c.frames {
      SmallRingLoses(c, sch);
    } else {
      RacingRingLoses(c);
    }
  }

  /** With the sizes in the source every variant with a ring can lose a descriptor, but only
      when other threads move in the middle of a drain; a lone thread never loses one. */
  lemma SourceSizes(workers: nat, mode: Disposal, queues: nat)
    requires 1 <= workers && 2048 <= queues
    ensures var c := RawSetup(workers, mode, 2048, queues, queues, 2048);
      && c == SourceSetup(workers, mode, queues)
      && Lossless(c, AtomicDrains) && (Lossless(c, AnyOrder) <==> Lone(c))
  {
    var c := SourceSetup(workers, mode, queues);
    LosslessIffRoomy(c, AtomicDrains);
    LosslessIffRoomy(c, AnyOrder);
  }
}
