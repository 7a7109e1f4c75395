/**
  Conservation of frames: in every run of the frame protocol each descriptor is in
  exactly one place, and a ring hands its descriptors to the fill queue in the order
  they were pushed, none skipped and none twice.
*/
module Ownership {
  import opened Basics
  import opened FrameProtocol

  // ---- Well-formed states -------------------------------------------------------

  predicate Lone(c: Setup) { c.mode.FirstThread? && c.workers == 1 }

  predicate DrainPc(c: Setup, t: nat, r: nat) { t == Mediator(c) && r < NumRings(c) && !Lone(c) }

  predicate ThreadOk(c: Setup, t: nat, th: Thread) {
    && |th.scratch| == c.frames
    && (!IsWorker(c, t) ==> th.rx == [] && th.tx == [])
    && match th.pc
       case Idle => IsWorker(c, t)
       case Received(k) => IsWorker(c, t) && k <= c.frames
       case Partitioned(a, k) => IsWorker(c, t) && a <= k <= c.frames
       case Sent(a, k) => IsWorker(c, t) && a <= k <= c.frames
       case Completed(a, u) => t == Mediator(c) && a <= u <= c.frames
       case Drain(r) => t == Mediator(c) && r <= NumRings(c) && !Lone(c)
       case Sliced(r, n1, n2) => DrainPc(c, t, r) && 1 <= n1
       case HalfProduced(r, n1, n2) => DrainPc(c, t, r)
       case Produced(r, n1, n2) => DrainPc(c, t, r)
  }

  /** How far the recycled log of ring `r` runs ahead of its read position. */
  function Ahead(pc: Pc, r: nat): nat {
    match pc
    case HalfProduced(q, n1, n2) => if q == r then n1 else 0
    case Produced(q, n1, n2) => if q == r then n1 + n2 else 0
    case _ => 0
  }

  predicate InFlight(s: State, pc: Pc) {
    match pc
    case Sliced(r, n1, n2) => r < |s.rings| && s.rings[r].taken + n1 + n2 <= |s.rings[r].pushed|
    case HalfProduced(r, n1, n2) => r < |s.rings| && s.rings[r].taken + n1 + n2 <= |s.rings[r].pushed|
    case Produced(r, n1, n2) => r < |s.rings| && s.rings[r].taken + n1 + n2 <= |s.rings[r].pushed|
    case _ => true
  }

  predicate RingOk(c: Setup, pc: Pc, r: nat, ring: Ring) {
    ring.Ok() && ring.Occupied() <= c.ringCap && |ring.recycled| == ring.taken + Ahead(pc, r)
  }

  ghost predicate Ok(c: Setup, s: State) {
    && |s.threads| == NumThreads(c)
    && |s.rings| == NumRings(c)
    && (forall t :: 0 <= t < |s.threads| ==> ThreadOk(c, t, s.threads[t]))
    && (forall r :: 0 <= r < |s.rings| ==> RingOk(c, Med(c, s).pc, r, s.rings[r]))
    && InFlight(s, Med(c, s).pc)
  }

  lemma InitOk(c: Setup)
    ensures Ok(c, Init(c))
  {
  }

  lemma SlicesCoverRing(cap: nat, r: Ring)
    requires 1 <= r.Occupied() <= cap
    ensures Slices(cap, r).0 + Slices(cap, r).1 == r.Occupied()
    ensures 1 <= Slices(cap, r).0
  {
  }

  /** In the ring's buffer the first slice runs from the read position at most to the end, the
      second from the start at most back to the read position, and only behind a full first. */
  lemma SlicesAreContiguous(cap: nat, r: Ring)
    requires 1 <= r.Occupied() <= cap
    ensures var (n1, n2) := Slices(cap, r); var at := r.taken % cap;
      && 1 <= n1 && n1 + n2 == r.Occupied() && at + n1 <= cap && n2 <= at && (n2 > 0 ==> at + n1 == cap)
  {
  }

  /** Replacing one thread keeps a state well formed when its drain position is unchanged. */
  lemma ThreadUpdateOk(c: Setup, s: State, s': State, t: nat)
    requires Ok(c, s) && t < NumThreads(c)
    requires s'.rings == s.rings && |s'.threads| == |s.threads|
    requires s'.threads == s.threads[t := s'.threads[t]]
    requires ThreadOk(c, t, s'.threads[t])
    requires t == Mediator(c) ==> InFlight(s, s'.threads[t].pc)
    requires t == Mediator(c)
             ==> forall r :: 0 <= r < |s.rings| ==> Ahead(s'.threads[t].pc, r) == Ahead(s.threads[t].pc, r)
    ensures Ok(c, s')
  {
    assert Med(c, s') == if t == Mediator(c) then s'.threads[t] else Med(c, s);
    forall r | 0 <= r < |s'.rings|
      ensures RingOk(c, Med(c, s').pc, r, s'.rings[r])
    {
      assert RingOk(c, Med(c, s).pc, r, s.rings[r]);
    }
  }

  /** Replacing one ring, and the mediator's drain position with it. */
  lemma RingUpdateOk(c: Setup, s: State, s': State, q: nat)
    requires Ok(c, s) && q < NumRings(c)
    requires |s'.threads| == |s.threads| && |s'.rings| == |s.rings|
    requires s'.threads == s.threads[Mediator(c) := Med(c, s')]
    requires s'.rings == s.rings[q := s'.rings[q]]
    requires ThreadOk(c, Mediator(c), Med(c, s')) && InFlight(s', Med(c, s').pc)
    requires RingOk(c, Med(c, s').pc, q, s'.rings[q])
    requires forall r :: 0 <= r < |s.rings| && r != q ==> Ahead(Med(c, s').pc, r) == Ahead(Med(c, s).pc, r)
    ensures Ok(c, s')
  {
    forall r | 0 <= r < |s'.rings|
      ensures RingOk(c, Med(c, s').pc, r, s'.rings[r])
    {
      assert RingOk(c, Med(c, s).pc, r, s.rings[r]);
    }
  }

  lemma ThreadStepKeepsOk(c: Setup, s: State, step: Step, t: nat)
    requires Ok(c, s) && Enabled(c, s, step)
    requires step.KDeliver? || step.KSend? || step.Recv? || step.Partition? || step.Transmit?
    requires t == step.t
    ensures Ok(c, Apply(c, s, step))
  {
    assert ThreadOk(c, t, s.threads[t]);
    ThreadUpdateOk(c, s, Apply(c, s, step), t);
  }

  lemma MediatorStepKeepsOk(c: Setup, s: State, step: Step)
    requires Ok(c, s) && Enabled(c, s, step)
    requires step.Reap? || step.Refill? || step.Wrap?
    ensures Ok(c, Apply(c, s, step))
  {
    assert ThreadOk(c, Mediator(c), Med(c, s));
    ThreadUpdateOk(c, s, Apply(c, s, step), Mediator(c));
  }

  lemma LookKeepsOk(c: Setup, s: State)
    requires Ok(c, s) && Enabled(c, s, Look)
    ensures Ok(c, Apply(c, s, Look))
  {
    var r := Med(c, s).pc.ring;
    assert ThreadOk(c, Mediator(c), Med(c, s)) && RingOk(c, Med(c, s).pc, r, s.rings[r]);
    if s.rings[r].Occupied() > 0 { SlicesCoverRing(c.ringCap, s.rings[r]); }
    ThreadUpdateOk(c, s, Apply(c, s, Look), Mediator(c));
  }

  lemma PushKeepsOk(c: Setup, s: State, t: nat)
    requires Ok(c, s) && Enabled(c, s, Push(t))
    ensures Ok(c, Apply(c, s, Push(t)))
  {
    var r := RingOf(c, t);
    assert ThreadOk(c, t, s.threads[t]) && RingOk(c, Med(c, s).pc, r, s.rings[r]);
    var mid := SetPc(s, t, Idle);
    ThreadUpdateOk(c, s, mid, t);
    RingUpdateOk(c, mid, Apply(c, s, Push(t)), r);
  }

  /** The log of a ring stays a prefix of its pushes when the next slice is appended. */
  lemma RecycleKeepsRingOk(c: Setup, pc: Pc, pc': Pc, r: nat, ring: Ring, n: nat)
    requires RingOk(c, pc, r, ring)
    requires |ring.recycled| + n <= |ring.pushed|
    requires Ahead(pc', r) == Ahead(pc, r) + n
    ensures RingOk(c, pc', r, ring.(recycled := ring.recycled + ring.pushed[|ring.recycled|..|ring.recycled| + n]))
  {
    var k := |ring.recycled|;
    assert ring.pushed[..k] + ring.pushed[k..k + n] == ring.pushed[..k + n];
  }

  /** `Recycle` touches one ring and, besides it, only the fill queue or the losses. */
  lemma RecycleEffect(c: Setup, s: State, r: nat, lo: nat, hi: nat)
    requires r < |s.rings| && lo <= hi <= |s.rings[r].pushed|
    ensures var s' := Recycle(c, s, r, lo, hi);
      s'.threads == s.threads
      && s'.rings == s.rings[r := s.rings[r].(recycled := s.rings[r].recycled + s.rings[r].pushed[lo..hi])]
  {
  }

  lemma DrainMoveKeepsOk(c: Setup, s: State, s': State, r: nat, lo: nat, n: nat, pc: Pc)
    requires Ok(c, s) && r < |s.rings| && lo == |s.rings[r].recycled| && lo + n <= |s.rings[r].pushed|
    requires s' == SetPc(Recycle(c, s, r, lo, lo + n), Mediator(c), pc)
    requires ThreadOk(c, Mediator(c), Med(c, s).(pc := pc))
    requires InFlight(s, pc)
    requires forall q :: 0 <= q < |s.rings| ==> Ahead(pc, q) == Ahead(Med(c, s).pc, q) + if q == r then n else 0
    ensures Ok(c, s')
  {
    RecycleEffect(c, s, r, lo, lo + n);
    SliceMovesOk(c, s, s', r, n, Med(c, s).(pc := pc), s.rings[r],
                 s.rings[r].(recycled := s.rings[r].recycled + s.rings[r].pushed[lo..lo + n]));
  }

  lemma SliceMovesOk(c: Setup, s: State, s': State, r: nat, n: nat, th: Thread, was: Ring, ring: Ring)
    requires Ok(c, s) && r < |s.rings| && was == s.rings[r] && |was.recycled| + n <= |was.pushed|
    requires ring == was.(recycled := was.recycled + was.pushed[|was.recycled|..|was.recycled| + n])
    requires s'.threads == s.threads[Mediator(c) := th] && s'.rings == s.rings[r := ring]
    requires ThreadOk(c, Mediator(c), th) && InFlight(s, th.pc)
    requires forall q :: 0 <= q < |s.rings| ==> Ahead(th.pc, q) == Ahead(Med(c, s).pc, q) + if q == r then n else 0
    ensures Ok(c, s')
  {
    assert RingOk(c, Med(c, s).pc, r, was);
    RecycleKeepsRingOk(c, Med(c, s).pc, th.pc, r, was, n);
    MedAndRingOk(c, s, s', r, th, ring);
  }

  lemma MedAndRingOk(c: Setup, s: State, s': State, r: nat, th: Thread, ring: Ring)
    requires Ok(c, s) && r < |s.rings|
    requires s'.threads == s.threads[Mediator(c) := th] && s'.rings == s.rings[r := ring]
    requires ThreadOk(c, Mediator(c), th) && InFlight(s, th.pc) && RingOk(c, th.pc, r, ring)
    requires |ring.pushed| >= |s.rings[r].pushed| && ring.taken == s.rings[r].taken
    requires forall q :: 0 <= q < |s.rings| && q != r ==> Ahead(th.pc, q) == Ahead(Med(c, s).pc, q)
    ensures Ok(c, s')
  {
    RingUpdateOk(c, s, s', r);
  }

  lemma ProduceFirstKeepsOk(c: Setup, s: State, pc: Pc, r: nat, lo: nat, s': State)
    requires Ok(c, s) && Enabled(c, s, ProduceFirst) && pc == Med(c, s).pc && r == pc.ring
    requires lo == s.rings[r].taken == |s.rings[r].recycled| && s' == Apply(c, s, ProduceFirst)
    requires DrainPc(c, Mediator(c), r)
    ensures Ok(c, s')
  {
    assert ThreadOk(c, Mediator(c), Med(c, s));
    DrainMoveKeepsOk(c, s, s', r, lo, pc.n1, HalfProduced(r, pc.n1, pc.n2));
  }

  lemma ProduceSecondKeepsOk(c: Setup, s: State, pc: Pc, r: nat, lo: nat, s': State)
    requires Ok(c, s) && Enabled(c, s, ProduceSecond) && pc == Med(c, s).pc && r == pc.ring
    requires lo == s.rings[r].taken + pc.n1 == |s.rings[r].recycled| && s' == Apply(c, s, ProduceSecond)
    requires DrainPc(c, Mediator(c), r)
    ensures Ok(c, s')
  {
    assert ThreadOk(c, Mediator(c), Med(c, s));
    DrainMoveKeepsOk(c, s, s', r, lo, pc.n2, Produced(r, pc.n1, pc.n2));
  }

  lemma ProduceKeepsOk(c: Setup, s: State, step: Step, pc: Pc, r: nat)
    requires Ok(c, s) && Enabled(c, s, step) && (step.ProduceFirst? || step.ProduceSecond?)
    requires pc == Med(c, s).pc && r == pc.ring
    ensures Ok(c, Apply(c, s, step))
  {
    assert ThreadOk(c, Mediator(c), Med(c, s)) && RingOk(c, pc, r, s.rings[r]);
    var lo := |s.rings[r].recycled|;
    if step.ProduceFirst? {
      ProduceFirstKeepsOk(c, s, pc, r, lo, Apply(c, s, step));
    } else {
      ProduceSecondKeepsOk(c, s, pc, r, lo, Apply(c, s, step));
    }
  }

  lemma AdvanceKeepsOk(c: Setup, s: State)
    requires Ok(c, s) && Enabled(c, s, Advance)
    ensures Ok(c, Apply(c, s, Advance))
  {
    var pc := Med(c, s).pc;
    assert ThreadOk(c, Mediator(c), Med(c, s)) && RingOk(c, pc, pc.ring, s.rings[pc.ring]);
    RingUpdateOk(c, s, Apply(c, s, Advance), pc.ring);
  }

  lemma ApplyKeepsOk(c: Setup, s: State, step: Step)
    requires Ok(c, s) && Enabled(c, s, step)
    ensures Ok(c, Apply(c, s, step))
  {
    match step
    case KTake(_) =>
    case KComplete(_) =>
    case KDeliver(t, _) => ThreadStepKeepsOk(c, s, step, t);
    case KSend(t, _) => ThreadStepKeepsOk(c, s, step, t);
    case Recv(t, _) => ThreadStepKeepsOk(c, s, step, t);
    case Partition(t, _, _) => ThreadStepKeepsOk(c, s, step, t);
    case Transmit(t) => ThreadStepKeepsOk(c, s, step, t);
    case Push(t) => PushKeepsOk(c, s, t);
    case Look => LookKeepsOk(c, s);
    case Reap(_) => MediatorStepKeepsOk(c, s, step);
    case Refill => MediatorStepKeepsOk(c, s, step);
    case Wrap => MediatorStepKeepsOk(c, s, step);
    case Advance => AdvanceKeepsOk(c, s);
    case ProduceFirst => ProduceKeepsOk(c, s, step, Med(c, s).pc, Med(c, s).pc.ring);
    case ProduceSecond => ProduceKeepsOk(c, s, step, Med(c, s).pc, Med(c, s).pc.ring);
  }

  // ---- Counting frames ----------------------------------------------------------

  /** Occurrences of descriptor `d`. */
  function Occ(xs: seq<Frame>, d: Frame): nat { multiset(xs)[d] }

  function ThreadCount(th: Thread, d: Frame): nat {
    Occ(th.rx, d) + Occ(th.tx, d) + Occ(Window(th), d)
  }

  /** What a ring still owns: pushed, not yet handed to the fill queue. */
  function Pending(r: Ring): seq<Frame> {
    if |r.recycled| <= |r.pushed| then r.pushed[|r.recycled|..] else []
  }

  function ThreadSum(ths: seq<Thread>, d: Frame): nat {
    if ths == [] then 0 else ThreadCount(ths[0], d) + ThreadSum(ths[1..], d)
  }

  function RingSum(rs: seq<Ring>, d: Frame): nat {
    if rs == [] then 0 else Occ(Pending(rs[0]), d) + RingSum(rs[1..], d)
  }

  /** Occurrences of `d` outside the threads and the rings. */
  function Shared(s: State, d: Frame): nat {
    Occ(s.fq, d) + s.nic[d] + s.sending[d] + Occ(s.cq, d) + s.lost[d]
  }

  /** Every occurrence of `d` in the system, wherever it is. */
  function Total(s: State, d: Frame): nat {
    Shared(s, d) + ThreadSum(s.threads, d) + RingSum(s.rings, d)
  }

  lemma {:induction false} ThreadSumUpdate(ths: seq<Thread>, t: nat, th: Thread, d: Frame)
    requires t < |ths|
    ensures ThreadSum(ths[t := th], d) + ThreadCount(ths[t], d) == ThreadSum(ths, d) + ThreadCount(th, d)
  {
    if t > 0 {
      ThreadSumUpdate(ths[1..], t - 1, th, d);
      assert ths[t := th][1..] == ths[1..][t - 1 := th];
    } else {
      assert ths[t := th][1..] == ths[1..];
    }
  }

  lemma {:induction false} RingSumUpdate(rs: seq<Ring>, r: nat, ring: Ring, d: Frame)
    requires r < |rs|
    ensures RingSum(rs[r := ring], d) + Occ(Pending(rs[r]), d) == RingSum(rs, d) + Occ(Pending(ring), d)
  {
    if r > 0 {
      RingSumUpdate(rs[1..], r - 1, ring, d);
      assert rs[r := ring][1..] == rs[1..][r - 1 := ring];
    } else {
      assert rs[r := ring][1..] == rs[1..];
    }
  }

  lemma OccSplit(xs: seq<Frame>, k: nat, d: Frame)
    requires k <= |xs|
    ensures Occ(xs, d) == Occ(xs[..k], d) + Occ(xs[k..], d)
  {
    SplitPrefix(xs, k);
  }

  lemma OccAppend(xs: seq<Frame>, ys: seq<Frame>, d: Frame)
    ensures Occ(xs + ys, d) == Occ(xs, d) + Occ(ys, d)
  {
  }

  /** A step that changes one thread and shared queues by opposite amounts conserves `d`. */
  lemma ThreadMove(s: State, s': State, t: nat, d: Frame)
    requires t < |s.threads| == |s'.threads| && s'.rings == s.rings
    requires s'.threads == s.threads[t := s'.threads[t]]
    requires Shared(s', d) + ThreadCount(s'.threads[t], d) == Shared(s, d) + ThreadCount(s.threads[t], d)
    ensures Total(s', d) == Total(s, d)
  {
    ThreadSumUpdate(s.threads, t, s'.threads[t], d);
  }

  lemma KernelConserves(c: Setup, s: State, step: Step, d: Frame)
    requires Enabled(c, s, step) && (step.KTake? || step.KComplete?)
    ensures Total(Apply(c, s, step), d) == Total(s, d)
  {
    if step.KTake? {
      OccSplit(s.fq, step.k, d);
    } else {
      OccAppend(s.cq, step.ds, d);
    }
  }

  lemma DeliverConserves(c: Setup, s: State, t: nat, ds: seq<Frame>, d: Frame)
    requires Enabled(c, s, KDeliver(t, ds))
    ensures Total(Apply(c, s, KDeliver(t, ds)), d) == Total(s, d)
  {
    OccAppend(s.threads[t].rx, ds, d);
    ThreadMove(s, Apply(c, s, KDeliver(t, ds)), t, d);
  }

  lemma SendConserves(c: Setup, s: State, t: nat, k: nat, d: Frame)
    requires Enabled(c, s, KSend(t, k))
    ensures Total(Apply(c, s, KSend(t, k)), d) == Total(s, d)
  {
    OccSplit(s.threads[t].tx, k, d);
    ThreadMove(s, Apply(c, s, KSend(t, k)), t, d);
  }

  lemma RecvConserves(c: Setup, s: State, t: nat, k: nat, d: Frame)
    requires Enabled(c, s, Recv(t, k))
    ensures Total(Apply(c, s, Recv(t, k)), d) == Total(s, d)
  {
    var s' := Apply(c, s, Recv(t, k));
    OccSplit(s.threads[t].rx, k, d);
    assert Window(s'.threads[t]) == s.threads[t].rx[..k];
    ThreadMove(s, s', t, d);
  }

  lemma PartitionConserves(c: Setup, s: State, step: Step, d: Frame)
    requires Enabled(c, s, step) && step.Partition?
    ensures Total(Apply(c, s, step), d) == Total(s, d)
  {
    ThreadMove(s, Apply(c, s, step), step.t, d);
  }

  lemma WindowSplit(th: Thread, a: nat, k: nat, d: Frame)
    requires th.pc == Partitioned(a, k) && a <= k <= |th.scratch|
    ensures Occ(Window(th), d) == Occ(th.scratch[..a], d) + Occ(Window(th.(pc := Sent(a, k))), d)
  {
    assert th.scratch[..k] == th.scratch[..a] + th.scratch[a..k];
    OccAppend(th.scratch[..a], th.scratch[a..k], d);
  }

  lemma TransmitConserves(c: Setup, s: State, t: nat, th: Thread, s': State, d: Frame)
    requires Enabled(c, s, Transmit(t)) && th == s.threads[t] && ThreadOk(c, t, th) && s' == ApplyTransmit(c, s, t)
    ensures Total(s', d) == Total(s, d)
  {
    var out := th.scratch[..th.pc.numTx];
    WindowSplit(th, th.pc.numTx, th.pc.recvd, d);
    OccAppend(th.tx, out, d);
    assert Occ(Window(s'.threads[t]), d) + Occ(out, d) == Occ(Window(th), d);
    ThreadMove(s, s', t, d);
  }

  /** Writing completions behind the window extends the window by exactly them. */
  lemma WindowGrows(th: Thread, th': Thread, from: nat, at: nat, more: seq<Frame>, d: Frame)
    requires from <= at && at + |more| <= |th.scratch|
    requires Window(th) == th.scratch[from..at]
    requires th'.scratch == th.scratch[..at] + more + th.scratch[at + |more|..]
    requires th'.pc == Completed(from, at + |more|)
    ensures Occ(Window(th'), d) == Occ(Window(th), d) + Occ(more, d)
  {
    assert th'.scratch[from..at + |more|] == th.scratch[from..at] + more;
    OccAppend(th.scratch[from..at], more, d);
  }

  lemma ReapConserves(c: Setup, s: State, s': State, m: nat, from: nat, at: nat, d: Frame)
    requires Enabled(c, s, Reap(m)) && s' == ApplyReap(c, s, m)
    requires from <= at && at + m <= |Med(c, s).scratch| && Window(Med(c, s)) == Med(c, s).scratch[from..at]
    requires if c.mode.FirstThread? then Med(c, s).pc == Sent(from, at) else from == at == 0
    ensures Total(s', d) == Total(s, d)
  {
    OccSplit(s.cq, m, d);
    WindowGrows(Med(c, s), Med(c, s'), from, at, s.cq[..m], d);
    ThreadMove(s, s', Mediator(c), d);
  }

  lemma ReapStepConserves(c: Setup, s: State, m: nat, th: Thread, d: Frame)
    requires Ok(c, s) && Enabled(c, s, Reap(m)) && th == Med(c, s)
    ensures Total(Apply(c, s, Reap(m)), d) == Total(s, d)
  {
    assert ThreadOk(c, Mediator(c), th);
    if c.mode.FirstThread? {
      ReapConserves(c, s, Apply(c, s, Reap(m)), m, th.pc.numTx, th.pc.recvd, d);
    } else {
      ReapConserves(c, s, Apply(c, s, Reap(m)), m, 0, 0, d);
    }
  }

  lemma ProduceCounts(c: Setup, s: State, out: seq<Frame>, d: Frame)
    ensures Shared(Produce(c, s, out), d) == Shared(s, d) + Occ(out, d)
    ensures Produce(c, s, out).threads == s.threads && Produce(c, s, out).rings == s.rings
  {
    OccAppend(s.fq, out, d);
  }

  lemma RefillConserves(c: Setup, s: State, d: Frame)
    requires Enabled(c, s, Refill)
    ensures Total(Apply(c, s, Refill), d) == Total(s, d)
  {
    ProduceCounts(c, s, Window(Med(c, s)), d);
    ThreadMove(s, Apply(c, s, Refill), Mediator(c), d);
  }

  /** The same for a step that also changes one ring. */
  lemma RingMove(s: State, s': State, t: nat, r: nat, th: Thread, ring: Ring, d: Frame)
    requires t < |s.threads| && r < |s.rings|
    requires s'.threads == s.threads[t := th] && s'.rings == s.rings[r := ring]
    requires Shared(s', d) + ThreadCount(th, d) + Occ(Pending(ring), d)
          == Shared(s, d) + ThreadCount(s.threads[t], d) + Occ(Pending(s.rings[r]), d)
    ensures Total(s', d) == Total(s, d)
  {
    ThreadSumUpdate(s.threads, t, th, d);
    RingSumUpdate(s.rings, r, ring, d);
  }

  /** A push of `fit` descriptors lengthens what the ring still holds by exactly them. */
  lemma PendingGrows(ring: Ring, ring': Ring, out: seq<Frame>, fit: nat, d: Frame)
    requires |ring.recycled| <= |ring.pushed| && fit <= |out|
    requires ring' == ring.(pushed := ring.pushed + out[..fit])
    ensures Occ(Pending(ring'), d) + Occ(out[fit..], d) == Occ(Pending(ring), d) + Occ(out, d)
  {
    OccSplit(out, fit, d);
    assert Pending(ring') == Pending(ring) + out[..fit];
    OccAppend(Pending(ring), out[..fit], d);
  }

  lemma PushMoves(s: State, s': State, t: nat, r: nat, th: Thread, ring: Ring, out: seq<Frame>, fit: nat, d: Frame)
    requires t < |s.threads| && r < |s.rings| && fit <= |out| && out == Window(s.threads[t]) && Window(th) == []
    requires |s.rings[r].recycled| <= |s.rings[r].pushed| && th.rx == s.threads[t].rx && th.tx == s.threads[t].tx
    requires ring == s.rings[r].(pushed := s.rings[r].pushed + out[..fit])
    requires s' == s.(threads := s.threads[t := th], rings := s.rings[r := ring], lost := s.lost + multiset(out[fit..]))
    ensures Total(s', d) == Total(s, d)
  {
    PendingGrows(s.rings[r], ring, out, fit, d);
    RingMove(s, s', t, r, th, ring, d);
  }

  lemma PushConserves(c: Setup, s: State, t: nat, d: Frame)
    requires Ok(c, s) && Enabled(c, s, Push(t))
    ensures Total(Apply(c, s, Push(t)), d) == Total(s, d)
  {
    var r := RingOf(c, t);
    var ring := s.rings[r];
    assert RingOk(c, Med(c, s).pc, r, ring);
    var out := Window(s.threads[t]);
    var free := if ring.Occupied() <= c.ringCap then c.ringCap - ring.Occupied() else 0;
    var fit := if |out| <= free then |out| else free;
    PushMoves(s, Apply(c, s, Push(t)), t, r, s.threads[t].(pc := Idle), ring.(pushed := ring.pushed + out[..fit]),
              out, fit, d);
  }

  lemma PcConserves(s: State, t: nat, pc: Pc, d: Frame)
    requires t < |s.threads|
    requires Window(s.threads[t].(pc := pc)) == Window(s.threads[t])
    ensures Total(SetPc(s, t, pc), d) == Total(s, d)
  {
    ThreadMove(s, SetPc(s, t, pc), t, d);
  }

  lemma OccSlice(xs: seq<Frame>, lo: nat, hi: nat, d: Frame)
    requires lo <= hi <= |xs|
    ensures Occ(xs[lo..], d) == Occ(xs[lo..hi], d) + Occ(xs[hi..], d)
  {
    assert xs[lo..] == xs[lo..hi] + xs[hi..];
    OccAppend(xs[lo..hi], xs[hi..], d);
  }

  /** A slice leaves a ring and is offered to the fill queue. */
  lemma RecycleConserves(c: Setup, s: State, r: nat, lo: nat, hi: nat, d: Frame)
    requires r < |s.rings| && lo == |s.rings[r].recycled| && lo <= hi <= |s.rings[r].pushed|
    ensures Total(Recycle(c, s, r, lo, hi), d) == Total(s, d)
    ensures Recycle(c, s, r, lo, hi).threads == s.threads
  {
    var ring := s.rings[r];
    var ring' := ring.(recycled := ring.recycled + ring.pushed[lo..hi]);
    ProduceCounts(c, s, ring.pushed[lo..hi], d);
    OccSlice(ring.pushed, lo, hi, d);
    assert |ring'.recycled| == hi;
    RingSumUpdate(s.rings, r, ring', d);
  }

  lemma DrainMoveConserves(c: Setup, s: State, s': State, r: nat, lo: nat, hi: nat, m: nat, pc: Pc, d: Frame)
    requires r < |s.rings| && lo == |s.rings[r].recycled| && lo <= hi <= |s.rings[r].pushed|
    requires m < |s.threads| && Window(s.threads[m].(pc := pc)) == Window(s.threads[m])
    requires s' == SetPc(Recycle(c, s, r, lo, hi), m, pc)
    ensures Total(s', d) == Total(s, d)
  {
    var mid := Recycle(c, s, r, lo, hi);
    RecycleConserves(c, s, r, lo, hi, d);
    ThreadSumUpdate(mid.threads, m, mid.threads[m].(pc := pc), d);
  }

  lemma ProduceFirstConserves(c: Setup, s: State, r: nat, lo: nat, d: Frame)
    requires Enabled(c, s, ProduceFirst) && r == Med(c, s).pc.ring
    requires lo == s.rings[r].taken == |s.rings[r].recycled|
    ensures Total(Apply(c, s, ProduceFirst), d) == Total(s, d)
  {
    var pc := Med(c, s).pc;
    DrainMoveConserves(c, s, Apply(c, s, ProduceFirst), r, lo, lo + pc.n1, Mediator(c),
                       HalfProduced(r, pc.n1, pc.n2), d);
  }

  lemma ProduceSecondConserves(c: Setup, s: State, r: nat, lo: nat, d: Frame)
    requires Enabled(c, s, ProduceSecond) && r == Med(c, s).pc.ring
    requires lo == s.rings[r].taken + Med(c, s).pc.n1 == |s.rings[r].recycled|
    ensures Total(Apply(c, s, ProduceSecond), d) == Total(s, d)
  {
    var pc := Med(c, s).pc;
    DrainMoveConserves(c, s, Apply(c, s, ProduceSecond), r, lo, lo + pc.n2, Mediator(c), Produced(r, pc.n1, pc.n2), d);
  }

  lemma AdvanceConserves(c: Setup, s: State, d: Frame)
    requires Enabled(c, s, Advance)
    ensures Total(Apply(c, s, Advance), d) == Total(s, d)
  {
    var th := Med(c, s);
    var ring := s.rings[th.pc.ring];
    RingMove(s, Apply(c, s, Advance), Mediator(c), th.pc.ring, th.(pc := Drain(th.pc.ring + 1)),
             ring.(taken := ring.taken + th.pc.n1 + th.pc.n2), d);
  }

  /** Each step moves descriptors between places and neither makes nor destroys one. */
  lemma StepConserves(c: Setup, s: State, step: Step, d: Frame)
    requires Ok(c, s) && Enabled(c, s, step)
    ensures Total(Apply(c, s, step), d) == Total(s, d)
  {
    match step
    case KDeliver(t, ds) => DeliverConserves(c, s, t, ds, d);
    case KSend(t, k) => SendConserves(c, s, t, k, d);
    case Recv(t, k) => RecvConserves(c, s, t, k, d);
    case Partition(_, _, _) => PartitionConserves(c, s, step, d);
    case Transmit(t) => TransmitConserves(c, s, t, s.threads[t], Apply(c, s, step), d);
    case Push(t) => PushConserves(c, s, t, d);
    case Reap(m) => ReapStepConserves(c, s, m, Med(c, s), d);
    case Refill => RefillConserves(c, s, d);
    case Look => PcConserves(s, Mediator(c), Med(c, Apply(c, s, Look)).pc, d);
    case ProduceFirst =>
      var r := Med(c, s).pc.ring;
      assert RingOk(c, Med(c, s).pc, r, s.rings[r]);
      ProduceFirstConserves(c, s, r, |s.rings[r].recycled|, d);
    case ProduceSecond =>
      var r := Med(c, s).pc.ring;
      assert RingOk(c, Med(c, s).pc, r, s.rings[r]);
      ProduceSecondConserves(c, s, r, |s.rings[r].recycled|, d);
    case Advance => AdvanceConserves(c, s, d);
    case Wrap => PcConserves(s, Mediator(c), Idle, d);
    case _ => KernelConserves(c, s, step, d);
  }

  // ---- Whole runs ---------------------------------------------------------------

  lemma {:induction false} NothingHeld(ths: seq<Thread>, rs: seq<Ring>, d: Frame)
    requires forall t :: 0 <= t < |ths| ==> ThreadCount(ths[t], d) == 0
    requires forall r :: 0 <= r < |rs| ==> Occ(Pending(rs[r]), d) == 0
    ensures ThreadSum(ths, d) == 0 && RingSum(rs, d) == 0
    decreases |ths| + |rs|
  {
    if ths != [] { NothingHeld(ths[1..], rs, d); }
    else if rs != [] { NothingHeld(ths, rs[1..], d); }
  }

  lemma {:induction false} AllFramesOnce(n: nat, d: Frame)
    ensures Occ(AllFrames(n), d) == if d < n then 1 else 0
  {
    if n > 0 {
      AllFramesOnce(n - 1, d);
      assert AllFrames(n) == AllFrames(n - 1) + [n - 1];
    }
  }

  lemma InitHoldsNothing(c: Setup, s: State, d: Frame)
    requires s == Init(c)
    ensures ThreadSum(s.threads, d) == 0 && RingSum(s.rings, d) == 0
  {
    forall t | 0 <= t < |s.threads|
      ensures ThreadCount(s.threads[t], d) == 0
    {
      assert s.threads[t].rx == [] && s.threads[t].tx == [] && Window(s.threads[t]) == [];
    }
    forall r | 0 <= r < |s.rings|
      ensures Occ(Pending(s.rings[r]), d) == 0
    {
      assert s.rings[r] == Ring([], 0, []);
    }
    NothingHeld(s.threads, s.rings, d);
  }

  lemma InitTotal(c: Setup, d: Frame)
    ensures Total(Init(c), d) == if d < c.frames then 1 else 0
  {
    var s := Init(c);
    InitHoldsNothing(c, s, d);
    AllFramesOnce(c.frames, d);
    assert Shared(s, d) == Occ(AllFrames(c.frames), d);
  }

  /** Every run keeps the state well formed and conserves every descriptor. */
  lemma {:induction false} RunConserves(c: Setup, sch: Schedule, s: State, steps: seq<Step>, d: Frame)
    requires Ok(c, s) && Runs(c, sch, s, steps)
    ensures Ok(c, Exec(c, sch, s, steps))
    ensures Total(Exec(c, sch, s, steps), d) == Total(s, d)
    decreases |steps|
  {
    if steps != [] {
      var n := |steps| - 1;
      RunConserves(c, sch, s, steps[..n], d);
      var last := Exec(c, sch, s, steps[..n]);
      ApplyKeepsOk(c, last, steps[n]);
      StepConserves(c, last, steps[n], d);
    }
  }

  // ---- Main results -------------------------------------------------------------

  /** In every reachable state of every variant each descriptor has exactly one holder:
      a queue, the kernel, one thread's window, one ring, or the refused ones. */
  lemma FrameConservation(c: Setup, sch: Schedule, s: State, d: Frame)
    requires Reachable(c, sch, s)
    ensures Ok(c, s)
    ensures Total(s, d) == if d < c.frames then 1 else 0
  {
    var steps :| Runs(c, sch, Init(c), steps) && s == Exec(c, sch, Init(c), steps);
    InitOk(c);
    InitTotal(c, d);
    RunConserves(c, sch, Init(c), steps, d);
  }

  /** Descriptors recycled from a ring are a prefix of those pushed to it, in order, and a
      ring nobody is in the middle of draining has recycled exactly what it consumed. */
  lemma RingHandoffIsPrefix(c: Setup, sch: Schedule, s: State, r: nat)
    requires Reachable(c, sch, s) && r < NumRings(c)
    ensures |s.rings| == NumRings(c) && |s.threads| == NumThreads(c)
    ensures |s.rings[r].recycled| <= |s.rings[r].pushed|
    ensures s.rings[r].recycled == s.rings[r].pushed[..|s.rings[r].recycled|]
    ensures !MidDrain(c, s) ==> |s.rings[r].recycled| == s.rings[r].taken
  {
    FrameConservation(c, sch, s, 0);
    assert RingOk(c, Med(c, s).pc, r, s.rings[r]);
  }
}
