/**
  The cost of recovery once packets stop arriving: a measure over all places that no step
  raises and every step that moves a frame lowers.
*/
module Recovery {
  import opened FrameProtocol
  import opened Ownership
  import opened Capacity

  // ---- The measure --------------------------------------------------------------

  function ThreadWeight(th: Thread): nat {
    6 * |th.rx| + 4 * |th.tx| + (if th.pc.Completed? then 1 else 5) * |Window(th)|
  }

  function RingWeight(r: Ring): nat { 4 * |Pending(r)| }

  function ThreadsWeight(ths: seq<Thread>): nat {
    if ths == [] then 0 else ThreadWeight(ths[0]) + ThreadsWeight(ths[1..])
  }

  function RingsWeight(rs: seq<Ring>): nat {
    if rs == [] then 0 else RingWeight(rs[0]) + RingsWeight(rs[1..])
  }

  /** Received frames weigh most, completed ones least, those with the kernel's receive side nothing. */
  function Weight(s: State): nat {
    3 * |s.sending| + 2 * |s.cq| + ThreadsWeight(s.threads) + RingsWeight(s.rings)
  }

  lemma {:induction false} ThreadsWeightUpdate(ths: seq<Thread>, t: nat, th: Thread)
    requires t < |ths|
    ensures ThreadsWeight(ths[t := th]) + ThreadWeight(ths[t]) == ThreadsWeight(ths) + ThreadWeight(th)
  {
    if t > 0 {
      ThreadsWeightUpdate(ths[1..], t - 1, th);
      assert ths[t := th][1..] == ths[1..][t - 1 := th];
    } else {
      assert ths[t := th][1..] == ths[1..];
    }
  }

  lemma {:induction false} RingsWeightUpdate(rs: seq<Ring>, r: nat, ring: Ring)
    requires r < |rs|
    ensures RingsWeight(rs[r := ring]) + RingWeight(rs[r]) == RingsWeight(rs) + RingWeight(ring)
  {
    if r > 0 {
      RingsWeightUpdate(rs[1..], r - 1, ring);
      assert rs[r := ring][1..] == rs[1..][r - 1 := ring];
    } else {
      assert rs[r := ring][1..] == rs[1..];
    }
  }

  /** Does the step carry at least one frame further on its way back? */
  predicate Progresses(c: Setup, s: State, step: Step)
    requires Enabled(c, s, step)
  {
    match step
    case KSend(_, k) => k > 0
    case KComplete(ds) => ds != []
    case Recv(_, k) => k > 0
    case Transmit(t) => s.threads[t].pc.numTx > 0
    case Push(t) => Window(s.threads[t]) != []
    case Reap(m) => m > 0 || Window(Med(c, s)) != []
    case Refill => Window(Med(c, s)) != []
    case ProduceFirst => Med(c, s).pc.n1 > 0
    case ProduceSecond => Med(c, s).pc.n2 > 0
    case _ => false
  }

  // ---- Weight of one step -------------------------------------------------------

  lemma ThreadWeighs(s: State, s': State, t: nat)
    requires t < |s.threads| == |s'.threads| && s'.rings == s.rings
    requires s'.threads == s.threads[t := s'.threads[t]]
    ensures Weight(s') + 3 * |s.sending| + 2 * |s.cq| + ThreadWeight(s.threads[t])
         == Weight(s) + 3 * |s'.sending| + 2 * |s'.cq| + ThreadWeight(s'.threads[t])
  {
    ThreadsWeightUpdate(s.threads, t, s'.threads[t]);
  }

  lemma RingWeighs(s: State, s': State, t: nat, r: nat, th: Thread, ring: Ring)
    requires t < |s.threads| && r < |s.rings|
    requires s'.threads == s.threads[t := th] && s'.rings == s.rings[r := ring]
    requires s'.sending == s.sending && s'.cq == s.cq
    ensures Weight(s') + ThreadWeight(s.threads[t]) + RingWeight(s.rings[r])
         == Weight(s) + ThreadWeight(th) + RingWeight(ring)
  {
    ThreadsWeightUpdate(s.threads, t, th);
    RingsWeightUpdate(s.rings, r, ring);
  }

  ghost predicate Weighs(c: Setup, s: State, step: Step, s': State)
    requires Enabled(c, s, step)
  {
    if Progresses(c, s, step) then Weight(s') < Weight(s) else Weight(s') == Weight(s)
  }

  lemma SendWeighs(c: Setup, s: State, t: nat, k: nat, s': State)
    requires Enabled(c, s, KSend(t, k)) && s' == Apply(c, s, KSend(t, k))
    ensures Weighs(c, s, KSend(t, k), s')
  {
    assert Window(s'.threads[t]) == Window(s.threads[t]);
    ThreadWeighs(s, s', t);
  }

  lemma CompleteWeighs(c: Setup, s: State, ds: seq<Frame>)
    requires Enabled(c, s, KComplete(ds))
    ensures Weighs(c, s, KComplete(ds), Apply(c, s, KComplete(ds)))
  {
    assert |s.sending - multiset(ds)| == |s.sending| - |ds|;
  }

  lemma RecvWeighs(c: Setup, s: State, t: nat, k: nat, s': State)
    requires Enabled(c, s, Recv(t, k)) && s' == Apply(c, s, Recv(t, k))
    ensures Weighs(c, s, Recv(t, k), s')
  {
    ThreadWeighs(s, s', t);
  }

  lemma PartitionWeighs(c: Setup, s: State, step: Step, t: nat, s': State)
    requires Enabled(c, s, step) && step.Partition? && t == step.t && s' == Apply(c, s, step)
    ensures Weighs(c, s, step, s')
  {
    ThreadWeighs(s, s', t);
  }

  lemma TransmitWeighs(c: Setup, s: State, t: nat, s': State)
    requires Ok(c, s) && Enabled(c, s, Transmit(t)) && s' == Apply(c, s, Transmit(t))
    ensures Weighs(c, s, Transmit(t), s')
  {
    var th, th' := s.threads[t], s'.threads[t];
    assert ThreadOk(c, t, th);
    assert |Window(th)| == th.pc.numTx + |Window(th')|;
    ThreadWeighs(s, s', t);
  }

  lemma PushWeighs(c: Setup, s: State, t: nat)
    requires Ok(c, s) && Enabled(c, s, Push(t))
    ensures Weighs(c, s, Push(t), Apply(c, s, Push(t)))
  {
    var s' := Apply(c, s, Push(t));
    var r := RingOf(c, t);
    var ring := s.rings[r];
    assert RingOk(c, Med(c, s).pc, r, ring);
    RingWeighs(s, s', t, r, s'.threads[t], s'.rings[r]);
  }

  lemma ReapWeighs(c: Setup, s: State, m: nat, th: Thread, s': State)
    requires Ok(c, s) && Enabled(c, s, Reap(m)) && th == Med(c, s) && s' == Apply(c, s, Reap(m))
    ensures Weighs(c, s, Reap(m), s')
  {
    assert ThreadOk(c, Mediator(c), th);
    assert |Window(Med(c, s'))| == |Window(th)| + m;
    ThreadWeighs(s, s', Mediator(c));
  }

  lemma RefillWeighs(c: Setup, s: State, s': State)
    requires Ok(c, s) && Enabled(c, s, Refill) && s' == Apply(c, s, Refill)
    ensures Weighs(c, s, Refill, s')
  {
    ThreadWeighs(s, s', Mediator(c));
  }

  lemma DrainMoveWeighs(c: Setup, s: State, s': State, r: nat, lo: nat, hi: nat, m: nat, pc: Pc)
    requires r < |s.rings| && lo == |s.rings[r].recycled| && lo <= hi <= |s.rings[r].pushed|
    requires m < |s.threads| && Window(s.threads[m].(pc := pc)) == Window(s.threads[m]) == []
    requires s' == SetPc(Recycle(c, s, r, lo, hi), m, pc)
    ensures Weight(s') + 4 * (hi - lo) == Weight(s)
  {
    var ring := s.rings[r].(recycled := s.rings[r].recycled + s.rings[r].pushed[lo..hi]);
    assert |Pending(ring)| + (hi - lo) == |Pending(s.rings[r])|;
    RingWeighs(s, s', m, r, s.threads[m].(pc := pc), ring);
  }

  lemma ProduceFirstWeighs(c: Setup, s: State, r: nat, lo: nat, pc: Pc, s': State)
    requires Enabled(c, s, ProduceFirst) && pc == Med(c, s).pc && r == pc.ring
    requires lo == s.rings[r].taken == |s.rings[r].recycled| && s' == Apply(c, s, ProduceFirst)
    ensures Weighs(c, s, ProduceFirst, s')
  {
    DrainMoveWeighs(c, s, s', r, lo, lo + pc.n1, Mediator(c), HalfProduced(r, pc.n1, pc.n2));
  }

  lemma ProduceSecondWeighs(c: Setup, s: State, r: nat, lo: nat, pc: Pc, s': State)
    requires Enabled(c, s, ProduceSecond) && pc == Med(c, s).pc && r == pc.ring
    requires lo == s.rings[r].taken + pc.n1 == |s.rings[r].recycled| && s' == Apply(c, s, ProduceSecond)
    ensures Weighs(c, s, ProduceSecond, s')
  {
    DrainMoveWeighs(c, s, s', r, lo, lo + pc.n2, Mediator(c), Produced(r, pc.n1, pc.n2));
  }

  lemma AdvanceWeighs(c: Setup, s: State, r: nat, pc: Pc, s': State)
    requires Enabled(c, s, Advance)
    requires pc == Med(c, s).pc && r == pc.ring && s' == Apply(c, s, Advance)
    ensures Weighs(c, s, Advance, s')
  {
    RingWeighs(s, s', Mediator(c), r, Med(c, s).(pc := Drain(r + 1)),
               s.rings[r].(taken := s.rings[r].taken + pc.n1 + pc.n2));
  }

  lemma PositionWeighs(c: Setup, s: State, step: Step, s': State)
    requires Ok(c, s) && Enabled(c, s, step) && (step.Look? || step.Wrap?) && s' == Apply(c, s, step)
    ensures Weighs(c, s, step, s')
  {
    ThreadWeighs(s, s', Mediator(c));
  }

  /** With no new arrivals the measure never rises, and it falls on every step that moves a frame. */
  lemma StepWeighs(c: Setup, s: State, step: Step)
    requires Ok(c, s) && Enabled(c, s, step) && NoArrival(step)
    ensures if Progresses(c, s, step) then Weight(Apply(c, s, step)) < Weight(s)
            else Weight(Apply(c, s, step)) == Weight(s)
  {
    match step
    case KSend(t, k) => SendWeighs(c, s, t, k, Apply(c, s, step));
    case KComplete(ds) => CompleteWeighs(c, s, ds);
    case Push(t) => PushWeighs(c, s, t);
    case Reap(m) => ReapWeighs(c, s, m, Med(c, s), Apply(c, s, step));
    case Refill => RefillWeighs(c, s, Apply(c, s, step));
    case Look => PositionWeighs(c, s, step, Apply(c, s, step));
    case Wrap => PositionWeighs(c, s, step, Apply(c, s, step));
    case ProduceFirst =>
      var r := Med(c, s).pc.ring;
      assert RingOk(c, Med(c, s).pc, r, s.rings[r]);
      ProduceFirstWeighs(c, s, r, |s.rings[r].recycled|, Med(c, s).pc, Apply(c, s, step));
    case ProduceSecond =>
      var r := Med(c, s).pc.ring;
      assert RingOk(c, Med(c, s).pc, r, s.rings[r]);
      ProduceSecondWeighs(c, s, r, |s.rings[r].recycled|, Med(c, s).pc, Apply(c, s, step));
    case Advance => AdvanceWeighs(c, s, Med(c, s).pc.ring, Med(c, s).pc, Apply(c, s, step));
    case Recv(t, k) => RecvWeighs(c, s, t, k, Apply(c, s, step));
    case Partition(t, _, _) => PartitionWeighs(c, s, step, t, Apply(c, s, step));
    case Transmit(t) => TransmitWeighs(c, s, t, Apply(c, s, step));
  }

  // ---- Main results -------------------------------------------------------------

  ghost predicate NothingOut(s: State) {
    && s.sending == multiset{} && s.cq == []
    && (forall t :: 0 <= t < |s.threads| ==>
          s.threads[t].rx == [] && s.threads[t].tx == [] && Window(s.threads[t]) == [])
    && (forall r :: 0 <= r < |s.rings| ==> Pending(s.rings[r]) == [])
  }

  lemma {:induction false} NoThreadWeight(ths: seq<Thread>)
    ensures ThreadsWeight(ths) == 0 <==> forall t :: 0 <= t < |ths| ==> ThreadWeight(ths[t]) == 0
  {
    if ths != [] {
      NoThreadWeight(ths[1..]);
      assert ThreadsWeight(ths) == ThreadWeight(ths[0]) + ThreadsWeight(ths[1..]);
      assert forall t :: 0 < t < |ths| ==> ths[t] == ths[1..][t - 1];
    }
  }

  lemma {:induction false} NoRingWeight(rs: seq<Ring>)
    ensures RingsWeight(rs) == 0 <==> forall r :: 0 <= r < |rs| ==> RingWeight(rs[r]) == 0
  {
    if rs != [] {
      NoRingWeight(rs[1..]);
      assert RingsWeight(rs) == RingWeight(rs[0]) + RingsWeight(rs[1..]);
      assert forall r :: 0 < r < |rs| ==> rs[r] == rs[1..][r - 1];
    }
  }

  lemma ZeroWeight(s: State)
    ensures Weight(s) == 0 <==> NothingOut(s)
  {
    NoThreadWeight(s.threads);
    NoRingWeight(s.rings);
    if NothingOut(s) {
      assert forall t :: 0 <= t < |s.threads| ==> ThreadWeight(s.threads[t]) == 0;
      assert forall r :: 0 <= r < |s.rings| ==> RingWeight(s.rings[r]) == 0;
    }
    if Weight(s) == 0 {
      assert forall t :: 0 <= t < |s.threads| ==> ThreadWeight(s.threads[t]) == 0;
      assert forall r :: 0 <= r < |s.rings| ==> RingWeight(s.rings[r]) == 0;
    }
  }

  /** Every frame that was not lost is with the kernel's receive side. */
  ghost predicate AllHome(c: Setup, s: State) {
    forall d: Frame :: Occ(s.fq, d) + s.nic[d] + s.lost[d] == if d < c.frames then 1 else 0
  }

  lemma NothingOutIsHome(c: Setup, s: State)
    requires Conserved(c, s) && NothingOut(s)
    ensures AllHome(c, s)
  {
    forall d: Frame
      ensures Occ(s.fq, d) + s.nic[d] + s.lost[d] == if d < c.frames then 1 else 0
    {
      NothingHeld(s.threads, s.rings, d);
      assert Total(s, d) == if d < c.frames then 1 else 0;
    }
  }

  /** Number of frame-moving steps of a run. */
  ghost function Moves(c: Setup, sch: Schedule, s: State, steps: seq<Step>): nat
    requires Runs(c, sch, s, steps)
    decreases |steps|
  {
    if steps == [] then 0
    else
      var n := |steps| - 1;
      Moves(c, sch, s, steps[..n]) + if Progresses(c, Exec(c, sch, s, steps[..n]), steps[n]) then 1 else 0
  }

  /** Whatever the threads do meanwhile, a run without arrivals moves frames at most
      `Weight(s)` times, each move spending some of the measure. */
  lemma {:induction false} MovesAreBounded(c: Setup, sch: Schedule, s: State, steps: seq<Step>)
    requires Ok(c, s) && Runs(c, sch, s, steps)
    requires Calm(steps)
    ensures Ok(c, Exec(c, sch, s, steps))
    ensures Moves(c, sch, s, steps) + Weight(Exec(c, sch, s, steps)) <= Weight(s)
    decreases |steps|
  {
    if steps != [] {
      var n := |steps| - 1;
      MovesAreBounded(c, sch, s, steps[..n]);
      var last := Exec(c, sch, s, steps[..n]);
      ApplyKeepsOk(c, last, steps[n]);
      StepWeighs(c, last, steps[n]);
    }
  }
}
