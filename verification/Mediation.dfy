/**
  The loops that hand frames back: one pass of each of them, on the real queues, is a run of
  the frame protocol.
*/
module Mediation {
  import opened Basics
  import opened Execution
  import opened FrameProtocol
  import opened Ownership
  import opened Capacity
  import opened Dataplane

  /** A kernel queue after an offer: all of it or none of it. */
  function Offer(cap: nat, queue: seq<Frame>, descs: seq<Frame>): (r: seq<Frame>) {
    if |queue| + |descs| <= cap then queue + descs else queue
  }

  /** The fill and completion queues, held by the one thread that mediates. */
  class UmemMediate {
    const fqCap: nat
    var fq: seq<Frame>
    var cq: seq<Frame>

    constructor (fqCap: nat)
      ensures this.fqCap == fqCap && fq == [] && cq == []
    {
      this.fqCap := fqCap;
      fq, cq := [], [];
    }

    /** Offers descriptors to the kernel: all of them if they fit, else none. */
    method Produce(descs: seq<Frame>)
      modifies this`fq
      ensures fq == Offer(fqCap, old(fq), descs)
    {
      if |fq| + |descs| <= fqCap { fq := fq + descs; }
    }

    /** Takes `m` completed descriptors into the scratch array from index `at` on. */
    method Consume(frames: array<Frame>, at: nat, m: nat)
      requires m <= |cq| && at + m <= frames.Length
      modifies this`cq, frames
      ensures frames[..] == old(frames[..at]) + old(cq)[..m] + old(frames[at + m..])
      ensures cq == old(cq)[m..]
    {
      var i := 0;
      while i < m
        invariant i <= m && cq == old(cq)
        invariant frames[..at] == old(frames[..at]) && frames[at..at + i] == cq[..i]
        invariant frames[at + i..] == old(frames[at + i..])
      {
        frames[at + i] := cq[i];
        i := i + 1;
      }
      assert frames[..] == frames[..at] + frames[at..at + m] + frames[at + m..];
      cq := cq[m..];
    }
  }

  /** A single-producer single-consumer ring of descriptors. */
  class DescRing {
    const cap: nat
    var pushed: seq<Frame>
    var taken: nat

    constructor (cap: nat)
      ensures this.cap == cap && pushed == [] && taken == 0
    {
      this.cap := cap;
      pushed, taken := [], 0;
    }

    ghost predicate Valid() reads this { taken <= |pushed| <= taken + cap }

    function Len(): nat
      reads this
      requires Valid()
    {
      |pushed| - taken
    }

    /** Pushes as many descriptors as there is room for. */
    method PushSlice(descs: seq<Frame>)
      requires Valid()
      modifies this`pushed
      ensures Valid()
      ensures var free := cap - (|old(pushed)| - taken);
        pushed == old(pushed) + descs[..if |descs| <= free then |descs| else free]
    {
      var free := cap - (|pushed| - taken);
      var fit := if |descs| <= free then |descs| else free;
      pushed := pushed + descs[..fit];
    }

    /** The occupied region as its two contiguous parts. */
    method AsSlices() returns (s1: seq<Frame>, s2: seq<Frame>)
      requires Valid() && Len() > 0
      ensures s1 + s2 == pushed[taken..]
      ensures (|s1|, |s2|) == Slices(cap, Ring(pushed, taken, []))
    {
      var room := cap - taken % cap;
      var n := |pushed| - taken;
      if n <= room { return pushed[taken..], []; }
      s1, s2 := pushed[taken..taken + room], pushed[taken + room..];
      assert s1 + s2 == pushed[taken..];
    }

    method Advance(n: nat)
      requires Valid() && n <= Len()
      modifies this`taken
      ensures Valid() && taken == old(taken) + n
    {
      taken := taken + n;
    }
  }

  // ---- Objects and protocol state ------------------------------------------------

  /** Worker `t` of the protocol state is the socket `xsk`. */
  ghost predicate IsThread(c: Setup, s: State, t: nat, xsk: XskData, pc: Pc)
    reads xsk, xsk.frames
  {
    && Shaped(c, s) && t < NumThreads(c)
    && s.threads[t] == Thread(xsk.rx, xsk.tx, xsk.frames[..], pc) && xsk.txCap == c.txCap
  }

  ghost predicate HasQueues(c: Setup, s: State, med: UmemMediate)
    reads med
  {
    s.fq == med.fq && s.cq == med.cq && med.fqCap == c.fqCap
  }

  /** Ring `r` of the protocol state is the object `ring`. */
  ghost predicate IsRing(c: Setup, s: State, r: nat, ring: DescRing)
    reads ring
  {
    && r < |s.rings| && ring.cap == c.ringCap && ring.Valid()
    && s.rings[r].pushed == ring.pushed && s.rings[r].taken == ring.taken
  }

  /** From `s` to `s'` only thread `t` moved, and at most frames were lost. */
  ghost predicate OnlyThread(s: State, s': State, t: nat) {
    && t < |s.threads| == |s'.threads|
    && s' == s.(threads := s.threads[t := s'.threads[t]], lost := s'.lost)
  }

  // ---- The part that every worker's loop starts with ------------------------------

  /** Receiving, on one thread. */
  lemma RecvMoves(c: Setup, s: State, t: nat, th: Thread, q: seq<Frame>, s': State)
    requires Shaped(c, s) && IsWorker(c, t) && s.threads[t] == th && th.pc == Idle
    requires q <= th.rx && |q| <= |th.scratch|
    requires s' == SetThread(s, t, Thread(th.rx[|q|..], th.tx, q + th.scratch[|q|..], Received(|q|)))
    ensures Enabled(c, s, Recv(t, |q|)) && s' == Apply(c, s, Recv(t, |q|))
  {
    assert th.rx[..|q|] == q;
  }

  /** Partitioning `q` into the kept and the dropped, on one thread. */
  lemma PartitionMoves(c: Setup, s: State, t: nat, th: Thread, q: seq<Frame>, kept: seq<Frame>, dropped: seq<Frame>,
                       b: seq<Frame>, numTx: nat, s': State)
    requires Shaped(c, s) && IsWorker(c, t) && s.threads[t] == th && th.pc == Received(|q|)
    requires multiset(kept) + multiset(dropped) == multiset(q)
    requires numTx <= |q| <= |th.scratch| == |b| && th.scratch[..|q|] == q && b[|q|..] == th.scratch[|q|..]
    requires b[..numTx] == kept && b[numTx..|q|] == Reverse(dropped)
    requires s' == SetThread(s, t, th.(scratch := b, pc := Partitioned(numTx, |q|)))
    ensures Enabled(c, s, Step.Partition(t, b, numTx)) && s' == Apply(c, s, Step.Partition(t, b, numTx))
  {
    PermutesIsStep(c, s, t, q, b, numTx, kept, dropped);
  }

  lemma TwoSteps(c: Setup, s: State, t: nat, th: Thread, q: seq<Frame>, kept: seq<Frame>, dropped: seq<Frame>,
                 b: seq<Frame>, numTx: nat) returns (s': State)
    requires Shaped(c, s) && IsWorker(c, t) && s.threads[t] == th && th.pc == Idle && q <= th.rx
    requires multiset(kept) + multiset(dropped) == multiset(q)
    requires numTx <= |q| <= |th.scratch| == |b| && b[|q|..] == th.scratch[|q|..]
    requires b[..numTx] == kept && b[numTx..|q|] == Reverse(dropped)
    ensures Leads(c, AnyOrder, false, s, s') && OnlyThread(s, s', t) && s'.lost == s.lost
    ensures s'.threads[t] == Thread(th.rx[|q|..], th.tx, b, Partitioned(numTx, |q|))
  {
    var got := q + th.scratch[|q|..];
    assert got[..|q|] == q && got[|q|..] == th.scratch[|q|..];
    var th1 := Thread(th.rx[|q|..], th.tx, got, Received(|q|));
    var s1 := SetThread(s, t, th1);
    RecvMoves(c, s, t, th, q, s1);
    s' := SetThread(s1, t, th1.(scratch := b, pc := Partitioned(numTx, |q|)));
    PartitionMoves(c, s1, t, th1, q, kept, dropped, b, numTx, s');
    LeadsNowhere(c, AnyOrder, false, s);
    LeadsOn(c, AnyOrder, false, s, s, Recv(t, |q|), s1);
    LeadsOn(c, AnyOrder, false, s, s1, Step.Partition(t, b, numTx), s');
    assert s1.threads[t := s'.threads[t]] == s.threads[t := s'.threads[t]];
  }

  /** Receiving and partitioning, as protocol steps on values. */
  lemma CoreIsTwoSteps<K(!new), S(!new)>(
      c: Setup, s: State, t: nat, th: Thread, q: seq<Frame>, b: seq<Frame>, numTx: nat,
      rt: Runtime, nf: NfOver<K, S>, mem: Memory<K>, world: S, r: Processed<K, S>)
    returns (s': State)
    requires Shaped(c, s) && IsWorker(c, t) && s.threads[t] == th && th.pc == Idle && q <= th.rx
    requires numTx <= |q| <= |th.scratch| == |b|
    requires Smooth(rt, nf, q, mem, world) && r == Process(rt, nf, q, mem, world)
    requires b[..numTx] == r.kept && b[numTx..|q|] == Reverse(r.dropped) && b[|q|..] == th.scratch[|q|..]
    ensures Leads(c, AnyOrder, false, s, s') && OnlyThread(s, s', t) && s'.lost == s.lost
    ensures s'.threads[t] == Thread(th.rx[|q|..], th.tx, b, Partitioned(numTx, |q|))
  {
    PassPartitions(rt, nf, q, mem, world);
    s' := TwoSteps(c, s, t, th, q, r.kept, r.dropped, b, numTx);
  }

  lemma TransmitIsOneStep(c: Setup, s0: State, s: State, t: nat, numTx: nat, k: nat) returns (s': State)
    requires Leads(c, AnyOrder, false, s0, s) && OnlyThread(s0, s, t) && Shaped(c, s) && IsWorker(c, t)
    requires s.threads[t].pc == Partitioned(numTx, k) && numTx <= |s.threads[t].scratch|
    ensures Leads(c, AnyOrder, false, s0, s') && OnlyThread(s0, s', t)
    ensures var th := s.threads[t]; var out := th.scratch[..numTx];
      s'.threads[t] == th.(tx := Offer(c.txCap, th.tx, out), pc := Sent(numTx, k))
  {
    LeadsOn(c, AnyOrder, false, s0, s, Step.Transmit(t), Apply(c, s, Step.Transmit(t)));
    s' := Apply(c, s, Step.Transmit(t));
    assert s.threads[t := s'.threads[t]] == s0.threads[t := s'.threads[t]];
  }

  /** Receive, decide, and put the packets to send on the tx queue. */
  method ReceiveAndSend<K(!new), S(!new)>(xsk: XskData, host: Host<K, S>, rt: Runtime, nf: NfOver<K, S>, k: nat,
                                          ghost c: Setup, ghost s: State, ghost t: nat)
    returns (numTx: nat, recvd: nat, ghost s': State)
    requires k <= |xsk.rx| && k <= xsk.frames.Length && Smooth(rt, nf, xsk.rx[..k], host.mem, host.world)
    requires IsThread(c, s, t, xsk, Idle) && IsWorker(c, t)
    modifies xsk`rx, xsk`tx, xsk.frames, host
    ensures recvd == k && numTx <= k && xsk.rx == old(xsk.rx)[k..] && xsk.frames[k..] == old(xsk.frames[k..])
    ensures var r := Process(rt, nf, old(xsk.rx)[..k], old(host.mem), old(host.world));
      && xsk.tx == Offer(xsk.txCap, old(xsk.tx), r.kept)
      && xsk.frames[numTx..k] == Reverse(r.dropped) && host.mem == r.mem && host.world == r.world
    ensures Leads(c, AnyOrder, false, s, s') && OnlyThread(s, s', t) && IsThread(c, s', t, xsk, Sent(numTx, k))
  {
    ghost var th := s.threads[t];
    ghost var q, mem, world := xsk.rx[..k], host.mem, host.world;
    ghost var r := Process(rt, nf, q, mem, world);
    numTx, recvd := DataplaneCore(xsk, host, rt, nf, k);
    ghost var s1 := CoreIsTwoSteps(c, s, t, th, q, xsk.frames[..], numTx, rt, nf, mem, world, r);
    var sent := xsk.Produce(xsk.frames[..numTx]);
    s' := TransmitIsOneStep(c, s, s1, t, numTx, k);
  }

  // ---- Handing back what was dropped and what was sent -----------------------------

  /** From `s` to `s'` only the mediator and its queues moved: no ring, no other thread. */
  ghost predicate OnlyMediator(c: Setup, s: State, s': State) {
    Shaped(c, s) && Shaped(c, s')
    && s' == s.(threads := s.threads[Mediator(c) := Med(c, s')], fq := s'.fq, cq := s'.cq, lost := s'.lost)
  }

  lemma ReapMoves(c: Setup, s: State, from: nat, at: nat, m: nat)
    requires Shaped(c, s) && m <= |s.cq| && at + m <= |Med(c, s).scratch|
    requires if c.mode.FirstThread? then Med(c, s).pc == Sent(from, at)
             else Med(c, s).pc == Drain(NumRings(c)) && from == at == 0
    ensures Enabled(c, s, Reap(m))
    ensures var th := Med(c, s);
      var a := th.scratch[..at] + s.cq[..m] + th.scratch[at + m..];
      Apply(c, s, Reap(m))
      == s.(cq := s.cq[m..], threads := s.threads[Mediator(c) := th.(scratch := a, pc := Completed(from, at + m))])
  {
  }

  lemma RefillMoves(c: Setup, s: State, from: nat, upto: nat)
    requires Shaped(c, s) && Med(c, s).pc == Completed(from, upto) && from <= upto <= |Med(c, s).scratch|
    ensures Enabled(c, s, Refill)
    ensures var s' := Apply(c, s, Refill);
      && s'.fq == Offer(c.fqCap, s.fq, Med(c, s).scratch[from..upto])
      && s' == s.(fq := s'.fq, lost := s'.lost, threads := s.threads[Mediator(c) := Med(c, s).(pc := AfterRefill(c))])
  {
  }

  /** The mediator collects `m` completions behind index `at` and gives back everything from
      index `from` on, as protocol steps on values. */
  lemma HandBackIsTwoSteps(c: Setup, s0: State, s: State, from: nat, at: nat, m: nat) returns (s': State)
    requires Leads(c, AnyOrder, false, s0, s) && Shaped(c, s) && from <= at && at + m <= |Med(c, s).scratch|
    requires m <= |s.cq|
    requires if c.mode.FirstThread? then Med(c, s).pc == Sent(from, at)
             else Med(c, s).pc == Drain(NumRings(c)) && from == at == 0
    ensures Leads(c, AnyOrder, false, s0, s') && OnlyMediator(c, s, s')
    ensures var a := Med(c, s).scratch[..at] + s.cq[..m] + Med(c, s).scratch[at + m..];
      && Med(c, s') == Med(c, s).(scratch := a, pc := AfterRefill(c))
      && s'.cq == s.cq[m..] && s'.fq == Offer(c.fqCap, s.fq, a[from..at + m])
  {
    ReapMoves(c, s, from, at, m);
    LeadsOn(c, AnyOrder, false, s0, s, Reap(m), Apply(c, s, Reap(m)));
    var s1 := Apply(c, s, Reap(m));
    RefillMoves(c, s1, from, at + m);
    LeadsOn(c, AnyOrder, false, s0, s1, Refill, Apply(c, s1, Refill));
    s' := Apply(c, s1, Refill);
    assert s1.threads[Mediator(c) := Med(c, s')] == s.threads[Mediator(c) := Med(c, s')];
  }

  /** Collects what the kernel has sent behind the dropped frames and gives both back. */
  method HandBack(xsk: XskData, med: UmemMediate, numTx: nat, recvd: nat, m: nat,
                  ghost c: Setup, ghost s0: State, ghost s: State)
    returns (ghost s': State)
    requires numTx <= recvd && recvd + m <= xsk.frames.Length && m <= |med.cq|
    requires c.mode.FirstThread? && Leads(c, AnyOrder, false, s0, s)
    requires IsThread(c, s, 0, xsk, Sent(numTx, recvd)) && HasQueues(c, s, med)
    modifies xsk.frames, med`fq, med`cq
    ensures med.cq == old(med.cq)[m..]
    ensures med.fq == Offer(med.fqCap, old(med.fq), old(xsk.frames[numTx..recvd]) + old(med.cq)[..m])
    ensures Leads(c, AnyOrder, false, s0, s') && OnlyMediator(c, s, s')
    ensures IsThread(c, s', 0, xsk, AfterRefill(c)) && HasQueues(c, s', med)
  {
    ghost var a := xsk.frames[..];
    ghost var cq := med.cq;
    s' := HandBackIsTwoSteps(c, s0, s, numTx, recvd, m);
    med.Consume(xsk.frames, recvd, m);
    assert xsk.frames[..] == a[..recvd] + cq[..m] + a[recvd + m..];
    assert xsk.frames[numTx..recvd + m] == a[numTx..recvd] + cq[..m];
    med.Produce(xsk.frames[numTx..recvd + m]);
  }

  // ---- Draining the rings ---------------------------------------------------------

  /** The fill queue after the two offers of one ring drain. */
  function DrainedOne(c: Setup, fq: seq<Frame>, ring: Ring): seq<Frame>
    requires ring.taken <= |ring.pushed|
  {
    var (n1, n2) := Slices(c.ringCap, ring);
    var held := ring.pushed[ring.taken..];
    if |held| == 0 then fq else Offer(c.fqCap, Offer(c.fqCap, fq, held[..n1]), held[n1..])
  }

  /** A move of the mediator's drain of ring `r`: its program counter, the fill queue and the
      ring's read position change, and nothing else does. */
  ghost predicate DrainMove(c: Setup, s: State, s': State, r: nat, pc: Pc, fq: seq<Frame>, taken: nat) {
    && Shaped(c, s) && Shaped(c, s') && r < |s.rings|
    && s'.fq == fq && s'.cq == s.cq
    && s'.threads == s.threads[Mediator(c) := Med(c, s).(pc := pc)]
    && (forall q :: 0 <= q < |s.rings| && q != r ==> s'.rings[q] == s.rings[q])
    && s'.rings[r].pushed == s.rings[r].pushed && s'.rings[r].taken == taken
  }

  lemma DrainMoves(c: Setup, s: State, s': State, s'': State, r: nat, pc': Pc, fq': seq<Frame>, taken': nat,
                   pc'': Pc, fq'': seq<Frame>, taken'': nat)
    requires DrainMove(c, s, s', r, pc', fq', taken') && DrainMove(c, s', s'', r, pc'', fq'', taken'')
    ensures DrainMove(c, s, s'', r, pc'', fq'', taken'')
  {
  }

  lemma LookMoves(c: Setup, s: State, r: nat)
    requires Shaped(c, s) && r < NumRings(c) && Med(c, s).pc == Drain(r)
    ensures Enabled(c, s, Look)
    ensures var (n1, n2) := Slices(c.ringCap, s.rings[r]);
      var pc := if s.rings[r].Occupied() == 0 then Drain(r + 1) else Sliced(r, n1, n2);
      DrainMove(c, s, Apply(c, s, Look), r, pc, s.fq, s.rings[r].taken)
  {
  }

  lemma FirstMoves(c: Setup, s: State, r: nat, n1: nat, n2: nat)
    requires Shaped(c, s) && r < NumRings(c) && Med(c, s).pc == Sliced(r, n1, n2)
    requires s.rings[r].taken + n1 + n2 <= |s.rings[r].pushed|
    ensures Enabled(c, s, ProduceFirst)
    ensures var ring := s.rings[r];
      DrainMove(c, s, Apply(c, s, ProduceFirst), r, HalfProduced(r, n1, n2),
                Offer(c.fqCap, s.fq, ring.pushed[ring.taken..ring.taken + n1]), ring.taken)
  {
  }

  lemma SecondMoves(c: Setup, s: State, r: nat, n1: nat, n2: nat)
    requires Shaped(c, s) && r < NumRings(c) && Med(c, s).pc == HalfProduced(r, n1, n2)
    requires s.rings[r].taken + n1 + n2 <= |s.rings[r].pushed|
    ensures Enabled(c, s, ProduceSecond)
    ensures var ring := s.rings[r]; var from := ring.taken + n1;
      DrainMove(c, s, Apply(c, s, ProduceSecond), r, Produced(r, n1, n2),
                Offer(c.fqCap, s.fq, ring.pushed[from..from + n2]), ring.taken)
  {
  }

  lemma AdvanceMoves(c: Setup, s: State, r: nat, n1: nat, n2: nat)
    requires Shaped(c, s) && r < NumRings(c) && Med(c, s).pc == Produced(r, n1, n2)
    requires s.rings[r].taken + n1 + n2 <= |s.rings[r].pushed|
    ensures Enabled(c, s, Advance)
    ensures DrainMove(c, s, Apply(c, s, Advance), r, Drain(r + 1), s.fq, s.rings[r].taken + n1 + n2)
  {
  }

  lemma FirstHalf(c: Setup, s0: State, s: State, r: nat, n1: nat, n2: nat, ring: Ring,
                  fq1: seq<Frame>) returns (s': State)
    requires Leads(c, AnyOrder, false, s0, s) && Shaped(c, s) && r < NumRings(c) && Med(c, s).pc == Drain(r)
    requires ring == s.rings[r]
    requires ring.taken < |ring.pushed| == ring.taken + n1 + n2 && (n1, n2) == Slices(c.ringCap, ring)
    requires fq1 == Offer(c.fqCap, s.fq, ring.pushed[ring.taken..ring.taken + n1])
    ensures Leads(c, AnyOrder, false, s0, s') && DrainMove(c, s, s', r, HalfProduced(r, n1, n2), fq1, ring.taken)
  {
    LookMoves(c, s, r);
    LeadsOn(c, AnyOrder, false, s0, s, Look, Apply(c, s, Look));
    var s1 := Apply(c, s, Look);
    FirstMoves(c, s1, r, n1, n2);
    LeadsOn(c, AnyOrder, false, s0, s1, ProduceFirst, Apply(c, s1, ProduceFirst));
    s' := Apply(c, s1, ProduceFirst);
    DrainMoves(c, s, s1, s', r, Sliced(r, n1, n2), s.fq, ring.taken, HalfProduced(r, n1, n2), fq1, ring.taken);
  }

  lemma SecondHalf(c: Setup, s0: State, s: State, r: nat, n1: nat, n2: nat, ring: Ring,
                   fq2: seq<Frame>) returns (s': State)
    requires Leads(c, AnyOrder, false, s0, s) && Shaped(c, s) && r < NumRings(c)
    requires Med(c, s).pc == HalfProduced(r, n1, n2)
    requires ring == s.rings[r] && |ring.pushed| == ring.taken + n1 + n2
    requires fq2 == Offer(c.fqCap, s.fq, ring.pushed[ring.taken + n1..])
    ensures Leads(c, AnyOrder, false, s0, s') && DrainMove(c, s, s', r, Drain(r + 1), fq2, |ring.pushed|)
  {
    assert ring.pushed[ring.taken + n1..] == ring.pushed[ring.taken + n1..ring.taken + n1 + n2];
    SecondMoves(c, s, r, n1, n2);
    LeadsOn(c, AnyOrder, false, s0, s, ProduceSecond, Apply(c, s, ProduceSecond));
    var s1 := Apply(c, s, ProduceSecond);
    AdvanceMoves(c, s1, r, n1, n2);
    LeadsOn(c, AnyOrder, false, s0, s1, Advance, Apply(c, s1, Advance));
    s' := Apply(c, s1, Advance);
    DrainMoves(c, s, s1, s', r, Produced(r, n1, n2), fq2, ring.taken, Drain(r + 1), fq2, |ring.pushed|);
  }

  /** A drain of ring `r`, on values: a run that empties the ring. */
  lemma DrainIsARun(c: Setup, s0: State, s: State, r: nat, ring: Ring) returns (s': State)
    requires Leads(c, AnyOrder, false, s0, s) && Shaped(c, s) && r < NumRings(c) && Med(c, s).pc == Drain(r)
    requires ring == s.rings[r]
    requires ring.taken <= |ring.pushed|
    ensures Leads(c, AnyOrder, false, s0, s')
    ensures DrainMove(c, s, s', r, Drain(r + 1), DrainedOne(c, s.fq, ring), |ring.pushed|)
  {
    if ring.Occupied() == 0 {
      LookMoves(c, s, r);
      LeadsOn(c, AnyOrder, false, s0, s, Look, Apply(c, s, Look));
      return Apply(c, s, Look);
    }
    var (n1, n2) := Slices(c.ringCap, ring);
    var held := ring.pushed[ring.taken..];
    assert held[..n1] == ring.pushed[ring.taken..ring.taken + n1] && held[n1..] == ring.pushed[ring.taken + n1..];
    var fq1 := Offer(c.fqCap, s.fq, held[..n1]);
    var fq2 := Offer(c.fqCap, fq1, held[n1..]);
    var s1 := FirstHalf(c, s0, s, r, n1, n2, ring, fq1);
    var half := s1.rings[r];
    s' := SecondHalf(c, s0, s1, r, n1, n2, half, fq2);
    DrainMoves(c, s, s1, s', r, HalfProduced(r, n1, n2), fq1, ring.taken, Drain(r + 1), fq2, |ring.pushed|);
  }

  /** Empties one ring into the fill queue. */
  method DrainRing(med: UmemMediate, ring: DescRing, ghost c: Setup, ghost s0: State, ghost s: State, ghost r: nat)
    returns (ghost s': State)
    requires Leads(c, AnyOrder, false, s0, s) && HasQueues(c, s, med) && IsRing(c, s, r, ring)
    requires Shaped(c, s) && Med(c, s).pc == Drain(r)
    modifies med`fq, ring`taken
    ensures ring.Valid() && ring.Len() == 0
    ensures Leads(c, AnyOrder, false, s0, s') && HasQueues(c, s', med) && IsRing(c, s', r, ring)
    ensures DrainMove(c, s, s', r, Drain(r + 1), DrainedOne(c, s.fq, s.rings[r]), |s.rings[r].pushed|)
  {
    s' := DrainIsARun(c, s0, s, r, s.rings[r]);
    if ring.Len() == 0 { return; }
    var s1, s2 := ring.AsSlices();
    var handled := |s1| + |s2|;
    ghost var held := ring.pushed[ring.taken..];
    assert held[..|s1|] == s1 && held[|s1|..] == s2;
    med.Produce(s1);
    med.Produce(s2);
    ring.Advance(handled);
  }

  /** The fill queue after draining `rings` in order. */
  function DrainedAll(c: Setup, fq: seq<Frame>, rings: seq<Ring>): seq<Frame>
    requires forall r <- rings :: r.taken <= |r.pushed|
  {
    if rings == [] then fq
    else
      var n := |rings| - 1;
      DrainedOne(c, DrainedAll(c, fq, rings[..n]), rings[n])
  }

  /** Everything that `rings` hold, in the order in which they are drained. */
  function HeldIn(rings: seq<Ring>): seq<Frame>
    requires forall r <- rings :: r.taken <= |r.pushed|
  {
    if rings == [] then []
    else
      var n := |rings| - 1;
      HeldIn(rings[..n]) + rings[n].pushed[rings[n].taken..]
  }

  /** Draining one ring appends what it holds if there is room. */
  lemma DrainsOneKeeps(c: Setup, fq: seq<Frame>, ring: Ring, held: seq<Frame>)
    requires ring.taken <= |ring.pushed| && held == ring.pushed[ring.taken..] && |fq| + |held| <= c.fqCap
    ensures DrainedOne(c, fq, ring) == fq + held
  {
    var (n1, n2) := Slices(c.ringCap, ring);
    if |held| > 0 {
      assert held == held[..n1] + held[n1..];
      assert (fq + held[..n1]) + held[n1..] == fq + held;
    }
  }

  /** If there is room, draining appends to the fill queue exactly what the rings hold, in order. */
  lemma {:induction false} DrainKeepsAll(c: Setup, fq: seq<Frame>, rings: seq<Ring>)
    requires forall r <- rings :: r.taken <= |r.pushed|
    requires |fq| + |HeldIn(rings)| <= c.fqCap
    ensures DrainedAll(c, fq, rings) == fq + HeldIn(rings)
  {
    if rings != [] {
      var n := |rings| - 1;
      DrainKeepsAll(c, fq, rings[..n]);
      var held := rings[n].pushed[rings[n].taken..];
      DrainsOneKeeps(c, fq + HeldIn(rings[..n]), rings[n], held);
      assert fq + HeldIn(rings[..n]) + held == fq + HeldIn(rings);
    } else {
      assert fq + [] == fq;
    }
  }

  ghost predicate RingsOk(s: State) { forall r <- s.rings :: r.taken <= |r.pushed| }

  /** `now` is `s` with its first `i` rings drained. */
  ghost predicate DrainedTo(c: Setup, s: State, now: State, i: nat) {
    && Shaped(c, s) && Shaped(c, now) && i <= |s.rings| && RingsOk(s)
    && now.fq == DrainedAll(c, s.fq, s.rings[..i]) && now.cq == s.cq
    && now.threads == s.threads[Mediator(c) := Med(c, s).(pc := Drain(i))]
    && (forall q :: i <= q < |s.rings| ==> now.rings[q] == s.rings[q])
    && (forall q :: 0 <= q < i
          ==> now.rings[q].pushed == s.rings[q].pushed && now.rings[q].taken == |s.rings[q].pushed|)
  }

  lemma DrainedOn(c: Setup, s: State, now: State, next: State, i: nat)
    requires DrainedTo(c, s, now, i) && i < |s.rings|
    requires DrainMove(c, now, next, i, Drain(i + 1), DrainedOne(c, now.fq, s.rings[i]), |s.rings[i].pushed|)
    ensures DrainedTo(c, s, next, i + 1)
  {
    assert s.rings[..i + 1][..i] == s.rings[..i];
  }

  /** The rings of the protocol state are these objects. */
  ghost predicate AreRings(c: Setup, s: State, rings: seq<DescRing>)
    reads rings
  {
    Shaped(c, s) && |rings| == |s.rings| && forall r :: 0 <= r < |rings| ==> IsRing(c, s, r, rings[r])
  }

  lemma RingsAreOk(c: Setup, s: State, rings: seq<DescRing>)
    requires AreRings(c, s, rings)
    ensures RingsOk(s)
  {
    forall ring | ring in s.rings
      ensures ring.taken <= |ring.pushed|
    {
      var r :| 0 <= r < |s.rings| && s.rings[r] == ring;
      assert IsRing(c, s, r, rings[r]);
    }
  }

  /** Empties every ring into the fill queue. */
  method DrainRings(med: UmemMediate, rings: seq<DescRing>, ghost c: Setup, ghost s0: State, ghost s: State)
    returns (ghost s': State)
    requires Distinct(rings) && Leads(c, AnyOrder, false, s0, s) && HasQueues(c, s, med) && AreRings(c, s, rings)
    requires Med(c, s).pc == Drain(0)
    modifies med`fq, rings
    ensures forall ring <- rings :: ring.Valid() && ring.Len() == 0
    ensures RingsOk(s) && med.fq == DrainedAll(c, old(med.fq), s.rings)
    ensures Leads(c, AnyOrder, false, s0, s') && HasQueues(c, s', med) && AreRings(c, s', rings)
    ensures DrainedTo(c, s, s', NumRings(c))
  {
    RingsAreOk(c, s, rings);
    s' := s;
    var i := 0;
    while i < |rings|
      invariant i <= |rings| && Leads(c, AnyOrder, false, s0, s') && HasQueues(c, s', med) && AreRings(c, s', rings)
      invariant DrainedTo(c, s, s', i)
    {
      ghost var now := s';
      s' := DrainRing(med, rings[i], c, s0, now, i);
      DrainedOn(c, s, now, s', i);
      i := i + 1;
    }
    assert s.rings[..i] == s.rings;
  }

  // ---- One pass of each loop --------------------------------------------------------

  /** What both mediating workers do: send, then give back the dropped and the completed. */
  method SendAndHandBack<K(!new), S(!new)>(xsk: XskData, med: UmemMediate, host: Host<K, S>, rt: Runtime,
                                           nf: NfOver<K, S>, k: nat, m: nat, ghost c: Setup, ghost s: State)
    returns (ghost s': State)
    requires k + m <= xsk.frames.Length && k <= |xsk.rx| && m <= |med.cq|
    requires Smooth(rt, nf, xsk.rx[..k], host.mem, host.world)
    requires c.mode.FirstThread? && IsThread(c, s, 0, xsk, Idle) && HasQueues(c, s, med)
    modifies xsk`rx, xsk`tx, xsk.frames, med`fq, med`cq, host
    ensures xsk.rx == old(xsk.rx)[k..] && med.cq == old(med.cq)[m..]
    ensures var r := Process(rt, nf, old(xsk.rx)[..k], old(host.mem), old(host.world));
      && xsk.tx == Offer(xsk.txCap, old(xsk.tx), r.kept)
      && med.fq == Offer(med.fqCap, old(med.fq), Reverse(r.dropped) + old(med.cq)[..m])
      && host.mem == r.mem && host.world == r.world
    ensures Leads(c, AnyOrder, false, s, s') && s'.rings == s.rings
    ensures IsThread(c, s', 0, xsk, AfterRefill(c)) && HasQueues(c, s', med)
  {
    var numTx, recvd;
    ghost var s1;
    numTx, recvd, s1 := ReceiveAndSend(xsk, host, rt, nf, k, c, s, 0);
    s' := HandBack(xsk, med, numTx, recvd, m, c, s, s1);
  }

  /** The lone worker, which mediates for itself. */
  method SoloPass<K(!new), S(!new)>(xsk: XskData, med: UmemMediate, host: Host<K, S>, rt: Runtime, nf: NfOver<K, S>,
                                    k: nat, m: nat, ghost c: Setup, ghost s: State)
    returns (ghost s': State)
    requires k + m <= xsk.frames.Length && k <= |xsk.rx| && m <= |med.cq|
    requires Smooth(rt, nf, xsk.rx[..k], host.mem, host.world)
    requires c.mode.FirstThread? && c.workers == 1 && IsThread(c, s, 0, xsk, Idle) && HasQueues(c, s, med)
    modifies xsk`rx, xsk`tx, xsk.frames, med`fq, med`cq, host
    ensures xsk.rx == old(xsk.rx)[k..] && med.cq == old(med.cq)[m..]
    ensures var r := Process(rt, nf, old(xsk.rx)[..k], old(host.mem), old(host.world));
      && xsk.tx == Offer(xsk.txCap, old(xsk.tx), r.kept)
      && med.fq == Offer(med.fqCap, old(med.fq), Reverse(r.dropped) + old(med.cq)[..m])
      && host.mem == r.mem && host.world == r.world
    ensures Leads(c, AnyOrder, false, s, s') && IsThread(c, s', 0, xsk, Idle) && HasQueues(c, s', med)
  {
    s' := SendAndHandBack(xsk, med, host, rt, nf, k, m, c, s);
  }

  lemma WrapIsOneStep(c: Setup, s0: State, s: State) returns (s': State)
    requires Leads(c, AnyOrder, false, s0, s) && Shaped(c, s) && c.mode.FirstThread?
    requires Med(c, s).pc == Drain(NumRings(c))
    ensures Leads(c, AnyOrder, false, s0, s') && s' == s.(threads := s.threads[Mediator(c) := Med(c, s).(pc := Idle)])
  {
    LeadsOn(c, AnyOrder, false, s0, s, Wrap, Apply(c, s, Wrap));
    s' := Apply(c, s, Wrap);
  }

  /** The end of a pass of the first of several workers: empties the rings, and returns to the head. */
  method DrainAndWrap(xsk: XskData, med: UmemMediate, rings: seq<DescRing>, ghost c: Setup, ghost s0: State,
                      ghost s: State)
    returns (ghost s': State)
    requires Distinct(rings) && Leads(c, AnyOrder, false, s0, s) && HasQueues(c, s, med) && AreRings(c, s, rings)
    requires c.mode.FirstThread? && IsThread(c, s, 0, xsk, Drain(0))
    modifies med`fq, rings
    ensures forall ring <- rings :: ring.Valid() && ring.Len() == 0
    ensures RingsOk(s) && med.fq == DrainedAll(c, old(med.fq), s.rings)
    ensures Leads(c, AnyOrder, false, s0, s') && IsThread(c, s', 0, xsk, Idle) && HasQueues(c, s', med)
    ensures AreRings(c, s', rings)
  {
    ghost var x := DrainRings(med, rings, c, s0, s);
    s' := WrapIsOneStep(c, s0, x);
    RingsAreSame(c, x, s', rings);
  }

  lemma RingsAreSame(c: Setup, s: State, s': State, rings: seq<DescRing>)
    requires AreRings(c, s, rings) && Shaped(c, s') && s'.rings == s.rings
    ensures AreRings(c, s', rings)
  {
    forall r | 0 <= r < |rings|
      ensures IsRing(c, s', r, rings[r])
    {
      assert IsRing(c, s, r, rings[r]);
    }
  }

  /** The first worker of several, which also drains the rings of the others. */
  method SelfMediatePass<K(!new), S(!new)>(
      xsk: XskData, med: UmemMediate, rings: seq<DescRing>, host: Host<K, S>, rt: Runtime, nf: NfOver<K, S>,
      k: nat, m: nat, ghost c: Setup, ghost s: State)
    returns (ghost s': State)
    requires k + m <= xsk.frames.Length && k <= |xsk.rx| && m <= |med.cq| && Distinct(rings)
    requires Smooth(rt, nf, xsk.rx[..k], host.mem, host.world)
    requires c.mode.FirstThread? && c.workers > 1 && IsThread(c, s, 0, xsk, Idle) && HasQueues(c, s, med)
    requires AreRings(c, s, rings)
    modifies xsk`rx, xsk`tx, xsk.frames, med`fq, med`cq, host, rings
    ensures xsk.rx == old(xsk.rx)[k..] && med.cq == old(med.cq)[m..]
    ensures forall ring <- rings :: ring.Valid() && ring.Len() == 0
    ensures RingsOk(s)
    ensures var r := Process(rt, nf, old(xsk.rx)[..k], old(host.mem), old(host.world));
      && xsk.tx == Offer(xsk.txCap, old(xsk.tx), r.kept)
      && med.fq == DrainedAll(c, Offer(med.fqCap, old(med.fq), Reverse(r.dropped) + old(med.cq)[..m]), s.rings)
      && host.mem == r.mem && host.world == r.world
    ensures Leads(c, AnyOrder, false, s, s') && IsThread(c, s', 0, xsk, Idle) && HasQueues(c, s', med)
    ensures AreRings(c, s', rings)
  {
    ghost var s1 := SendAndHandBack(xsk, med, host, rt, nf, k, m, c, s);
    RingsAreSame(c, s, s1, rings);
    s' := DrainAndWrap(xsk, med, rings, c, s, s1);
  }

  lemma PushIsOneStep(c: Setup, s0: State, s: State, t: nat, numTx: nat, k: nat) returns (s': State)
    requires Leads(c, AnyOrder, false, s0, s) && Shaped(c, s) && IsRemote(c, t) && s.threads[t].pc == Sent(numTx, k)
    requires numTx <= k <= |s.threads[t].scratch|
    ensures Leads(c, AnyOrder, false, s0, s') && Shaped(c, s') && s'.threads[t] == s.threads[t].(pc := Idle)
    ensures var ring := s.rings[RingOf(c, t)]; var out := s.threads[t].scratch[numTx..k];
      var free := if ring.Occupied() <= c.ringCap then c.ringCap - ring.Occupied() else 0;
      && s'.rings[RingOf(c, t)].pushed == ring.pushed + out[..if |out| <= free then |out| else free]
      && s'.rings[RingOf(c, t)].taken == ring.taken
  {
    LeadsOn(c, AnyOrder, false, s0, s, Push(t), Apply(c, s, Push(t)));
    s' := Apply(c, s, Push(t));
  }

  /** Any other worker, which pushes what it dropped on its ring. */
  method OtherMediatePass<K(!new), S(!new)>(
      xsk: XskData, ring: DescRing, host: Host<K, S>, rt: Runtime, nf: NfOver<K, S>, k: nat,
      ghost c: Setup, ghost s: State, ghost t: nat)
    returns (ghost s': State)
    requires k <= xsk.frames.Length && k <= |xsk.rx|
    requires Smooth(rt, nf, xsk.rx[..k], host.mem, host.world)
    requires IsRemote(c, t) && IsThread(c, s, t, xsk, Idle) && IsRing(c, s, RingOf(c, t), ring)
    modifies xsk`rx, xsk`tx, xsk.frames, ring`pushed, host
    ensures xsk.rx == old(xsk.rx)[k..] && ring.Valid()
    ensures var r := Process(rt, nf, old(xsk.rx)[..k], old(host.mem), old(host.world));
      var free := ring.cap - old(ring.Len());
      && xsk.tx == Offer(xsk.txCap, old(xsk.tx), r.kept)
      && ring.pushed == old(ring.pushed) + Reverse(r.dropped)[..if |r.dropped| <= free then |r.dropped| else free]
      && host.mem == r.mem && host.world == r.world
    ensures Leads(c, AnyOrder, false, s, s') && IsThread(c, s', t, xsk, Idle) && IsRing(c, s', RingOf(c, t), ring)
  {
    var numTx, recvd;
    ghost var s1;
    numTx, recvd, s1 := ReceiveAndSend(xsk, host, rt, nf, k, c, s, t);
    s' := PushIsOneStep(c, s, s1, t, numTx, recvd);
    ring.PushSlice(xsk.frames[numTx..recvd]);
  }

  /** The extra thread, which only drains rings and collects completions. */
  method ExtraThreadPass(med: UmemMediate, rings: seq<DescRing>, frames: array<Frame>, m: nat, ghost c: Setup,
                         ghost s: State)
    returns (ghost s': State)
    requires m <= frames.Length && m <= |med.cq| && Distinct(rings)
    requires c.mode.ExtraThread? && HasQueues(c, s, med) && AreRings(c, s, rings)
    requires Med(c, s) == Thread([], [], frames[..], Drain(0))
    modifies med`fq, med`cq, rings, frames
    ensures med.cq == old(med.cq)[m..]
    ensures forall ring <- rings :: ring.Valid() && ring.Len() == 0
    ensures RingsOk(s)
    ensures med.fq == Offer(med.fqCap, DrainedAll(c, old(med.fq), s.rings), old(med.cq)[..m])
    ensures Leads(c, AnyOrder, false, s, s') && HasQueues(c, s', med) && AreRings(c, s', rings)
    ensures Med(c, s') == Thread([], [], frames[..], Drain(0))
  {
    LeadsNowhere(c, AnyOrder, false, s);
    ghost var s1 := DrainRings(med, rings, c, s, s);
    s' := HandBackIsTwoSteps(c, s, s1, 0, 0, m);
    ghost var cq := med.cq;
    med.Consume(frames, 0, m);
    assert frames[..m] == frames[0..m] == cq[..m];
    med.Produce(frames[..m]);
  }

  // ---- Nothing stale escapes --------------------------------------------------------

  lemma DistinctByCount(xs: seq<Frame>, ys: seq<Frame>)
    requires multiset(xs) == multiset(ys) && Distinct(ys)
    ensures Distinct(xs) && Elements(xs) == Elements(ys)
  {
    forall i, j | 0 <= i < j < |xs|
      ensures xs[i] != xs[j]
    {
      if xs[i] == xs[j] {
        TwiceCounts(xs, i, j);
        OnceCounts(ys, xs[i]);
      }
    }
    forall d
      ensures d in Elements(xs) <==> d in Elements(ys)
    {
      assert d in xs <==> d in multiset(xs);
      assert d in ys <==> d in multiset(ys);
    }
  }

  lemma TwiceCounts(xs: seq<Frame>, i: nat, j: nat)
    requires i < j < |xs| && xs[i] == xs[j]
    ensures multiset(xs)[xs[i]] >= 2
  {
    assert xs == xs[..j] + xs[j..];
    assert xs[..j][i] == xs[i] && xs[j..][0] == xs[j];
  }

  lemma {:induction false} OnceCounts(ys: seq<Frame>, d: Frame)
    requires Distinct(ys)
    ensures multiset(ys)[d] <= 1
  {
    if ys != [] {
      OnceCounts(ys[1..], d);
      assert ys == [ys[0]] + ys[1..];
      assert ys[0] !in ys[1..];
    }
  }

  /** What a pass sends and hands back, when it received `q` and collected `completed`. */
  ghost function HandedOut<K(!new), S(!new)>(
      rt: Runtime, nf: NfOver<K, S>, q: seq<Frame>, mem: Memory<K>, world: S, completed: seq<Frame>): seq<Frame>
    requires Smooth(rt, nf, q, mem, world)
  {
    var r := Process(rt, nf, q, mem, world);
    r.kept + (Reverse(r.dropped) + completed)
  }

  /** If what a pass received and collected are different descriptors, it hands out exactly them
      and each of them once. */
  lemma NothingStaleEscapes<K(!new), S(!new)>(
      rt: Runtime, nf: NfOver<K, S>, q: seq<Frame>, mem: Memory<K>, world: S, completed: seq<Frame>)
    requires Smooth(rt, nf, q, mem, world) && Distinct(q + completed)
    ensures Distinct(HandedOut(rt, nf, q, mem, world, completed))
    ensures Elements(HandedOut(rt, nf, q, mem, world, completed)) == Elements(q + completed)
  {
    PassPartitions(rt, nf, q, mem, world);
    ReverseKeepsElements(Process(rt, nf, q, mem, world).dropped);
    DistinctByCount(HandedOut(rt, nf, q, mem, world, completed), q + completed);
  }

  /** In every reachable state, what a thread can receive and what can be collected are different
      descriptors, and none of them is in the fill queue, in a thread's window or on a ring. */
  lemma ReceivedAreDistinct(c: Setup, sch: Schedule, s: State, t: nat, k: nat, m: nat)
    requires Reachable(c, sch, s) && t < |s.threads| && k <= |s.threads[t].rx| && m <= |s.cq|
    ensures Distinct(s.threads[t].rx[..k] + s.cq[..m])
    ensures forall d <- s.threads[t].rx[..k] + s.cq[..m] ::
      d < c.frames && d !in s.fq
      && (forall u :: 0 <= u < |s.threads| ==> d !in Window(s.threads[u]))
      && (forall r :: 0 <= r < |s.rings| ==> d !in Pending(s.rings[r]))
  {
    var got := s.threads[t].rx[..k] + s.cq[..m];
    forall d: Frame
      ensures Occ(got, d) + Occ(s.fq, d) <= if d < c.frames then 1 else 0
    {
      GotOnce(c, sch, s, t, k, m, d);
    }
    OnceEachDistinct(got, c.frames);
    forall d | d in got
      ensures d !in s.fq
      ensures forall u :: 0 <= u < |s.threads| ==> d !in Window(s.threads[u])
      ensures forall r :: 0 <= r < |s.rings| ==> d !in Pending(s.rings[r])
    {
      assert Occ(got, d) >= 1;
      forall u | 0 <= u < |s.threads|
        ensures d !in Window(s.threads[u])
      {
        GotApartFromWindow(c, sch, s, t, k, m, u, d);
      }
      forall r | 0 <= r < |s.rings|
        ensures d !in Pending(s.rings[r])
      {
        GotApartFromRing(c, sch, s, t, k, m, r, d);
      }
    }
  }

  lemma GotSplits(s: State, t: nat, k: nat, m: nat, d: Frame)
    requires t < |s.threads| && k <= |s.threads[t].rx| && m <= |s.cq|
    ensures Occ(s.threads[t].rx[..k] + s.cq[..m], d) <= Occ(s.threads[t].rx, d) + Occ(s.cq, d)
  {
    OccAppend(s.threads[t].rx[..k], s.cq[..m], d);
    OccSplit(s.threads[t].rx, k, d);
    OccSplit(s.cq, m, d);
  }

  lemma GotOnce(c: Setup, sch: Schedule, s: State, t: nat, k: nat, m: nat, d: Frame)
    requires Reachable(c, sch, s) && t < |s.threads| && k <= |s.threads[t].rx| && m <= |s.cq|
    ensures Occ(s.threads[t].rx[..k] + s.cq[..m], d) + Occ(s.fq, d) <= if d < c.frames then 1 else 0
  {
    FrameConservation(c, sch, s, d);
    GotSplits(s, t, k, m, d);
    ThreadWithinSum(s.threads, t, d);
  }

  lemma GotApartFromWindow(c: Setup, sch: Schedule, s: State, t: nat, k: nat, m: nat, u: nat, d: Frame)
    requires Reachable(c, sch, s) && t < |s.threads| && k <= |s.threads[t].rx| && m <= |s.cq| && u < |s.threads|
    requires d in s.threads[t].rx[..k] + s.cq[..m]
    ensures d !in Window(s.threads[u])
  {
    FrameConservation(c, sch, s, d);
    GotSplits(s, t, k, m, d);
    assert Occ(s.threads[t].rx[..k] + s.cq[..m], d) >= 1;
    if u == t { ThreadWithinSum(s.threads, t, d); } else { TwoThreadsWithinSum(s.threads, t, u, d); }
    assert Occ(Window(s.threads[u]), d) == 0;
  }

  lemma GotApartFromRing(c: Setup, sch: Schedule, s: State, t: nat, k: nat, m: nat, r: nat, d: Frame)
    requires Reachable(c, sch, s) && t < |s.threads| && k <= |s.threads[t].rx| && m <= |s.cq| && r < |s.rings|
    requires d in s.threads[t].rx[..k] + s.cq[..m]
    ensures d !in Pending(s.rings[r])
  {
    FrameConservation(c, sch, s, d);
    GotSplits(s, t, k, m, d);
    assert Occ(s.threads[t].rx[..k] + s.cq[..m], d) >= 1;
    ThreadWithinSum(s.threads, t, d);
    RingWithinSum(s.rings, r, d);
    assert Occ(Pending(s.rings[r]), d) == 0;
  }

  /** From every reachable state a pass hands out exactly the descriptors that it received and
      collected, each once, and none that anybody else owns: nothing stale escapes. */
  lemma PassHandsOutItsOwn<K(!new), S(!new)>(
      c: Setup, sch: Schedule, s: State, t: nat, k: nat, m: nat,
      rt: Runtime, nf: NfOver<K, S>, mem: Memory<K>, world: S)
    requires Reachable(c, sch, s) && t < |s.threads| && k <= |s.threads[t].rx| && m <= |s.cq|
    requires Smooth(rt, nf, s.threads[t].rx[..k], mem, world)
    ensures var out := HandedOut(rt, nf, s.threads[t].rx[..k], mem, world, s.cq[..m]);
      && Distinct(out) && Elements(out) == Elements(s.threads[t].rx[..k] + s.cq[..m])
      && forall d <- out ::
           d < c.frames && d !in s.fq
           && (forall u :: 0 <= u < |s.threads| ==> d !in Window(s.threads[u]))
           && (forall r :: 0 <= r < |s.rings| ==> d !in Pending(s.rings[r]))
  {
    ReceivedAreDistinct(c, sch, s, t, k, m);
    NothingStaleEscapes(rt, nf, s.threads[t].rx[..k], mem, world, s.cq[..m]);
    var out := HandedOut(rt, nf, s.threads[t].rx[..k], mem, world, s.cq[..m]);
    forall d | d in out
      ensures d in s.threads[t].rx[..k] + s.cq[..m]
    {
      assert d in Elements(out);
    }
  }
}
