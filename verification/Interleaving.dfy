/**
  The loops among others: each queue operation of a pass is one step of the frame protocol, and
  between any two of them the other threads and the kernel may take any steps of theirs.
*/
module Interleaving {
  import opened Basics
  import opened Execution
  import opened FrameProtocol
  import opened Dataplane
  import opened Sharing
  import opened Mediation

  // ---- Who takes a step -----------------------------------------------------------

  /** The thread whose step it is; the kernel's steps are nobody's. */
  function Owner(c: Setup, step: Step): Option<nat> {
    match step
    case KTake(_) => None
    case KDeliver(_, _) => None
    case KSend(_, _) => None
    case KComplete(_) => None
    case Recv(t, _) => Some(t)
    case Partition(t, _, _) => Some(t)
    case Transmit(t) => Some(t)
    case Push(t) => Some(t)
    case _ => Some(Mediator(c))
  }

  /** A run, step by step, with the state after each step. */
  datatype History = Begin(start: State) | Then(past: History, step: Step, end: State)

  function StartOf(h: History): State {
    match h case Begin(s) => s case Then(past, _, _) => StartOf(past)
  }

  function EndOf(h: History): State {
    match h case Begin(s) => s case Then(_, _, s) => s
  }

  predicate Legal(c: Setup, h: History) {
    match h
    case Begin(_) => true
    case Then(past, step, s) => Legal(c, past) && Enabled(c, EndOf(past), step) && s == Apply(c, EndOf(past), step)
  }

  /** The steps of thread `t` among those of a run. */
  function OwnOf(c: Setup, t: nat, h: History): seq<Step> {
    match h
    case Begin(_) => []
    case Then(past, step, _) => OwnOf(c, t, past) + (if Owner(c, step) == Some(t) then [step] else [])
  }

  ghost predicate Tells(c: Setup, t: nat, h: History, s: State, own: seq<Step>, s': State) {
    Legal(c, h) && StartOf(h) == s && EndOf(h) == s' && OwnOf(c, t, h) == own
  }

  /** Some run leads from `s` to `s'` in which thread `t` takes exactly the steps `own`. */
  ghost predicate Led(c: Setup, t: nat, s: State, own: seq<Step>, s': State) {
    exists h :: Tells(c, t, h, s, own, s')
  }

  lemma LedNowhere(c: Setup, t: nat, s: State)
    ensures Led(c, t, s, [], s)
  {
    assert Tells(c, t, Begin(s), s, [], s);
  }

  /** The thread takes a step of its own. */
  lemma LedOn(c: Setup, t: nat, s: State, own: seq<Step>, x: State, step: Step, y: State)
    requires Led(c, t, s, own, x) && Enabled(c, x, step) && y == Apply(c, x, step) && Owner(c, step) == Some(t)
    ensures Led(c, t, s, own + [step], y)
  {
    var h :| Tells(c, t, h, s, own, x);
    assert Tells(c, t, Then(h, step, y), s, own + [step], y);
  }

  lemma OtherStep(c: Setup, t: nat, s: State, own: seq<Step>, x: State, step: Step, y: State)
    requires Led(c, t, s, own, x) && Enabled(c, x, step) && y == Apply(c, x, step) && Owner(c, step) != Some(t)
    ensures Led(c, t, s, own, y)
  {
    var h :| Tells(c, t, h, s, own, x);
    assert Tells(c, t, Then(h, step, y), s, own, y);
  }

  lemma {:induction false} OthersJoin(c: Setup, t: nat, s: State, own: seq<Step>, x: State, h: History)
    requires Led(c, t, s, own, x) && Legal(c, h) && StartOf(h) == x && OwnOf(c, t, h) == []
    ensures Led(c, t, s, own, EndOf(h))
  {
    match h
    case Begin(_) =>
    case Then(past, step, y) =>
      OthersJoin(c, t, s, own, x, past);
      OtherStep(c, t, s, own, EndOf(past), step, y);
  }

  /** What the others did in between does not count as own. */
  lemma LedPastOthers(c: Setup, t: nat, s: State, own: seq<Step>, x: State, y: State)
    requires Led(c, t, s, own, x) && Led(c, t, x, [], y)
    ensures Led(c, t, s, own, y)
  {
    var h :| Tells(c, t, h, x, [], y);
    OthersJoin(c, t, s, own, x, h);
  }

  lemma {:induction false} HistoryIsARun(c: Setup, h: History)
    requires Legal(c, h)
    ensures Leads(c, AnyOrder, false, StartOf(h), EndOf(h))
  {
    match h
    case Begin(s) => LeadsNowhere(c, AnyOrder, false, s);
    case Then(past, step, s) =>
      HistoryIsARun(c, past);
      LeadsOn(c, AnyOrder, false, StartOf(h), EndOf(past), step, s);
  }

  /** It is a run of the frame protocol, so everything proved about reachable states holds after it. */
  lemma LedIsARun(c: Setup, t: nat, s: State, own: seq<Step>, s': State)
    requires Led(c, t, s, own, s')
    ensures Leads(c, AnyOrder, false, s, s')
  {
    var h :| Tells(c, t, h, s, own, s');
    HistoryIsARun(c, h);
  }

  // ---- What a thread can rely on ----------------------------------------------------

  /** What the steps of others leave alone: a thread's scratch array and position, the write end
      of a worker's ring, the mediator's read ends; queues read by a thread only grow at their end. */
  ghost predicate Relies(c: Setup, t: nat, s: State, s': State) {
    && Shaped(c, s) && Shaped(c, s') && t < NumThreads(c)
    && s'.threads[t].scratch == s.threads[t].scratch && s'.threads[t].pc == s.threads[t].pc
    && s.threads[t].rx <= s'.threads[t].rx
    && (IsRemote(c, t) ==>
          var ring, ring' := s.rings[RingOf(c, t)], s'.rings[RingOf(c, t)];
          ring'.pushed == ring.pushed && ring.taken <= ring'.taken)
    && (t == Mediator(c) ==>
          && s.cq <= s'.cq
          && forall r :: 0 <= r < NumRings(c) ==>
               s.rings[r].pushed <= s'.rings[r].pushed && s'.rings[r].taken == s.rings[r].taken)
  }

  lemma KernelIsReliable(c: Setup, t: nat, s: State, step: Step, s': State)
    requires Shaped(c, s) && t < NumThreads(c) && Enabled(c, s, step) && IsKernel(step) && s' == Apply(c, s, step)
    ensures Relies(c, t, s, s')
  {
  }

  lemma WorkerIsReliable(c: Setup, t: nat, s: State, step: Step, s': State)
    requires Shaped(c, s) && t < NumThreads(c) && Enabled(c, s, step) && s' == Apply(c, s, step)
    requires step.Recv? || step.Partition? || step.Transmit? || step.Push?
    requires step.t != t
    ensures Relies(c, t, s, s')
  {
  }

  lemma MediatorIsReliable(c: Setup, t: nat, s: State, step: Step, s': State)
    requires Shaped(c, s) && t < NumThreads(c) && Enabled(c, s, step) && s' == Apply(c, s, step)
    requires step.Reap? || step.Refill? || step.Look? || step.Wrap?
    requires t != Mediator(c)
    ensures Relies(c, t, s, s')
  {
  }

  lemma DrainIsReliable(c: Setup, t: nat, s: State, step: Step, s': State)
    requires Shaped(c, s) && t < NumThreads(c) && Enabled(c, s, step) && s' == Apply(c, s, step)
    requires step.ProduceFirst? || step.ProduceSecond? || step.Advance?
    requires t != Mediator(c)
    ensures Relies(c, t, s, s')
  {
  }

  lemma ReliesOn(c: Setup, t: nat, s: State, x: State, y: State)
    requires Relies(c, t, s, x) && Relies(c, t, x, y)
    ensures Relies(c, t, s, y)
  {
  }

  lemma StepIsReliable(c: Setup, t: nat, s: State, step: Step, s': State)
    requires Shaped(c, s) && t < NumThreads(c) && Enabled(c, s, step) && s' == Apply(c, s, step)
    requires Owner(c, step) != Some(t)
    ensures Relies(c, t, s, s')
  {
    if IsKernel(step) { KernelIsReliable(c, t, s, step, s'); }
    else if step.Recv? || step.Partition? || step.Transmit? || step.Push? { WorkerIsReliable(c, t, s, step, s'); }
    else if step.ProduceFirst? || step.ProduceSecond? || step.Advance? { DrainIsReliable(c, t, s, step, s'); }
    else { MediatorIsReliable(c, t, s, step, s'); }
  }

  lemma {:induction false} OthersAreReliable(c: Setup, t: nat, h: History)
    requires Legal(c, h) && Shaped(c, StartOf(h)) && t < NumThreads(c) && OwnOf(c, t, h) == []
    ensures Relies(c, t, StartOf(h), EndOf(h))
  {
    match h
    case Begin(_) =>
    case Then(past, step, s) =>
      OthersAreReliable(c, t, past);
      StepIsReliable(c, t, EndOf(past), step, s);
      ReliesOn(c, t, StartOf(h), EndOf(past), s);
  }

  /** Whatever steps the others and the kernel take, a thread can rely on its own part. */
  lemma OthersLeaveAlone(c: Setup, t: nat, s: State, s': State)
    requires Shaped(c, s) && t < NumThreads(c) && Led(c, t, s, [], s')
    ensures Relies(c, t, s, s')
  {
    var h :| Tells(c, t, h, s, [], s');
    OthersAreReliable(c, t, h);
  }

  // ---- Queue operations, one step each ------------------------------------------------

  /** `s'` follows from `s` by this one step. */
  ghost predicate IsStep(c: Setup, s: State, step: Step, s': State) { Enabled(c, s, step) && s' == Apply(c, s, step) }

  method Receive(xsk: XskData, k: nat, ghost c: Setup, ghost s: State, ghost t: nat) returns (ghost s': State)
    requires IsWorker(c, t) && IsThread(c, s, t, xsk, Idle) && k <= |xsk.rx| && k <= xsk.frames.Length
    modifies xsk`rx, xsk.frames
    ensures xsk.frames[..k] == old(xsk.rx)[..k] && xsk.frames[k..] == old(xsk.frames[k..])
    ensures IsStep(c, s, Recv(t, k), s') && IsThread(c, s', t, xsk, Received(k))
  {
    s' := Apply(c, s, Recv(t, k));
    xsk.Consume(k);
    assert xsk.frames[..] == xsk.frames[..k] + xsk.frames[k..];
  }

  /** The scratch array `b` after a pass over its first `k` frames. */
  ghost predicate Partitions<K(!new), S(!new)>(r: Processed<K, S>, a: seq<Frame>, b: seq<Frame>, numTx: nat, k: nat) {
    && numTx <= k <= |a| == |b| && b[..numTx] == r.kept && b[numTx..k] == Reverse(r.dropped) && b[k..] == a[k..]
  }

  lemma PartitionIsOneStep<K(!new), S(!new)>(
      c: Setup, s: State, t: nat, q: seq<Frame>, b: seq<Frame>, numTx: nat,
      rt: Runtime, fed: NfOver<K, seq<S>>, mine: Memory<K>, log: seq<S>, r: Processed<K, seq<S>>)
    returns (s': State)
    requires Shaped(c, s) && IsWorker(c, t) && s.threads[t].pc == Received(|q|)
    requires Smooth(rt, fed, q, mine, log) && r == Process(rt, fed, q, mine, log)
    requires var th := s.threads[t];
      && numTx <= |q| <= |th.scratch| == |b| && th.scratch[..|q|] == q && b[|q|..] == th.scratch[|q|..]
      && b[..numTx] == r.kept && b[numTx..|q|] == Reverse(r.dropped)
    ensures IsStep(c, s, Step.Partition(t, b, numTx), s') && Elements(b[..|q|]) == Elements(q)
    ensures s' == SetThread(s, t, s.threads[t].(scratch := b, pc := Partitioned(numTx, |q|)))
  {
    PassPartitions(rt, fed, q, mine, log);
    SplitKeepsElements(b, numTx, |q|, r.kept, r.dropped);
    SameElements(b[..|q|], q);
    s' := SetThread(s, t, s.threads[t].(scratch := b, pc := Partitioned(numTx, |q|)));
    PartitionMoves(c, s, t, s.threads[t], q, r.kept, r.dropped, b, numTx, s');
  }

  lemma SameElements(xs: seq<Frame>, ys: seq<Frame>)
    requires multiset(xs) == multiset(ys)
    ensures Elements(xs) == Elements(ys)
  {
    forall x: Frame
      ensures x in xs <==> x in ys
    {
      assert x in xs <==> x in multiset(xs);
      assert x in ys <==> x in multiset(ys);
    }
  }

  /** The partition loop. Before every execution of a network function others may have changed
      its state, and at any time the frames that are not this thread's. */
  method Partition<K(!new), S(!new)>(
      xsk: XskData, host: Host<K, S>, job: Job<K, S>, k: nat, log: seq<S>, ghost fed: NfOver<K, seq<S>>,
      ghost mine: Memory<K>, ghost c: Setup, ghost s: State, ghost t: nat)
    returns (numTx: nat, log': seq<S>, ghost s': State)
    requires IsWorker(c, t) && IsThread(c, s, t, xsk, Received(k)) && k <= xsk.frames.Length
    requires IsFed(job, fed) && Smooth(job.rt, fed, xsk.frames[..k], mine, log)
    requires Agree(Elements(xsk.frames[..k]), mine, host.mem)
    modifies xsk.frames, host
    ensures var r := Process(job.rt, fed, old(xsk.frames[..k]), mine, log);
      && Partitions(r, old(xsk.frames[..]), xsk.frames[..], numTx, k) && log' == r.world
      && Agree(Elements(xsk.frames[..k]), r.mem, host.mem)
    ensures Leaves(log, old(host.world), log', host.world)
    ensures IsStep(c, s, Step.Partition(t, xsk.frames[..], numTx), s')
    ensures IsThread(c, s', t, xsk, Partitioned(numTx, k))
  {
    ghost var q, own := xsk.frames[..k], Elements(xsk.frames[..k]);
    ghost var r := Process(job.rt, fed, q, mine, log);
    numTx, log' := PartitionAmid(xsk.frames, host, job, k, log, mine, own, fed);
    s' := PartitionIsOneStep(c, s, t, q, xsk.frames[..], numTx, job.rt, fed, mine, log, r);
  }

  method SendKept(xsk: XskData, numTx: nat, ghost k: nat, ghost c: Setup, ghost s: State, ghost t: nat)
    returns (ghost s': State)
    requires IsWorker(c, t) && IsThread(c, s, t, xsk, Partitioned(numTx, k)) && numTx <= xsk.frames.Length
    modifies xsk`tx
    ensures xsk.tx == Offer(xsk.txCap, old(xsk.tx), xsk.frames[..numTx])
    ensures IsStep(c, s, Step.Transmit(t), s') && IsThread(c, s', t, xsk, Sent(numTx, k))
  {
    s' := Apply(c, s, Step.Transmit(t));
    var sent := xsk.Produce(xsk.frames[..numTx]);
  }

  method PushDropped(xsk: XskData, ring: DescRing, numTx: nat, k: nat, ghost c: Setup, ghost s: State, ghost t: nat)
    returns (ghost s': State)
    requires IsRemote(c, t) && IsThread(c, s, t, xsk, Sent(numTx, k)) && IsRing(c, s, RingOf(c, t), ring)
    requires numTx <= k <= xsk.frames.Length
    modifies ring`pushed
    ensures IsStep(c, s, Push(t), s') && IsThread(c, s', t, xsk, Idle) && IsRing(c, s', RingOf(c, t), ring)
  {
    s' := Apply(c, s, Push(t));
    ring.PushSlice(xsk.frames[numTx..k]);
  }

  /** All that the mediator holds: its queues, the shared ones and the read ends of the rings.
      The extra thread's `own` is its scratch array, with queues that stay empty. */
  ghost predicate MediatorView(c: Setup, s: State, own: XskData, med: UmemMediate, rings: seq<DescRing>, pc: Pc)
    reads own, own.frames, med, rings
  {
    IsThread(c, s, Mediator(c), own, pc) && HasQueues(c, s, med) && AreRings(c, s, rings) && Distinct(rings)
  }

  method Collect(own: XskData, med: UmemMediate, rings: seq<DescRing>, from: nat, at: nat, m: nat, ghost c: Setup,
                 ghost s: State)
    returns (ghost s': State)
    requires MediatorView(c, s, own, med, rings, if c.mode.FirstThread? then Sent(from, at) else Drain(NumRings(c)))
    requires m <= |med.cq| && at + m <= own.frames.Length && (c.mode.ExtraThread? ==> from == at == 0)
    modifies own.frames, med`cq
    ensures own.frames[..] == old(own.frames[..at]) + old(med.cq)[..m] + old(own.frames[at + m..])
    ensures IsStep(c, s, Reap(m), s') && MediatorView(c, s', own, med, rings, Completed(from, at + m))
  {
    ReapMoves(c, s, from, at, m);
    s' := Apply(c, s, Reap(m));
    med.Consume(own.frames, at, m);
  }

  method GiveBack(own: XskData, med: UmemMediate, rings: seq<DescRing>, from: nat, upto: nat, ghost c: Setup,
                  ghost s: State)
    returns (ghost s': State)
    requires MediatorView(c, s, own, med, rings, Completed(from, upto)) && from <= upto <= own.frames.Length
    modifies med`fq
    ensures med.fq == Offer(med.fqCap, old(med.fq), own.frames[from..upto])
    ensures IsStep(c, s, Refill, s') && MediatorView(c, s', own, med, rings, AfterRefill(c))
  {
    RefillMoves(c, s, from, upto);
    s' := Apply(c, s, Refill);
    med.Produce(own.frames[from..upto]);
  }

  /** One slice of ring `r`, which is still in the ring, goes to the fill queue. */
  method GiveBackSlice(own: XskData, med: UmemMediate, rings: seq<DescRing>, slice: seq<Frame>,
                       ghost c: Setup, ghost s: State, ghost step: Step, ghost r: nat, ghost n1: nat, ghost n2: nat)
    returns (ghost s': State)
    requires r < |rings| && rings[r].Valid() && n1 + n2 <= rings[r].Len()
    requires step.ProduceFirst? || step.ProduceSecond?
    requires MediatorView(c, s, own, med, rings,
                          if step.ProduceFirst? then Sliced(r, n1, n2) else HalfProduced(r, n1, n2))
    requires var lo := rings[r].taken + (if step.ProduceFirst? then 0 else n1);
      slice == rings[r].pushed[lo..lo + if step.ProduceFirst? then n1 else n2]
    modifies med`fq
    ensures med.fq == Offer(med.fqCap, old(med.fq), slice) && IsStep(c, s, step, s')
    ensures MediatorView(c, s', own, med, rings,
                         if step.ProduceFirst? then HalfProduced(r, n1, n2) else Produced(r, n1, n2))
  {
    assert IsRing(c, s, r, rings[r]);
    if step.ProduceFirst? { FirstMoves(c, s, r, n1, n2); } else { SecondMoves(c, s, r, n1, n2); }
    s' := Apply(c, s, step);
    med.Produce(slice);
    RingsUnmoved(c, s, s', rings, r);
  }

  lemma RingsUnmoved(c: Setup, s: State, s': State, rings: seq<DescRing>, r: nat)
    requires AreRings(c, s, rings) && Shaped(c, s') && r < |s.rings|
    requires forall q :: 0 <= q < |s.rings| && q != r ==> s'.rings[q] == s.rings[q]
    requires s'.rings[r].pushed == s.rings[r].pushed && s'.rings[r].taken == s.rings[r].taken
    ensures AreRings(c, s', rings)
  {
    forall q | 0 <= q < |rings|
      ensures IsRing(c, s', q, rings[q])
    {
      assert IsRing(c, s, q, rings[q]);
    }
  }

  method AdvanceRing(own: XskData, med: UmemMediate, rings: seq<DescRing>, ring: DescRing, n: nat,
                     ghost c: Setup, ghost s: State, ghost r: nat, ghost n1: nat, ghost n2: nat)
    returns (ghost s': State)
    requires r < |rings| && ring == rings[r] && n == n1 + n2 && ring.Valid() && n <= ring.Len()
    requires MediatorView(c, s, own, med, rings, Produced(r, n1, n2))
    modifies ring`taken
    ensures ring.taken == old(ring.taken) + n
    ensures IsStep(c, s, Advance, s') && MediatorView(c, s', own, med, rings, Drain(r + 1))
  {
    assert IsRing(c, s, r, ring);
    AdvanceMoves(c, s, r, n1, n2);
    s' := Apply(c, s, Advance);
    ring.Advance(n);
  }

  // ---- Meanwhile --------------------------------------------------------------------

  /** All that a remote worker holds: its socket and the write end of its ring. */
  ghost predicate RemoteView(c: Setup, s: State, t: nat, xsk: XskData, ring: DescRing, pc: Pc)
    reads xsk, xsk.frames, ring
  {
    IsRemote(c, t) && IsThread(c, s, t, xsk, pc) && IsRing(c, s, RingOf(c, t), ring)
  }

  /** Anything that the others and the kernel may do while a remote worker is between two of its
      steps. Callers know this contract only; the body shown is the case in which nobody moves. */
  method MeanwhileRemote(xsk: XskData, ring: DescRing, ghost c: Setup, ghost s: State, ghost t: nat, ghost pc: Pc)
    returns (ghost s': State)
    requires RemoteView(c, s, t, xsk, ring, pc)
    modifies xsk`rx, xsk`tx, ring`taken
    ensures Led(c, t, s, [], s') && RemoteView(c, s', t, xsk, ring, pc)
  {
    s' := s;
    LedNowhere(c, t, s);
  }

  /** The same for the mediator. */
  method MeanwhileMediator(own: XskData, med: UmemMediate, rings: seq<DescRing>, ghost c: Setup, ghost s: State,
                           ghost pc: Pc)
    returns (ghost s': State)
    requires MediatorView(c, s, own, med, rings, pc)
    modifies own`rx, own`tx, med`fq, med`cq, (set ring | ring in rings)`pushed
    ensures Led(c, Mediator(c), s, [], s') && MediatorView(c, s', own, med, rings, pc)
  {
    s' := s;
    LedNowhere(c, Mediator(c), s);
  }

  /** One step of its own, and then whatever the others do. */
  lemma OwnThenOthers(c: Setup, t: nat, s: State, own: seq<Step>, x: State, step: Step, y: State, z: State)
    requires Led(c, t, s, own, x) && IsStep(c, x, step, y) && Owner(c, step) == Some(t) && Led(c, t, y, [], z)
    ensures Led(c, t, s, own + [step], z)
  {
    LedOn(c, t, s, own, x, step, y);
    LedPastOthers(c, t, s, own + [step], y, z);
  }

  lemma LocalStep(c: Setup, s: State, step: Step, s': State)
    requires IsStep(c, s, step, s') && (step.Recv? || step.Partition? || step.Transmit?)
    ensures s'.rings == s.rings && s'.fq == s.fq && s'.cq == s.cq && |s'.threads| == |s.threads|
  {
  }

  /** A step that a remote worker has taken, and then whatever the others do. */
  method RemoteThenOthers(xsk: XskData, ring: DescRing, ghost c: Setup, ghost s0: State, ghost own: seq<Step>,
                          ghost s: State, ghost t: nat, ghost step: Step, ghost x: State, ghost pc: Pc)
    returns (ghost s': State)
    requires Led(c, t, s0, own, s) && IsStep(c, s, step, x) && Owner(c, step) == Some(t)
    requires RemoteView(c, x, t, xsk, ring, pc)
    modifies xsk`rx, xsk`tx, ring`taken
    ensures Led(c, t, s0, own + [step], s') && RemoteView(c, s', t, xsk, ring, pc)
  {
    s' := MeanwhileRemote(xsk, ring, c, x, t, pc);
    OwnThenOthers(c, t, s0, own, s, step, x, s');
  }

  /** The same for the mediator. */
  method MediatorThenOthers(own: XskData, med: UmemMediate, rings: seq<DescRing>, ghost c: Setup, ghost s0: State,
                            ghost steps: seq<Step>, ghost s: State, ghost step: Step, ghost x: State, ghost pc: Pc)
    returns (ghost s': State)
    requires Led(c, Mediator(c), s0, steps, s) && IsStep(c, s, step, x) && Owner(c, step) == Some(Mediator(c))
    requires MediatorView(c, x, own, med, rings, pc)
    modifies own`rx, own`tx, med`fq, med`cq, (set ring | ring in rings)`pushed
    ensures Led(c, Mediator(c), s0, steps + [step], s') && MediatorView(c, s', own, med, rings, pc)
  {
    s' := MeanwhileMediator(own, med, rings, c, x, pc);
    OwnThenOthers(c, Mediator(c), s0, steps, s, step, x, s');
  }

  /** The mediator's step touched neither the rings nor the shared queues. */
  lemma StillMediates(c: Setup, s: State, step: Step, x: State, own: XskData, med: UmemMediate, rings: seq<DescRing>,
                      pc: Pc)
    requires IsStep(c, s, step, x) && (step.Recv? || step.Partition? || step.Transmit?)
    requires HasQueues(c, s, med) && AreRings(c, s, rings) && Distinct(rings) && IsThread(c, x, Mediator(c), own, pc)
    ensures MediatorView(c, x, own, med, rings, pc)
  {
    LocalStep(c, s, step, x);
    RingsAreSame(c, s, x, rings);
  }

  // ---- A remote worker's pass among others ---------------------------------------------

  method RemoteReceive<K, S>(xsk: XskData, ring: DescRing, host: Host<K, S>, k: nat,
                             ghost c: Setup, ghost s: State, ghost t: nat)
    returns (ghost s': State)
    requires RemoteView(c, s, t, xsk, ring, Idle) && k <= |xsk.rx| && k <= xsk.frames.Length
    modifies xsk`rx, xsk`tx, xsk.frames, ring`taken, host
    ensures xsk.frames[..k] == old(xsk.rx)[..k] && xsk.frames[k..] == old(xsk.frames[k..])
    ensures Agree(Elements(xsk.frames[..k]), old(host.mem), host.mem)
    ensures Led(c, t, s, [Recv(t, k)], s') && RemoteView(c, s', t, xsk, ring, Received(k))
  {
    ghost var x := Receive(xsk, k, c, s, t);
    LocalStep(c, s, Recv(t, k), x);
    LedNowhere(c, t, s);
    s' := RemoteThenOthers(xsk, ring, c, s, [], s, t, Recv(t, k), x, Received(k));
    Elsewhere(host, Elements(xsk.frames[..k]), host.mem);
    assert [] + [Recv(t, k)] == [Recv(t, k)];
  }

  method RemotePartition<K(!new), S(!new)>(
      xsk: XskData, ring: DescRing, host: Host<K, S>, job: Job<K, S>, k: nat, log: seq<S>, ghost fed: NfOver<K, seq<S>>,
      ghost mine: Memory<K>, ghost c: Setup, ghost s0: State, ghost own: seq<Step>, ghost s: State, ghost t: nat)
    returns (numTx: nat, log': seq<S>, ghost s': State)
    requires Led(c, t, s0, own, s) && RemoteView(c, s, t, xsk, ring, Received(k)) && k <= xsk.frames.Length
    requires IsFed(job, fed) && Smooth(job.rt, fed, xsk.frames[..k], mine, log)
    requires Agree(Elements(xsk.frames[..k]), mine, host.mem)
    modifies xsk`rx, xsk`tx, xsk.frames, ring`taken, host
    ensures var r := Process(job.rt, fed, old(xsk.frames[..k]), mine, log);
      && Partitions(r, old(xsk.frames[..]), xsk.frames[..], numTx, k) && log' == r.world
      && Agree(Elements(xsk.frames[..k]), r.mem, host.mem)
    ensures Led(c, t, s0, own + [Step.Partition(t, xsk.frames[..], numTx)], s')
    ensures RemoteView(c, s', t, xsk, ring, Partitioned(numTx, k))
  {
    ghost var r := Process(job.rt, fed, xsk.frames[..k], mine, log);
    ghost var x;
    numTx, log', x := Partition(xsk, host, job, k, log, fed, mine, c, s, t);
    ghost var step := Step.Partition(t, xsk.frames[..], numTx);
    LocalStep(c, s, step, x);
    s' := RemoteThenOthers(xsk, ring, c, s0, own, s, t, step, x, Partitioned(numTx, k));
    Elsewhere(host, Elements(xsk.frames[..k]), r.mem);
  }

  method RemoteSend(xsk: XskData, ring: DescRing, numTx: nat, k: nat,
                    ghost c: Setup, ghost s0: State, ghost own: seq<Step>, ghost s: State, ghost t: nat)
    returns (ghost s': State)
    requires Led(c, t, s0, own, s) && RemoteView(c, s, t, xsk, ring, Partitioned(numTx, k))
    requires numTx <= xsk.frames.Length
    modifies xsk`rx, xsk`tx, ring`taken
    ensures Led(c, t, s0, own + [Step.Transmit(t)], s') && RemoteView(c, s', t, xsk, ring, Sent(numTx, k))
  {
    ghost var x := SendKept(xsk, numTx, k, c, s, t);
    LocalStep(c, s, Step.Transmit(t), x);
    s' := RemoteThenOthers(xsk, ring, c, s0, own, s, t, Step.Transmit(t), x, Sent(numTx, k));
  }

  method RemotePush(xsk: XskData, ring: DescRing, numTx: nat, k: nat,
                    ghost c: Setup, ghost s0: State, ghost own: seq<Step>, ghost s: State, ghost t: nat)
    returns (ghost s': State)
    requires Led(c, t, s0, own, s) && RemoteView(c, s, t, xsk, ring, Sent(numTx, k)) && numTx <= k <= xsk.frames.Length
    modifies xsk`rx, xsk`tx, ring
    ensures Led(c, t, s0, own + [Push(t)], s') && RemoteView(c, s', t, xsk, ring, Idle)
  {
    ghost var x := PushDropped(xsk, ring, numTx, k, c, s, t);
    s' := RemoteThenOthers(xsk, ring, c, s0, own, s, t, Push(t), x, Idle);
  }

  /** The steps a worker takes of its own in every pass. */
  function Head(t: nat, k: nat, b: seq<Frame>, numTx: nat): seq<Step> {
    [Recv(t, k)] + [Step.Partition(t, b, numTx)] + [Step.Transmit(t)]
  }

  /** A remote worker's pass, interrupted at will: its own steps are exactly receive, partition,
      transmit and push, the partition being that of the packets it received. */
  method OtherMediateAmongOthers<K(!new), S(!new)>(
      xsk: XskData, ring: DescRing, host: Host<K, S>, job: Job<K, S>, k: nat, log: seq<S>, ghost fed: NfOver<K, seq<S>>,
      ghost c: Setup, ghost s: State, ghost t: nat)
    returns (numTx: nat, log': seq<S>, ghost s': State)
    requires k <= xsk.frames.Length && k <= |xsk.rx| && RemoteView(c, s, t, xsk, ring, Idle)
    requires IsFed(job, fed) && Smooth(job.rt, fed, xsk.rx[..k], host.mem, log)
    modifies xsk`rx, xsk`tx, xsk.frames, ring, host
    ensures var r := Process(job.rt, fed, old(xsk.rx)[..k], old(host.mem), log);
      Partitions(r, old(xsk.frames[..]), xsk.frames[..], numTx, k) && log' == r.world
    ensures Led(c, t, s, Head(t, k, xsk.frames[..], numTx) + [Push(t)], s')
    ensures RemoteView(c, s', t, xsk, ring, Idle)
  {
    ghost var mine := host.mem;
    ghost var x := RemoteReceive(xsk, ring, host, k, c, s, t);
    ghost var own := [Recv(t, k)];
    numTx, log', x := RemotePartition(xsk, ring, host, job, k, log, fed, mine, c, s, own, x, t);
    own := own + [Step.Partition(t, xsk.frames[..], numTx)];
    x := RemoteSend(xsk, ring, numTx, k, c, s, own, x, t);
    own := own + [Step.Transmit(t)];
    s' := RemotePush(xsk, ring, numTx, k, c, s, own, x, t);
    Elsewhere(host, {}, host.mem);
  }

  // ---- The mediator's steps among others ------------------------------------------------

  /** The ring still holds `slice`, from `at` descriptors behind its read position on. */
  ghost predicate Holds(ring: DescRing, at: nat, slice: seq<Frame>)
    reads ring
  {
    var lo := ring.taken + at;
    lo + |slice| <= |ring.pushed| && ring.pushed[lo..lo + |slice|] == slice
  }

  lemma SliceKept(xs: seq<Frame>, ys: seq<Frame>, lo: nat, slice: seq<Frame>)
    requires xs <= ys && lo + |slice| <= |xs| && xs[lo..lo + |slice|] == slice
    ensures ys[lo..lo + |slice|] == slice
  {
  }

  /** Ring `ring` of a protocol state holds `slice`. */
  ghost predicate RingHolds(ring: Ring, at: nat, slice: seq<Frame>) {
    var lo := ring.taken + at;
    lo + |slice| <= |ring.pushed| && ring.pushed[lo..lo + |slice|] == slice
  }

  lemma StillHolds(c: Setup, s: State, s': State, r: nat, at: nat, slice: seq<Frame>)
    requires Relies(c, Mediator(c), s, s') && r < NumRings(c) && RingHolds(s.rings[r], at, slice)
    ensures RingHolds(s'.rings[r], at, slice)
  {
    assert s.rings[r].pushed <= s'.rings[r].pushed && s'.rings[r].taken == s.rings[r].taken;
    SliceKept(s.rings[r].pushed, s'.rings[r].pushed, s.rings[r].taken + at, slice);
  }

  /** What the others leave to the mediator: a slice that ring `r` held stays where it is. */
  method MeanwhileKeeps(own: XskData, med: UmemMediate, rings: seq<DescRing>, ring: DescRing, ghost c: Setup,
                        ghost s: State, ghost pc: Pc, ghost r: nat, ghost at: nat, ghost slice: seq<Frame>)
    returns (ghost s': State)
    requires MediatorView(c, s, own, med, rings, pc) && r < |rings| && ring == rings[r] && Holds(ring, at, slice)
    modifies own`rx, own`tx, med`fq, med`cq, (set ring | ring in rings)`pushed
    ensures Led(c, Mediator(c), s, [], s') && MediatorView(c, s', own, med, rings, pc) && Holds(ring, at, slice)
  {
    assert IsRing(c, s, r, ring);
    s' := MeanwhileMediator(own, med, rings, c, s, pc);
    assert IsRing(c, s', r, ring);
    OthersLeaveAlone(c, Mediator(c), s, s');
    StillHolds(c, s, s', r, at, slice);
  }

  method MediatorReceive<K, S>(own: XskData, med: UmemMediate, rings: seq<DescRing>, host: Host<K, S>, k: nat,
                               ghost c: Setup, ghost s: State)
    returns (ghost s': State)
    requires MediatorView(c, s, own, med, rings, Idle) && c.mode.FirstThread? && k <= |own.rx| && k <= own.frames.Length
    modifies own`rx, own`tx, own.frames, med`fq, med`cq, (set ring | ring in rings)`pushed, host
    ensures own.frames[..k] == old(own.rx)[..k] && own.frames[k..] == old(own.frames[k..])
    ensures Agree(Elements(own.frames[..k]), old(host.mem), host.mem)
    ensures Led(c, 0, s, [Recv(0, k)], s') && MediatorView(c, s', own, med, rings, Received(k))
  {
    ghost var x := Receive(own, k, c, s, 0);
    StillMediates(c, s, Recv(0, k), x, own, med, rings, Received(k));
    LedNowhere(c, 0, s);
    s' := MediatorThenOthers(own, med, rings, c, s, [], s, Recv(0, k), x, Received(k));
    Elsewhere(host, Elements(own.frames[..k]), host.mem);
    assert [] + [Recv(0, k)] == [Recv(0, k)];
  }

  method MediatorPartition<K(!new), S(!new)>(
      own: XskData, med: UmemMediate, rings: seq<DescRing>, host: Host<K, S>, job: Job<K, S>, k: nat, log: seq<S>,
      ghost fed: NfOver<K, seq<S>>, ghost mine: Memory<K>,
      ghost c: Setup, ghost s0: State, ghost steps: seq<Step>, ghost s: State)
    returns (numTx: nat, log': seq<S>, ghost s': State)
    requires Led(c, 0, s0, steps, s) && c.mode.FirstThread? && MediatorView(c, s, own, med, rings, Received(k))
    requires k <= own.frames.Length && IsFed(job, fed) && Smooth(job.rt, fed, own.frames[..k], mine, log)
    requires Agree(Elements(own.frames[..k]), mine, host.mem)
    modifies own`rx, own`tx, own.frames, med`fq, med`cq, (set ring | ring in rings)`pushed, host
    ensures var r := Process(job.rt, fed, old(own.frames[..k]), mine, log);
      && Partitions(r, old(own.frames[..]), own.frames[..], numTx, k) && log' == r.world
      && Agree(Elements(own.frames[..k]), r.mem, host.mem)
    ensures Led(c, 0, s0, steps + [Step.Partition(0, own.frames[..], numTx)], s')
    ensures MediatorView(c, s', own, med, rings, Partitioned(numTx, k))
  {
    ghost var r := Process(job.rt, fed, own.frames[..k], mine, log);
    ghost var x;
    numTx, log', x := Partition(own, host, job, k, log, fed, mine, c, s, 0);
    ghost var step := Step.Partition(0, own.frames[..], numTx);
    StillMediates(c, s, step, x, own, med, rings, Partitioned(numTx, k));
    s' := MediatorThenOthers(own, med, rings, c, s0, steps, s, step, x, Partitioned(numTx, k));
    Elsewhere(host, Elements(own.frames[..k]), r.mem);
  }

  method MediatorSend(own: XskData, med: UmemMediate, rings: seq<DescRing>, numTx: nat, k: nat,
                      ghost c: Setup, ghost s0: State, ghost steps: seq<Step>, ghost s: State)
    returns (ghost s': State)
    requires Led(c, 0, s0, steps, s) && c.mode.FirstThread?
    requires MediatorView(c, s, own, med, rings, Partitioned(numTx, k)) && numTx <= own.frames.Length
    modifies own`rx, own`tx, med`fq, med`cq, (set ring | ring in rings)`pushed
    ensures Led(c, 0, s0, steps + [Step.Transmit(0)], s') && MediatorView(c, s', own, med, rings, Sent(numTx, k))
  {
    ghost var x := SendKept(own, numTx, k, c, s, 0);
    StillMediates(c, s, Step.Transmit(0), x, own, med, rings, Sent(numTx, k));
    s' := MediatorThenOthers(own, med, rings, c, s0, steps, s, Step.Transmit(0), x, Sent(numTx, k));
  }

  /** Collects all completions that fit behind index `at`. */
  method MediatorCollect(own: XskData, med: UmemMediate, rings: seq<DescRing>, from: nat, at: nat,
                         ghost c: Setup, ghost s0: State, ghost steps: seq<Step>, ghost s: State)
    returns (m: nat, upto: nat, ghost s': State)
    requires Led(c, Mediator(c), s0, steps, s) && (c.mode.ExtraThread? ==> from == at == 0)
    requires MediatorView(c, s, own, med, rings, if c.mode.FirstThread? then Sent(from, at) else Drain(NumRings(c)))
    requires at <= own.frames.Length
    modifies own`rx, own`tx, own.frames, med`fq, med`cq, (set ring | ring in rings)`pushed
    ensures m == Min(own.frames.Length - at, old(|med.cq|)) && upto == at + m
    ensures own.frames[..at] == old(own.frames[..at]) && own.frames[at..upto] == old(med.cq)[..m]
    ensures Led(c, Mediator(c), s0, steps + [Reap(m)], s')
    ensures MediatorView(c, s', own, med, rings, Completed(from, upto))
  {
    m := if own.frames.Length - at <= |med.cq| then own.frames.Length - at else |med.cq|;
    upto := at + m;
    ghost var x := Collect(own, med, rings, from, at, m, c, s);
    s' := MediatorThenOthers(own, med, rings, c, s0, steps, s, Reap(m), x, Completed(from, upto));
  }

  method MediatorGiveBack(own: XskData, med: UmemMediate, rings: seq<DescRing>, from: nat, upto: nat,
                          ghost c: Setup, ghost s0: State, ghost steps: seq<Step>, ghost s: State)
    returns (ghost s': State)
    requires Led(c, Mediator(c), s0, steps, s)
    requires MediatorView(c, s, own, med, rings, Completed(from, upto)) && from <= upto <= own.frames.Length
    modifies own`rx, own`tx, med`fq, med`cq, (set ring | ring in rings)`pushed
    ensures Led(c, Mediator(c), s0, steps + [Refill], s') && MediatorView(c, s', own, med, rings, AfterRefill(c))
  {
    ghost var x := GiveBack(own, med, rings, from, upto, c, s);
    s' := MediatorThenOthers(own, med, rings, c, s0, steps, s, Refill, x, AfterRefill(c));
  }

  // ---- Draining a ring among others -------------------------------------------------------

  /** The mediator's own steps at one ring: it is found empty, or drained. */
  function Visit(full: bool): seq<Step> {
    if full then [Look] + [ProduceFirst] + [ProduceSecond] + [Advance] else [Look]
  }

  /** Its own steps at as many rings as `fulls` tells of. */
  function Visits(fulls: seq<bool>): seq<Step> {
    if fulls == [] then [] else Visits(fulls[..|fulls| - 1]) + Visit(fulls[|fulls| - 1])
  }

  /** A ring holds two slices one behind the other exactly if it holds them joined. */
  lemma HoldsBoth(ring: DescRing, s1: seq<Frame>, s2: seq<Frame>)
    requires Holds(ring, 0, s1 + s2)
    ensures Holds(ring, 0, s1) && Holds(ring, |s1|, s2)
  {
    var held := ring.pushed[ring.taken..ring.taken + |s1 + s2|];
    assert held[..|s1|] == s1 && held[|s1|..] == s2;
    assert ring.pushed[ring.taken..ring.taken + |s1|] == held[..|s1|];
    assert ring.pushed[ring.taken + |s1|..ring.taken + |s1| + |s2|] == held[|s1|..];
  }

  /** Looks at ring `r`: its two slices, or nothing. */
  method LookAt(own: XskData, med: UmemMediate, rings: seq<DescRing>, r: nat, next: nat, ghost c: Setup, ghost s: State)
    returns (s1: seq<Frame>, s2: seq<Frame>, full: bool, ghost s': State)
    requires r < |rings| && next == r + 1 && MediatorView(c, s, own, med, rings, Drain(r))
    ensures IsStep(c, s, Look, s') && Holds(rings[r], 0, s1 + s2)
    ensures MediatorView(c, s', own, med, rings, if full then Sliced(r, |s1|, |s2|) else Drain(next))
  {
    var ring := rings[r];
    assert IsRing(c, s, r, ring);
    LookMoves(c, s, r);
    s' := Apply(c, s, Look);
    RingsUnmoved(c, s, s', rings, r);
    if ring.Len() == 0 { return [], [], false, s'; }
    s1, s2 := ring.AsSlices();
    full := true;
  }

  method LookAmongOthers(own: XskData, med: UmemMediate, rings: seq<DescRing>, r: nat, next: nat,
                         ghost c: Setup, ghost s0: State, ghost steps: seq<Step>, ghost s: State)
    returns (s1: seq<Frame>, s2: seq<Frame>, full: bool, ghost s': State)
    requires Led(c, Mediator(c), s0, steps, s)
    requires r < |rings| && next == r + 1 && MediatorView(c, s, own, med, rings, Drain(r))
    modifies own`rx, own`tx, med`fq, med`cq, (set ring | ring in rings)`pushed
    ensures Led(c, Mediator(c), s0, steps + [Look], s') && Holds(rings[r], 0, s1 + s2)
    ensures MediatorView(c, s', own, med, rings, if full then Sliced(r, |s1|, |s2|) else Drain(next))
  {
    ghost var x;
    s1, s2, full, x := LookAt(own, med, rings, r, next, c, s);
    ghost var pc := if full then Sliced(r, |s1|, |s2|) else Drain(next);
    s' := MeanwhileKeeps(own, med, rings, rings[r], c, x, pc, r, 0, s1 + s2);
    OwnThenOthers(c, Mediator(c), s0, steps, s, Look, x, s');
  }

  method FirstAmongOthers(own: XskData, med: UmemMediate, rings: seq<DescRing>, r: nat, s1: seq<Frame>, s2: seq<Frame>,
                          ghost c: Setup, ghost s0: State, ghost steps: seq<Step>, ghost s: State)
    returns (ghost s': State)
    requires Led(c, Mediator(c), s0, steps, s) && r < |rings|
    requires MediatorView(c, s, own, med, rings, Sliced(r, |s1|, |s2|)) && Holds(rings[r], 0, s1 + s2)
    modifies own`rx, own`tx, med`fq, med`cq, (set ring | ring in rings)`pushed
    ensures Led(c, Mediator(c), s0, steps + [ProduceFirst], s')
    ensures MediatorView(c, s', own, med, rings, HalfProduced(r, |s1|, |s2|)) && Holds(rings[r], |s1|, s2)
  {
    assert IsRing(c, s, r, rings[r]);
    HoldsBoth(rings[r], s1, s2);
    ghost var x := GiveBackSlice(own, med, rings, s1, c, s, ProduceFirst, r, |s1|, |s2|);
    s' := MeanwhileKeeps(own, med, rings, rings[r], c, x, HalfProduced(r, |s1|, |s2|), r, |s1|, s2);
    OwnThenOthers(c, Mediator(c), s0, steps, s, ProduceFirst, x, s');
  }

  method SecondAmongOthers(own: XskData, med: UmemMediate, rings: seq<DescRing>, r: nat, n1: nat, s2: seq<Frame>,
                           ghost c: Setup, ghost s0: State, ghost steps: seq<Step>, ghost s: State)
    returns (ghost s': State)
    requires Led(c, Mediator(c), s0, steps, s) && r < |rings|
    requires MediatorView(c, s, own, med, rings, HalfProduced(r, n1, |s2|)) && Holds(rings[r], n1, s2)
    modifies own`rx, own`tx, med`fq, med`cq, (set ring | ring in rings)`pushed
    ensures Led(c, Mediator(c), s0, steps + [ProduceSecond], s')
    ensures MediatorView(c, s', own, med, rings, Produced(r, n1, |s2|)) && Holds(rings[r], n1, s2)
  {
    assert IsRing(c, s, r, rings[r]);
    ghost var x := GiveBackSlice(own, med, rings, s2, c, s, ProduceSecond, r, n1, |s2|);
    s' := MeanwhileKeeps(own, med, rings, rings[r], c, x, Produced(r, n1, |s2|), r, n1, s2);
    OwnThenOthers(c, Mediator(c), s0, steps, s, ProduceSecond, x, s');
  }

  method AdvanceAmongOthers(own: XskData, med: UmemMediate, rings: seq<DescRing>, r: nat, next: nat, n1: nat,
                            s2: seq<Frame>, ghost c: Setup, ghost s0: State, ghost steps: seq<Step>, ghost s: State)
    returns (ghost s': State)
    requires Led(c, Mediator(c), s0, steps, s) && r < |rings| && next == r + 1
    requires MediatorView(c, s, own, med, rings, Produced(r, n1, |s2|)) && Holds(rings[r], n1, s2)
    modifies own`rx, own`tx, med`fq, med`cq, rings
    ensures Led(c, Mediator(c), s0, steps + [Advance], s') && MediatorView(c, s', own, med, rings, Drain(next))
  {
    assert IsRing(c, s, r, rings[r]);
    ghost var x := AdvanceRing(own, med, rings, rings[r], n1 + |s2|, c, s, r, n1, |s2|);
    s' := MediatorThenOthers(own, med, rings, c, s0, steps, s, Advance, x, Drain(next));
  }

  /** The rest of a visit to a ring that was found to hold something. */
  method EmptyAmongOthers(own: XskData, med: UmemMediate, rings: seq<DescRing>, r: nat, next: nat,
                          s1: seq<Frame>, s2: seq<Frame>, ghost c: Setup, ghost s0: State, ghost steps: seq<Step>,
                          ghost s: State)
    returns (ghost s': State)
    requires Led(c, Mediator(c), s0, steps, s) && r < |rings| && next == r + 1
    requires MediatorView(c, s, own, med, rings, Sliced(r, |s1|, |s2|)) && Holds(rings[r], 0, s1 + s2)
    modifies own`rx, own`tx, med`fq, med`cq, rings
    ensures Led(c, Mediator(c), s0, steps + [ProduceFirst] + [ProduceSecond] + [Advance], s')
    ensures MediatorView(c, s', own, med, rings, Drain(next))
  {
    s' := FirstAmongOthers(own, med, rings, r, s1, s2, c, s0, steps, s);
    s' := SecondAmongOthers(own, med, rings, r, |s1|, s2, c, s0, steps + [ProduceFirst], s');
    s' := AdvanceAmongOthers(own, med, rings, r, next, |s1|, s2, c, s0, steps + [ProduceFirst] + [ProduceSecond], s');
  }

  lemma FullVisit(steps: seq<Step>)
    ensures steps + [Look] + [ProduceFirst] + [ProduceSecond] + [Advance] == steps + Visit(true)
    ensures steps + [Look] == steps + Visit(false)
  {
  }

  /** Drains ring `r`, interrupted at will. */
  method DrainAmongOthers(own: XskData, med: UmemMediate, rings: seq<DescRing>, r: nat, next: nat,
                          ghost c: Setup, ghost s0: State, ghost steps: seq<Step>, ghost s: State)
    returns (full: bool, ghost s': State)
    requires Led(c, Mediator(c), s0, steps, s) && r < |rings| && next == r + 1
    requires MediatorView(c, s, own, med, rings, Drain(r))
    modifies own`rx, own`tx, med`fq, med`cq, rings
    ensures Led(c, Mediator(c), s0, steps + Visit(full), s') && MediatorView(c, s', own, med, rings, Drain(next))
  {
    var s1, s2;
    s1, s2, full, s' := LookAmongOthers(own, med, rings, r, next, c, s0, steps, s);
    FullVisit(steps);
    if full { s' := EmptyAmongOthers(own, med, rings, r, next, s1, s2, c, s0, steps + [Look], s'); }
  }

  lemma OneMoreVisit(steps: seq<Step>, fulls: seq<bool>, full: bool)
    ensures steps + Visits(fulls + [full]) == steps + Visits(fulls) + Visit(full)
  {
    assert (fulls + [full])[..|fulls|] == fulls;
  }

  /** Drains all rings in order, interrupted at will. */
  method DrainAllAmongOthers(own: XskData, med: UmemMediate, rings: seq<DescRing>,
                             ghost c: Setup, ghost s0: State, ghost steps: seq<Step>, ghost s: State)
    returns (ghost fulls: seq<bool>, ghost s': State)
    requires Led(c, Mediator(c), s0, steps, s) && MediatorView(c, s, own, med, rings, Drain(0))
    modifies own`rx, own`tx, med`fq, med`cq, rings
    ensures |fulls| == NumRings(c)
    ensures Led(c, Mediator(c), s0, steps + Visits(fulls), s')
    ensures MediatorView(c, s', own, med, rings, Drain(NumRings(c)))
  {
    fulls, s' := [], s;
    assert steps + Visits([]) == steps;
    var i := 0;
    while i < |rings|
      invariant i <= |rings| == NumRings(c) && |fulls| == i
      invariant Led(c, Mediator(c), s0, steps + Visits(fulls), s') && MediatorView(c, s', own, med, rings, Drain(i))
    {
      var full;
      var next := i + 1;
      full, s' := DrainAmongOthers(own, med, rings, i, next, c, s0, steps + Visits(fulls), s');
      OneMoreVisit(steps, fulls, full);
      fulls, i := fulls + [full], next;
    }
  }

  // ---- What a pass collects -------------------------------------------------------------------

  /** Everything that was completed before the pass and fits is collected; perhaps more. */
  predicate CollectsAll(room: int, waiting: nat, m: nat) { m <= room && (waiting <= m || m == room) }

  predicate NoReap(steps: seq<Step>) { forall i :: 0 <= i < |steps| ==> !steps[i].Reap? }

  lemma StepKeepsCompletions(c: Setup, s: State, step: Step, s': State)
    requires IsStep(c, s, step, s') && !step.Reap?
    ensures s.cq <= s'.cq
  {
  }

  lemma {:induction false} CompletionsStay(c: Setup, h: History)
    requires Legal(c, h) && NoReap(OwnOf(c, Mediator(c), h))
    ensures StartOf(h).cq <= EndOf(h).cq
  {
    match h
    case Begin(_) =>
    case Then(past, step, s) =>
      var own := OwnOf(c, Mediator(c), past);
      var all := OwnOf(c, Mediator(c), h);
      assert own == all[..|own|];
      if Owner(c, step) == Some(Mediator(c)) { assert all[|own|] == step; }
      CompletionsStay(c, past);
      StepKeepsCompletions(c, EndOf(past), step, s);
  }

  /** Until the mediator itself collects them, completions wait in their order. */
  lemma CompletionsWait(c: Setup, s: State, own: seq<Step>, s': State)
    requires Led(c, Mediator(c), s, own, s') && NoReap(own)
    ensures s.cq <= s'.cq
  {
    var h :| Tells(c, Mediator(c), h, s, own, s');
    CompletionsStay(c, h);
  }

  lemma {:induction false} VisitsReapNothing(fulls: seq<bool>)
    ensures NoReap(Visits(fulls))
  {
    if fulls != [] { VisitsReapNothing(fulls[..|fulls| - 1]); }
  }

  // ---- The mediators' passes among others ---------------------------------------------------

  /** Receiving, partitioning and sending, interrupted at will. */
  method HeadAmongOthers<K(!new), S(!new)>(
      own: XskData, med: UmemMediate, rings: seq<DescRing>, host: Host<K, S>, job: Job<K, S>,
      k: nat, log: seq<S>, ghost fed: NfOver<K, seq<S>>, ghost c: Setup, ghost s: State)
    returns (numTx: nat, log': seq<S>, ghost s': State)
    requires k <= own.frames.Length && k <= |own.rx|
    requires IsFed(job, fed) && Smooth(job.rt, fed, own.rx[..k], host.mem, log)
    requires c.mode.FirstThread? && MediatorView(c, s, own, med, rings, Idle)
    modifies own`rx, own`tx, own.frames, med`fq, med`cq, (set ring | ring in rings)`pushed, host
    ensures var r := Process(job.rt, fed, old(own.rx)[..k], old(host.mem), log);
      Partitions(r, old(own.frames[..]), own.frames[..], numTx, k) && log' == r.world
    ensures Led(c, 0, s, Head(0, k, own.frames[..], numTx), s') && MediatorView(c, s', own, med, rings, Sent(numTx, k))
  {
    ghost var mine := host.mem;
    ghost var x := MediatorReceive(own, med, rings, host, k, c, s);
    ghost var steps := [Recv(0, k)];
    numTx, log', x := MediatorPartition(own, med, rings, host, job, k, log, fed, mine, c, s, steps, x);
    steps := steps + [Step.Partition(0, own.frames[..], numTx)];
    s' := MediatorSend(own, med, rings, numTx, k, c, s, steps, x);
    Elsewhere(host, {}, host.mem);
  }

  /** Collecting and refilling, interrupted at will. */
  method ReapAmongOthers(own: XskData, med: UmemMediate, rings: seq<DescRing>, from: nat, at: nat,
                         ghost c: Setup, ghost s0: State, ghost steps: seq<Step>, ghost s: State)
    returns (m: nat, ghost s': State)
    requires Led(c, Mediator(c), s0, steps, s) && (c.mode.ExtraThread? ==> from == at == 0)
    requires MediatorView(c, s, own, med, rings, if c.mode.FirstThread? then Sent(from, at) else Drain(NumRings(c)))
    requires from <= at <= own.frames.Length
    modifies own`rx, own`tx, own.frames, med`fq, med`cq, (set ring | ring in rings)`pushed
    ensures m == Min(own.frames.Length - at, old(|med.cq|)) && own.frames[..at] == old(own.frames[..at])
    ensures Led(c, Mediator(c), s0, steps + [Reap(m)] + [Refill], s')
    ensures MediatorView(c, s', own, med, rings, AfterRefill(c))
  {
    var upto;
    ghost var x;
    m, upto, x := MediatorCollect(own, med, rings, from, at, c, s0, steps, s);
    s' := MediatorGiveBack(own, med, rings, from, upto, c, s0, steps + [Reap(m)], x);
  }

  /** What both mediating workers do, interrupted at will. */
  method HandBackAmongOthers<K(!new), S(!new)>(
      own: XskData, med: UmemMediate, rings: seq<DescRing>, host: Host<K, S>, job: Job<K, S>,
      k: nat, log: seq<S>, ghost fed: NfOver<K, seq<S>>, ghost c: Setup, ghost s: State)
    returns (numTx: nat, m: nat, log': seq<S>, ghost b: seq<Frame>, ghost s': State)
    requires k <= own.frames.Length && k <= |own.rx|
    requires IsFed(job, fed) && Smooth(job.rt, fed, own.rx[..k], host.mem, log)
    requires c.mode.FirstThread? && MediatorView(c, s, own, med, rings, Idle)
    modifies own`rx, own`tx, own.frames, med`fq, med`cq, (set ring | ring in rings)`pushed, host
    ensures var r := Process(job.rt, fed, old(own.rx)[..k], old(host.mem), log);
      Partitions(r, old(own.frames[..]), b, numTx, k) && log' == r.world
    ensures CollectsAll(own.frames.Length - k, old(|med.cq|), m) && own.frames[..k] == b[..k]
    ensures Led(c, 0, s, Head(0, k, b, numTx) + [Reap(m)] + [Refill], s')
    ensures MediatorView(c, s', own, med, rings, AfterRefill(c))
  {
    ghost var x;
    numTx, log', x := HeadAmongOthers(own, med, rings, host, job, k, log, fed, c, s);
    b := own.frames[..];
    CompletionsWait(c, s, Head(0, k, b, numTx), x);
    m, s' := ReapAmongOthers(own, med, rings, numTx, k, c, s, Head(0, k, b, numTx), x);
  }

  /** The lone worker's pass, interrupted by the kernel at will. */
  method SoloAmongOthers<K(!new), S(!new)>(
      own: XskData, med: UmemMediate, host: Host<K, S>, job: Job<K, S>, k: nat,
      log: seq<S>, ghost fed: NfOver<K, seq<S>>, ghost c: Setup, ghost s: State)
    returns (numTx: nat, m: nat, log': seq<S>, ghost b: seq<Frame>, ghost s': State)
    requires k <= own.frames.Length && k <= |own.rx|
    requires IsFed(job, fed) && Smooth(job.rt, fed, own.rx[..k], host.mem, log)
    requires c.mode.FirstThread? && c.workers == 1 && MediatorView(c, s, own, med, [], Idle)
    modifies own`rx, own`tx, own.frames, med`fq, med`cq, host
    ensures var r := Process(job.rt, fed, old(own.rx)[..k], old(host.mem), log);
      Partitions(r, old(own.frames[..]), b, numTx, k) && log' == r.world
    ensures CollectsAll(own.frames.Length - k, old(|med.cq|), m)
    ensures Led(c, 0, s, Head(0, k, b, numTx) + [Reap(m)] + [Refill], s')
    ensures MediatorView(c, s', own, med, [], Idle)
  {
    numTx, m, log', b, s' := HandBackAmongOthers(own, med, [], host, job, k, log, fed, c, s);
  }

  /** Back to the head of the loop. */
  method WrapAmongOthers(own: XskData, med: UmemMediate, rings: seq<DescRing>,
                         ghost c: Setup, ghost s0: State, ghost steps: seq<Step>, ghost s: State)
    returns (ghost s': State)
    requires Led(c, 0, s0, steps, s) && c.mode.FirstThread?
    requires MediatorView(c, s, own, med, rings, Drain(NumRings(c)))
    modifies own`rx, own`tx, med`fq, med`cq, (set ring | ring in rings)`pushed
    ensures Led(c, 0, s0, steps + [Wrap], s') && MediatorView(c, s', own, med, rings, Idle)
  {
    ghost var x := Apply(c, s, Wrap);
    RingsAreSame(c, s, x, rings);
    s' := MediatorThenOthers(own, med, rings, c, s0, steps, s, Wrap, x, Idle);
  }

  /** The pass of the first of several workers, interrupted at will: its own steps are those of
      the lone worker, a visit of every ring, and the way back to the head. */
  method SelfMediateAmongOthers<K(!new), S(!new)>(
      own: XskData, med: UmemMediate, rings: seq<DescRing>, host: Host<K, S>, job: Job<K, S>,
      k: nat, log: seq<S>, ghost fed: NfOver<K, seq<S>>, ghost c: Setup, ghost s: State)
    returns (numTx: nat, m: nat, log': seq<S>, ghost b: seq<Frame>, ghost fulls: seq<bool>, ghost s': State)
    requires k <= own.frames.Length && k <= |own.rx|
    requires IsFed(job, fed) && Smooth(job.rt, fed, own.rx[..k], host.mem, log)
    requires c.mode.FirstThread? && c.workers > 1 && MediatorView(c, s, own, med, rings, Idle)
    modifies own`rx, own`tx, own.frames, med`fq, med`cq, rings, host
    ensures var r := Process(job.rt, fed, old(own.rx)[..k], old(host.mem), log);
      Partitions(r, old(own.frames[..]), b, numTx, k) && log' == r.world
    ensures CollectsAll(own.frames.Length - k, old(|med.cq|), m) && |fulls| == NumRings(c)
    ensures Led(c, 0, s, Head(0, k, b, numTx) + [Reap(m)] + [Refill] + Visits(fulls) + [Wrap], s')
    ensures MediatorView(c, s', own, med, rings, Idle)
  {
    ghost var x;
    numTx, m, log', b, x := HandBackAmongOthers(own, med, rings, host, job, k, log, fed, c, s);
    ghost var steps := Head(0, k, b, numTx) + [Reap(m)] + [Refill];
    fulls, x := DrainAllAmongOthers(own, med, rings, c, s, steps, x);
    s' := WrapAmongOthers(own, med, rings, c, s, steps + Visits(fulls), x);
    Elsewhere(host, {}, host.mem);
  }

  /** The extra thread's pass, interrupted at will. */
  method ExtraThreadAmongOthers(own: XskData, med: UmemMediate, rings: seq<DescRing>, ghost c: Setup, ghost s: State)
    returns (m: nat, ghost fulls: seq<bool>, ghost s': State)
    requires c.mode.ExtraThread? && MediatorView(c, s, own, med, rings, Drain(0))
    modifies own`rx, own`tx, own.frames, med`fq, med`cq, rings
    ensures CollectsAll(own.frames.Length, old(|med.cq|), m) && |fulls| == NumRings(c)
    ensures Led(c, Mediator(c), s, Visits(fulls) + [Reap(m)] + [Refill], s')
    ensures MediatorView(c, s', own, med, rings, Drain(0))
  {
    LedNowhere(c, Mediator(c), s);
    ghost var x;
    fulls, x := DrainAllAmongOthers(own, med, rings, c, s, [], s);
    assert [] + Visits(fulls) == Visits(fulls);
    VisitsReapNothing(fulls);
    CompletionsWait(c, s, Visits(fulls), x);
    m, s' := ReapAmongOthers(own, med, rings, 0, 0, c, s, Visits(fulls), x);
  }
}
