/**
  Ownership of the UMEM frame descriptors while several dataplane threads and the
  kernel pass them around.

  One machine covers the three mediation variants:
    - first-thread disposal with one core: thread 0 recycles alone;
    - first-thread disposal with more cores: thread 0 recycles its own frames and
      drains one ring for every other thread;
    - extra-thread disposal: an additional thread drains one ring for every worker.
  Every queue operation of a thread is a step of its own, and so is every part of a
  ring drain, so a run interleaves them in any order with each other and the kernel.
*/
module FrameProtocol {

  type Frame = nat

  datatype Disposal = FirstThread | ExtraThread

  datatype RawSetup = RawSetup(
    workers: nat,      // threads that own an AF_XDP socket
    mode: Disposal,
    frames: nat,       // descriptors in the shared UMEM
    fqCap: nat,        // fill queue slots
    txCap: nat,        // slots of each tx queue
    ringCap: nat)      // slots of each disposal ring

  type Setup = c: RawSetup | 1 <= c.workers witness RawSetup(1, FirstThread, 0, 0, 0, 0)

  const FRAME_COUNT := 2048
  const RING_SIZE := 2048

  /** The sizes that the program uses, for kernel queues of `queues` slots. */
  function SourceSetup(workers: nat, mode: Disposal, queues: nat): Setup
    requires 1 <= workers
  {
    RawSetup(workers, mode, FRAME_COUNT, queues, queues, RING_SIZE)
  }

  function NumRings(c: Setup): nat {
    if c.mode.FirstThread? then c.workers - 1 else c.workers
  }

  function NumThreads(c: Setup): nat {
    if c.mode.FirstThread? then c.workers else c.workers + 1
  }

  /** The one thread that holds the fill and completion queues. */
  function Mediator(c: Setup): (m: nat)
    ensures m < NumThreads(c)
  {
    if c.mode.FirstThread? then 0 else c.workers
  }

  predicate IsWorker(c: Setup, t: nat) { t < c.workers }

  predicate IsRemote(c: Setup, t: nat) { IsWorker(c, t) && t != Mediator(c) }

  /** Ring fed by remote worker `t`. */
  function RingOf(c: Setup, t: nat): (r: nat)
    requires IsRemote(c, t)
    ensures r < NumRings(c)
  {
    c.workers - 1 - t
  }

  function AllFrames(n: nat): seq<Frame> { seq(n, i => i) }

  /** Program counter of a thread inside one pass of its loop. */
  datatype Pc =
    | Idle
    | Received(recvd: nat)
    | Partitioned(numTx: nat, recvd: nat)
    | Sent(numTx: nat, recvd: nat)
    | Completed(numTx: nat, upto: nat)
    | Drain(ring: nat)
    | Sliced(ring: nat, n1: nat, n2: nat)
    | HalfProduced(ring: nat, n1: nat, n2: nat)
    | Produced(ring: nat, n1: nat, n2: nat)

  datatype Thread = Thread(rx: seq<Frame>, tx: seq<Frame>, scratch: seq<Frame>, pc: Pc)

  /** A single-producer single-consumer ring: everything ever pushed, the consumer's
      read position, and the log of descriptors its consumer handed to the fill queue. */
  datatype Ring = Ring(pushed: seq<Frame>, taken: nat, recycled: seq<Frame>) {
    predicate Ok() { taken <= |recycled| <= |pushed| && recycled == pushed[..|recycled|] }
    function Occupied(): nat { if taken <= |pushed| then |pushed| - taken else 0 }
  }

  datatype State = State(
    fq: seq<Frame>,
    nic: multiset<Frame>,      // taken from the fill queue, waiting for a packet
    sending: multiset<Frame>,  // taken from a tx queue, not yet completed
    cq: seq<Frame>,
    threads: seq<Thread>,
    rings: seq<Ring>,
    lost: multiset<Frame>)     // refused by a full queue whose result nobody read

  /** The descriptors of the scratch array that a thread currently owns. */
  function Window(th: Thread): seq<Frame> {
    var s := th.scratch;
    match th.pc
    case Received(k) => if k <= |s| then s[..k] else []
    case Partitioned(_, k) => if k <= |s| then s[..k] else []
    case Sent(a, k) => if a <= k <= |s| then s[a..k] else []
    case Completed(a, u) => if a <= u <= |s| then s[a..u] else []
    case _ => []
  }

  function Produce(c: Setup, s: State, out: seq<Frame>): State {
    if |s.fq| + |out| <= c.fqCap then s.(fq := s.fq + out) else s.(lost := s.lost + multiset(out))
  }

  /** Initial handover: every descriptor is offered to the fill queue, and every scratch
      array starts as a full copy of the descriptor list. */
  function Init(c: Setup): State {
    var all := AllFrames(c.frames);
    var worker := Thread([], [], all, Idle);
    var extra := Thread([], [], all, Drain(0));
    var threads := seq(c.workers, _ => worker) + (if c.mode.ExtraThread? then [extra] else []);
    Produce(c, State([], multiset{}, multiset{}, [], threads, seq(NumRings(c), _ => Ring([], 0, [])), multiset{}), all)
  }

  datatype Step =
    | KTake(k: nat)
    | KDeliver(t: nat, ds: seq<Frame>)
    | KSend(t: nat, k: nat)
    | KComplete(ds: seq<Frame>)
    | Recv(t: nat, k: nat)
    | Partition(t: nat, scratch: seq<Frame>, numTx: nat)
    | Transmit(t: nat)
    | Push(t: nat)
    | Reap(k: nat)
    | Refill
    | Look
    | ProduceFirst
    | ProduceSecond
    | Advance
    | Wrap

  predicate IsKernel(step: Step) {
    step.KTake? || step.KDeliver? || step.KSend? || step.KComplete?
  }

  /** Lengths of the two contiguous parts of the occupied region of a ring buffer. */
  function Slices(cap: nat, r: Ring): (nat, nat) {
    var n := r.Occupied();
    var room := if cap == 0 then 0 else cap - r.taken % cap;
    if n <= room then (n, 0) else (room, n - room)
  }

  predicate Shaped(c: Setup, s: State) { |s.threads| == NumThreads(c) && |s.rings| == NumRings(c) }

  function Med(c: Setup, s: State): Thread
    requires |s.threads| == NumThreads(c)
  {
    s.threads[Mediator(c)]
  }

  predicate Enabled(c: Setup, s: State, step: Step) {
    && Shaped(c, s)
    && match step
       case KTake(k) => k <= |s.fq|
       case KDeliver(t, ds) => IsWorker(c, t) && multiset(ds) <= s.nic
       case KSend(t, k) => IsWorker(c, t) && k <= |s.threads[t].tx|
       case KComplete(ds) => multiset(ds) <= s.sending
       case Recv(t, k) =>
         IsWorker(c, t) && s.threads[t].pc == Idle
         && k <= |s.threads[t].rx| && k <= |s.threads[t].scratch|
       case Partition(t, sc, numTx) =>
         IsWorker(c, t) && s.threads[t].pc.Received?
         && var th := s.threads[t];
            var k := th.pc.recvd;
            numTx <= k <= |th.scratch| == |sc| && sc[k..] == th.scratch[k..]
            && multiset(sc[..k]) == multiset(th.scratch[..k])
       case Transmit(t) =>
         IsWorker(c, t) && s.threads[t].pc.Partitioned? && s.threads[t].pc.numTx <= |s.threads[t].scratch|
       case Push(t) => IsRemote(c, t) && s.threads[t].pc.Sent?
       case Reap(m) =>
         m <= |s.cq|
         && var th := Med(c, s);
            if c.mode.FirstThread? then th.pc.Sent? && th.pc.recvd + m <= |th.scratch|
            else th.pc == Drain(NumRings(c)) && m <= |th.scratch|
       case Refill => Med(c, s).pc.Completed?
       case Look => Med(c, s).pc.Drain? && Med(c, s).pc.ring < NumRings(c)
       case ProduceFirst => Med(c, s).pc.Sliced? && InRing(c, s, Med(c, s).pc)
       case ProduceSecond => Med(c, s).pc.HalfProduced? && InRing(c, s, Med(c, s).pc)
       case Advance => Med(c, s).pc.Produced? && InRing(c, s, Med(c, s).pc)
       case Wrap => c.mode.FirstThread? && Med(c, s).pc == Drain(NumRings(c))
  }

  /** The slices taken by a drain lie inside what the ring holds. */
  predicate InRing(c: Setup, s: State, pc: Pc)
    requires pc.Sliced? || pc.HalfProduced? || pc.Produced?
  {
    pc.ring < |s.rings| && s.rings[pc.ring].taken + pc.n1 + pc.n2 <= |s.rings[pc.ring].pushed|
  }

  function SetThread(s: State, t: nat, th: Thread): State
    requires t < |s.threads|
  {
    s.(threads := s.threads[t := th])
  }

  function SetPc(s: State, t: nat, pc: Pc): State
    requires t < |s.threads|
  {
    SetThread(s, t, s.threads[t].(pc := pc))
  }

  function SetRing(s: State, r: nat, ring: Ring): State
    requires r < |s.rings|
  {
    s.(rings := s.rings[r := ring])
  }

  /** After the fill queue got its share: a lone thread starts over, the others drain rings. */
  function AfterRefill(c: Setup): Pc {
    if c.mode.FirstThread? && c.workers == 1 then Idle else Drain(0)
  }

  function ApplyTransmit(c: Setup, s: State, t: nat): State
    requires Enabled(c, s, Transmit(t))
  {
    var th := s.threads[t];
    var out := th.scratch[..th.pc.numTx];
    var pc := Sent(th.pc.numTx, th.pc.recvd);
    if |th.tx| + |out| <= c.txCap then SetThread(s, t, th.(tx := th.tx + out, pc := pc))
    else SetPc(s, t, pc).(lost := s.lost + multiset(out))
  }

  function ApplyPush(c: Setup, s: State, t: nat): State
    requires Enabled(c, s, Push(t))
  {
    var r := RingOf(c, t);
    var ring := s.rings[r];
    var out := Window(s.threads[t]);
    var free := if ring.Occupied() <= c.ringCap then c.ringCap - ring.Occupied() else 0;
    var fit := if |out| <= free then |out| else free;
    SetRing(SetPc(s, t, Idle), r, ring.(pushed := ring.pushed + out[..fit]))
      .(lost := s.lost + multiset(out[fit..]))
  }

  function ApplyReap(c: Setup, s: State, m: nat): State
    requires Enabled(c, s, Reap(m))
  {
    var th := Med(c, s);
    var at := if c.mode.FirstThread? then th.pc.recvd else 0;
    var from := if c.mode.FirstThread? then th.pc.numTx else 0;
    var scratch := th.scratch[..at] + s.cq[..m] + th.scratch[at + m..];
    SetThread(s, Mediator(c), th.(scratch := scratch, pc := Completed(from, at + m))).(cq := s.cq[m..])
  }

  function ApplyLook(c: Setup, s: State): State
    requires Enabled(c, s, Look)
  {
    var r := Med(c, s).pc.ring;
    if s.rings[r].Occupied() == 0 then SetPc(s, Mediator(c), Drain(r + 1))
    else
      var (n1, n2) := Slices(c.ringCap, s.rings[r]);
      SetPc(s, Mediator(c), Sliced(r, n1, n2))
  }

  /** `fq.produce` on one slice of ring `r`. */
  function Recycle(c: Setup, s: State, r: nat, lo: nat, hi: nat): State
    requires r < |s.rings| && lo <= hi <= |s.rings[r].pushed|
  {
    var out := s.rings[r].pushed[lo..hi];
    SetRing(Produce(c, s, out), r, s.rings[r].(recycled := s.rings[r].recycled + out))
  }

  function Apply(c: Setup, s: State, step: Step): State
    requires Enabled(c, s, step)
  {
    match step
    case KTake(k) => s.(fq := s.fq[k..], nic := s.nic + multiset(s.fq[..k]))
    case KDeliver(t, ds) =>
      SetThread(s, t, s.threads[t].(rx := s.threads[t].rx + ds)).(nic := s.nic - multiset(ds))
    case KSend(t, k) =>
      var tx := s.threads[t].tx;
      SetThread(s, t, s.threads[t].(tx := tx[k..])).(sending := s.sending + multiset(tx[..k]))
    case KComplete(ds) => s.(sending := s.sending - multiset(ds), cq := s.cq + ds)
    case Recv(t, k) =>
      var th := s.threads[t];
      SetThread(s, t, th.(rx := th.rx[k..], scratch := th.rx[..k] + th.scratch[k..], pc := Received(k)))
    case Partition(t, sc, numTx) =>
      var th := s.threads[t];
      SetThread(s, t, th.(scratch := sc, pc := Partitioned(numTx, th.pc.recvd)))
    case Transmit(t) => ApplyTransmit(c, s, t)
    case Push(t) => ApplyPush(c, s, t)
    case Reap(m) => ApplyReap(c, s, m)
    case Refill => SetPc(Produce(c, s, Window(Med(c, s))), Mediator(c), AfterRefill(c))
    case Look => ApplyLook(c, s)
    case ProduceFirst =>
      var pc := Med(c, s).pc;
      var lo := s.rings[pc.ring].taken;
      SetPc(Recycle(c, s, pc.ring, lo, lo + pc.n1), Mediator(c), HalfProduced(pc.ring, pc.n1, pc.n2))
    case ProduceSecond =>
      var pc := Med(c, s).pc;
      var lo := s.rings[pc.ring].taken + pc.n1;
      SetPc(Recycle(c, s, pc.ring, lo, lo + pc.n2), Mediator(c), Produced(pc.ring, pc.n1, pc.n2))
    case Advance =>
      var pc := Med(c, s).pc;
      var ring := s.rings[pc.ring];
      SetPc(SetRing(s, pc.ring, ring.(taken := ring.taken + pc.n1 + pc.n2)), Mediator(c), Drain(pc.ring + 1))
    case Wrap => SetPc(s, Mediator(c), Idle)
  }

  /** Which interleavings a run may use: any, or only those in which nobody moves while
      the mediator is between the first produce of a ring drain and its advance. */
  datatype Schedule = AnyOrder | AtomicDrains

  predicate MidDrain(c: Setup, s: State)
    requires |s.threads| == NumThreads(c)
  {
    Med(c, s).pc.HalfProduced? || Med(c, s).pc.Produced?
  }

  predicate Allowed(c: Setup, sch: Schedule, s: State, step: Step) {
    && Enabled(c, s, step)
    && (sch.AtomicDrains? && MidDrain(c, s) ==> step.ProduceSecond? || step.Advance?)
  }

  /** A run: a list of steps, each allowed where it is taken. */
  ghost predicate Runs(c: Setup, sch: Schedule, s: State, steps: seq<Step>)
    decreases |steps|, 2
  {
    steps == []
    || (var n := |steps| - 1;
        Runs(c, sch, s, steps[..n]) && Allowed(c, sch, Exec(c, sch, s, steps[..n]), steps[n]))
  }

  ghost function Exec(c: Setup, sch: Schedule, s: State, steps: seq<Step>): State
    requires Runs(c, sch, s, steps)
    decreases |steps|, 3
  {
    if steps == [] then s
    else Apply(c, Exec(c, sch, s, steps[..|steps| - 1]), steps[|steps| - 1])
  }

  ghost predicate Reachable(c: Setup, sch: Schedule, s: State) {
    exists steps :: Runs(c, sch, Init(c), steps) && s == Exec(c, sch, Init(c), steps)
  }

  lemma ReachInit(c: Setup, sch: Schedule)
    ensures Reachable(c, sch, Init(c))
  {
    assert Runs(c, sch, Init(c), []) && Init(c) == Exec(c, sch, Init(c), []);
  }

  lemma RunsSnoc(c: Setup, sch: Schedule, s: State, steps: seq<Step>, step: Step, s': State)
    requires Runs(c, sch, s, steps) && s' == Exec(c, sch, s, steps)
    requires Allowed(c, sch, s', step)
    ensures Runs(c, sch, s, steps + [step])
    ensures Exec(c, sch, s, steps + [step]) == Apply(c, s', step)
  {
    var all := steps + [step];
    assert all[..|all| - 1] == steps && all[|all| - 1] == step;
  }

  lemma ReachStep(c: Setup, sch: Schedule, s: State, step: Step)
    requires Reachable(c, sch, s) && Allowed(c, sch, s, step)
    ensures Reachable(c, sch, Apply(c, s, step))
  {
    var steps :| Runs(c, sch, Init(c), steps) && s == Exec(c, sch, Init(c), steps);
    RunsSnoc(c, sch, Init(c), steps, step, s);
  }

  // ---- Stretches of runs --------------------------------------------------------

  predicate NoArrival(step: Step) { !step.KTake? && !step.KDeliver? }

  ghost predicate Calm(steps: seq<Step>) {
    forall i :: 0 <= i < |steps| ==> NoArrival(steps[i])
  }

  /** Some run leads from `s` to `s'`; if `calm`, one in which no packet arrives. */
  ghost predicate Leads(c: Setup, sch: Schedule, calm: bool, s: State, s': State) {
    exists steps :: Runs(c, sch, s, steps) && (calm ==> Calm(steps)) && s' == Exec(c, sch, s, steps)
  }

  lemma LeadsNowhere(c: Setup, sch: Schedule, calm: bool, s: State)
    ensures Leads(c, sch, calm, s, s)
  {
    assert Runs(c, sch, s, []) && Calm([]) && s == Exec(c, sch, s, []);
  }

  lemma LeadsOn(c: Setup, sch: Schedule, calm: bool, s0: State, s: State, step: Step, s': State)
    requires Leads(c, sch, calm, s0, s) && Allowed(c, sch, s, step) && (calm ==> NoArrival(step))
    requires s' == Apply(c, s, step)
    ensures Leads(c, sch, calm, s0, s')
  {
    var steps :| Runs(c, sch, s0, steps) && (calm ==> Calm(steps)) && s == Exec(c, sch, s0, steps);
    RunsSnoc(c, sch, s0, steps, step, s);
    assert calm ==> Calm(steps + [step]);
  }

  lemma {:induction false} RunReaches(c: Setup, sch: Schedule, s: State, steps: seq<Step>)
    requires Reachable(c, sch, s) && Runs(c, sch, s, steps)
    ensures Reachable(c, sch, Exec(c, sch, s, steps))
    decreases |steps|
  {
    if steps != [] {
      var n := |steps| - 1;
      RunReaches(c, sch, s, steps[..n]);
      ReachStep(c, sch, Exec(c, sch, s, steps[..n]), steps[n]);
    }
  }

  /** What a run leads to from a reachable state is reachable. */
  lemma LeadsToReachable(c: Setup, sch: Schedule, calm: bool, s: State, s': State)
    requires Reachable(c, sch, s) && Leads(c, sch, calm, s, s')
    ensures Reachable(c, sch, s')
  {
    var steps :| Runs(c, sch, s, steps) && (calm ==> Calm(steps)) && s' == Exec(c, sch, s, steps);
    RunReaches(c, sch, s, steps);
  }
}
