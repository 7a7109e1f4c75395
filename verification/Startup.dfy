/**
  Start-up builds the objects that the loops work on: the initial state of the frame protocol.
*/
module Startup {
  import opened Basics
  import opened FrameProtocol
  import opened Dataplane
  import opened Mediation
  import opened Interleaving
  import opened Roles

  /** What start-up hands to the threads. `own` are the workers' sockets, with the extra thread's
      scratch array behind them if there is one. */
  datatype Parts = Parts(plan: Plan, own: seq<XskData>, med: UmemMediate, rings: seq<DescRing>)

  /** The objects stand for the state in which every thread is at the start of its loop. */
  ghost predicate Stands(c: Setup, s: State, p: Parts)
    reads p.own, set xsk | xsk in p.own :: xsk.frames
    reads p.med, p.rings
  {
    && |p.own| == NumThreads(c) && Distinct(p.own) && Distinct(p.rings)
    && (forall t :: 0 <= t < |p.own| ==> IsThread(c, s, t, p.own[t], if IsWorker(c, t) then Idle else Drain(0)))
    && HasQueues(c, s, p.med) && AreRings(c, s, p.rings)
  }

  /** Descriptors queues and scratch arrays for the sockets that were created. */
  method MakeSockets(sockets: seq<Socket>, queues: nat) returns (own: seq<XskData>)
    ensures |own| == |sockets| && Distinct(own) && fresh(own)
    ensures forall t :: 0 <= t < |own| ==>
      own[t].rx == [] && own[t].tx == [] && own[t].frames[..] == sockets[t].frames && own[t].txCap == queues
  {
    own := [];
    var t := 0;
    while t < |sockets|
      invariant t == |own| <= |sockets| && Distinct(own) && fresh(own)
      invariant forall u :: 0 <= u < |own| ==> fresh(own[u].frames)
      invariant forall u :: 0 <= u < |own| ==>
        own[u].rx == [] && own[u].tx == [] && own[u].frames[..] == sockets[u].frames && own[u].txCap == queues
    {
      var xsk := new XskData(sockets[t].frames, queues);
      own := own + [xsk];
      t := t + 1;
    }
  }

  method MakeRings(n: nat, cap: nat) returns (rings: seq<DescRing>)
    ensures |rings| == n && Distinct(rings) && fresh(rings)
    ensures forall r :: 0 <= r < n ==> rings[r].pushed == [] && rings[r].taken == 0 && rings[r].cap == cap
  {
    rings := [];
    while |rings| < n
      invariant |rings| <= n && Distinct(rings) && fresh(rings)
      invariant forall r :: 0 <= r < |rings| ==> rings[r].pushed == [] && rings[r].taken == 0 && rings[r].cap == cap
    {
      var ring := new DescRing(cap);
      rings := rings + [ring];
    }
  }

  /** The shared queues, with the one initial offer of every descriptor. */
  method MakeQueues(offered: seq<Frame>, queues: nat) returns (med: UmemMediate)
    ensures fresh(med) && med.fqCap == queues && med.cq == [] && med.fq == Offer(queues, [], offered)
  {
    med := new UmemMediate(queues);
    med.Produce(offered);
  }

  lemma InitIs(c: Setup)
    ensures var s := Init(c);
      && Shaped(c, s) && s.fq == Offer(c.fqCap, [], AllFrames(c.frames)) && s.cq == []
      && (forall t :: 0 <= t < NumThreads(c) ==>
            s.threads[t] == Thread([], [], AllFrames(c.frames), if IsWorker(c, t) then Idle else Drain(0)))
      && forall r :: 0 <= r < NumRings(c) ==> s.rings[r] == Ring([], 0, [])
  {
  }

  lemma FreshObjectsStand(c: Setup, p: Parts)
    requires |p.own| == NumThreads(c) && Distinct(p.own) && Distinct(p.rings) && |p.rings| == NumRings(c)
    requires forall t :: 0 <= t < |p.own| ==>
      var xsk := p.own[t];
      xsk.rx == [] && xsk.tx == [] && xsk.frames[..] == AllFrames(c.frames) && xsk.txCap == c.txCap
    requires p.med.fqCap == c.fqCap && p.med.cq == [] && p.med.fq == Offer(c.fqCap, [], AllFrames(c.frames))
    requires forall r :: 0 <= r < |p.rings| ==>
      p.rings[r].pushed == [] && p.rings[r].taken == 0 && p.rings[r].cap == c.ringCap
    ensures Stands(c, Init(c), p)
  {
    InitIs(c);
  }

  /** Creates sockets, the shared queues and the rings, and assigns every thread its role: the
      objects stand for the initial state of the frame protocol, in which every run begins. */
  method StartUp(wanted: nat, shareUmem: bool, mode: Disposal, queues: nat) returns (r: Result<Parts, StartError>)
    ensures r.Success? <==> Clamp(wanted) == 1 || shareUmem
    ensures r.Failure? ==> r.error == NeedsSharedUmem(Clamp(wanted))
    ensures r.Success? ==>
      var c := SourceSetup(Clamp(wanted), mode, queues);
      PlanFits(c, r.value.plan) && Stands(c, Init(c), r.value) && Reachable(c, AnyOrder, Init(c))
  {
    var plan, sockets := AssignRoles(wanted, shareUmem, mode, queues);
    if plan.Failure? { return Failure(plan.error); }
    var cores := Clamp(wanted);
    var scratch := if mode.ExtraThread? then sockets + [sockets[0]] else sockets;
    var own := MakeSockets(scratch, queues);
    var med := MakeQueues(sockets[0].offered, queues);
    var rings := MakeRings(cores - (if mode.FirstThread? then 1 else 0), RING_SIZE);
    var p := Parts(plan.value, own, med, rings);
    FreshObjectsStand(SourceSetup(cores, mode, queues), p);
    ReachInit(SourceSetup(cores, mode, queues), AnyOrder);
    return Success(p);
  }

  // ---- The passes can begin ---------------------------------------------------------

  /** A worker that sends on a ring has what its first pass asks for, the ring its role names. */
  ghost predicate RemoteBegins(c: Setup, s: State, p: Parts, t: nat)
    reads p.own, set xsk | xsk in p.own :: xsk.frames
    reads p.rings
  {
    && t < |p.own| && t < |p.plan.roles| && p.plan.roles[t].OtherMediate? && p.plan.roles[t].sender < |p.rings|
    && RemoteView(c, s, t, p.own[t], p.rings[p.plan.roles[t].sender], Idle)
  }

  /** What each thread's first pass asks for holds in the initial state. */
  lemma PassesCanBegin(c: Setup, s: State, p: Parts)
    requires Stands(c, s, p) && PlanFits(c, p.plan)
    ensures Mediator(c) < |p.own|
    ensures MediatorView(c, s, p.own[Mediator(c)], p.med, p.rings, if c.mode.FirstThread? then Idle else Drain(0))
    ensures forall t: nat :: IsRemote(c, t) ==> RemoteBegins(c, s, p, t)
  {
    forall t: nat | IsRemote(c, t)
      ensures RemoteBegins(c, s, p, t)
    {
      assert RoleFits(c, t, p.plan.roles[t]);
    }
  }
}
