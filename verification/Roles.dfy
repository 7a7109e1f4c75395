/**
  Start-up: how many sockets are made, which of them holds the fill and completion queues, and
  which loop every thread runs with which rings.
*/
module Roles {
  import opened Basics
  import opened FrameProtocol

  const MAX_CORES := 8

  // ---- Sockets ------------------------------------------------------------------

  /** A socket on UMEM `umem`; `mediate` when it came with the fill and completion queues.
      `offered` are the descriptors it put on that fill queue, `frames` its scratch array. */
  datatype Socket = Socket(umem: nat, mediate: bool, offered: seq<Frame>, frames: seq<Frame>)

  function SocketOf(i: nat, shareUmem: bool): Socket {
    var own := !shareUmem || i == 0;
    Socket(if shareUmem then 0 else i, own, if own then AllFrames(FRAME_COUNT) else [], AllFrames(FRAME_COUNT))
  }

  /** The sockets that start-up makes. */
  ghost predicate Upcall(out: seq<Socket>, cores: nat, shareUmem: bool) {
    && |out| == cores
    && (forall i :: 0 <= i < cores ==> out[i].frames == AllFrames(FRAME_COUNT))
    && (forall i :: 0 <= i < cores ==> out[i].mediate == (!shareUmem || i == 0))
    && (forall i :: 0 <= i < cores ==> out[i].offered == if out[i].mediate then AllFrames(FRAME_COUNT) else [])
    && forall i, j :: 0 <= i < j < cores ==> (out[i].umem == out[j].umem <==> shareUmem)
  }

  /** Creates the sockets. A UMEM gives its queues to the first socket made on it. */
  method CreateUpcallSockets(cores: nat, shareUmem: bool) returns (out: seq<Socket>)
    ensures Upcall(out, cores, shareUmem)
  {
    var shared: Option<nat> := None;
    var served: set<nat> := {};
    out := [];
    var i := 0;
    while i < cores
      invariant i <= cores && |out| == i
      invariant shareUmem && i > 0 ==> shared == Some(0)
      invariant forall u: nat :: u in served <==> if shareUmem then i > 0 && u == 0 else u < i
      invariant forall j :: 0 <= j < i ==> out[j] == SocketOf(j, shareUmem)
    {
      var umem;
      if !shareUmem || i == 0 {
        umem := i;
        if shareUmem { shared := Some(umem); }
      } else {
        umem := shared.value;
      }
      var mediate := umem !in served;
      served := served + {umem};
      out := out + [Socket(umem, mediate, if mediate then AllFrames(FRAME_COUNT) else [], AllFrames(FRAME_COUNT))];
      i := i + 1;
    }
  }

  // ---- Threads ------------------------------------------------------------------

  /** What a thread is started as. Rings are numbered in the order in which they are made. */
  datatype Role = Solo | SelfMediate(receivers: seq<nat>) | OtherMediate(sender: nat) | Extra(receivers: seq<nat>)

  predicate Mediates(role: Role) { !role.OtherMediate? }

  datatype StartError =
    | NeedsSharedUmem(cores: nat)
    | NoMediate      // the panics of the start-up code
    | NoReceivers

  datatype Plan = Plan(roles: seq<Role>, extra: Option<Role>)

  function Gap(a: int, b: int): nat { if a < b then b - a else a - b }

  /** The allowed core count nearest to the one asked for. */
  function Clamp(cores: nat): (r: nat)
    ensures 1 <= r <= 8 && forall n :: 1 <= n <= 8 ==> Gap(r, cores) <= Gap(n, cores)
  {
    var c := if cores > 1 then cores else 1;
    if c < MAX_CORES then c else MAX_CORES
  }

  /** Starts the threads for `wanted` cores; the number of cores is clamped to 1..8. */
  method AssignRoles(wanted: nat, shareUmem: bool, mode: Disposal, ghost queues: nat)
    returns (r: Result<Plan, StartError>, xsks: seq<Socket>)
    ensures r.Success? <==> Clamp(wanted) == 1 || shareUmem
    ensures r.Failure? ==> r.error == NeedsSharedUmem(Clamp(wanted))
    ensures r.Success? ==> PlanFits(SourceSetup(Clamp(wanted), mode, queues), r.value)
    ensures r.Success? ==> Upcall(xsks, Clamp(wanted), shareUmem)
  {
    var cores := Clamp(wanted);
    if cores > 1 && !shareUmem { return Failure(NeedsSharedUmem(cores)), []; }
    xsks := CreateUpcallSockets(cores, shareUmem);
    var needed := cores - (if mode.FirstThread? then 1 else 0);
    var senders := seq(needed, i => i);
    var receivers := Some(seq(needed, i => i));
    var mediate := seq(cores, t requires 0 <= t < cores => xsks[t].mediate);
    var extra := None;
    if mode.ExtraThread? {
      if !mediate[0] { return Failure(NoMediate), []; }
      mediate := mediate[0 := false];
      if receivers.None? { return Failure(NoReceivers), []; }
      extra := Some(Extra(receivers.value));
      receivers := None;
    }
    var roles: seq<Role> := [];
    var t := 0;
    ghost var c := SourceSetup(cores, mode, queues);
    while t < cores
      invariant t <= cores && |roles| == t && |mediate| == cores
      invariant |senders| == if mode.ExtraThread? then cores - t else if t == 0 then cores - 1 else cores - t
      invariant forall i :: 0 <= i < |senders| ==> senders[i] == i
      invariant mode.FirstThread? && t == 0 ==> receivers == Some(seq(needed, i => i)) && mediate[0]
      invariant forall i :: 0 <= i < t ==> RoleFits(c, i, roles[i])
    {
      var maybeRx := receivers;
      receivers := None;
      var sender: Option<nat> := None;
      if (mode.ExtraThread? || t != 0) && |senders| > 0 {
        sender := Some(senders[|senders| - 1]);
        senders := senders[..|senders| - 1];
      }
      if sender.Some? {
        roles := roles + [OtherMediate(sender.value)];
      } else if cores == 1 {
        if !mediate[t] { return Failure(NoMediate), []; }
        roles := roles + [Solo];
      } else {
        if maybeRx.None? { return Failure(NoReceivers), []; }
        if !mediate[t] { return Failure(NoMediate), []; }
        roles := roles + [SelfMediate(maybeRx.value)];
      }
      t := t + 1;
    }
    return Success(Plan(roles, extra)), xsks;
  }

  // ---- What the frame protocol takes for granted ----------------------------------

  /** Thread `t` has the role that the frame protocol gives it. */
  ghost predicate RoleFits(c: Setup, t: nat, role: Role) {
    match role
    case OtherMediate(ring) => IsRemote(c, t) && ring == RingOf(c, t)
    case Solo => t == Mediator(c) && c.mode.FirstThread? && c.workers == 1
    case SelfMediate(rings) => t == Mediator(c) && c.mode.FirstThread? && c.workers > 1 && rings == AllRings(c)
    case Extra(rings) => t == Mediator(c) && c.mode.ExtraThread? && rings == AllRings(c)
  }

  function AllRings(c: Setup): seq<nat> { seq(NumRings(c), i => i) }

  ghost predicate PlanFits(c: Setup, plan: Plan) {
    && |plan.roles| == c.workers && (plan.extra.Some? <==> c.mode.ExtraThread?)
    && (forall t :: 0 <= t < c.workers ==> RoleFits(c, t, plan.roles[t]))
    && (plan.extra.Some? ==> plan.extra.value.Extra? && RoleFits(c, c.workers, plan.extra.value))
  }

  function Threads(plan: Plan): seq<Role> {
    plan.roles + (match plan.extra case None => [] case Some(role) => [role])
  }

  lemma ThreadFits(c: Setup, plan: Plan, t: nat)
    requires PlanFits(c, plan) && t < NumThreads(c)
    ensures |Threads(plan)| == NumThreads(c) && RoleFits(c, t, Threads(plan)[t])
    ensures Mediates(Threads(plan)[t]) <==> t == Mediator(c)
  {
  }

  predicate SentBy(all: seq<Role>, t: nat, ring: nat) { t < |all| && all[t] == OtherMediate(ring) }

  ghost predicate SentByOne(all: seq<Role>, ring: nat) {
    exists t: nat :: SentBy(all, t, ring) && forall u: nat :: SentBy(all, u, ring) ==> u == t
  }

  lemma RingHasOneSender(c: Setup, plan: Plan, ring: nat)
    requires PlanFits(c, plan) && ring < NumRings(c)
    ensures SentByOne(Threads(plan), ring)
  {
    var all, t := Threads(plan), c.workers - 1 - ring;
    ThreadFits(c, plan, t);
    assert SentBy(all, t, ring);
    forall u: nat | SentBy(all, u, ring)
      ensures u == t
    {
      ThreadFits(c, plan, u);
    }
  }

  /** Exactly one thread mediates, it reads every ring, and every ring is written by exactly one
      of the other threads. */
  lemma OneMediatorManySenders(c: Setup, plan: Plan)
    requires PlanFits(c, plan)
    ensures |Threads(plan)| == NumThreads(c)
    ensures forall t :: 0 <= t < NumThreads(c) ==> (Mediates(Threads(plan)[t]) <==> t == Mediator(c))
    ensures NumRings(c) > 0
            ==> var role := Threads(plan)[Mediator(c)]; role in {SelfMediate(AllRings(c)), Extra(AllRings(c))}
    ensures forall ring :: 0 <= ring < NumRings(c) ==> SentByOne(Threads(plan), ring)
  {
    ThreadFits(c, plan, Mediator(c));
    forall t | 0 <= t < NumThreads(c)
      ensures Mediates(Threads(plan)[t]) <==> t == Mediator(c)
    {
      ThreadFits(c, plan, t);
    }
    forall ring | 0 <= ring < NumRings(c)
      ensures SentByOne(Threads(plan), ring)
    {
      RingHasOneSender(c, plan, ring);
    }
  }
}
