/**
  Running packets: kernel programs that dispatch on their tables, the userland loop that
  finishes a chain, and a direct reading of the configuration's named graph to compare with.

  A network function is any function `nf` from an id and a value of type P (packet contents
  and whatever state the functions keep) to a new value and an output index; its kernel and
  userland builds are taken to be the same function.
*/
module Execution {
  import opened Protocol
  import opened Chainsmith
  import opened Install
  import opened Handoff

  // ---- Kernel side --------------------------------------------------------------

  datatype XdpAction = XTx | XDrop | XAborted | XPass | OutOfBounds

  datatype KernelResult = Finish(act: XdpAction) | Jump(fd: Fd) | Redirect(core: nat, meta: seq<Byte>)

  /** What a program cannot control: whether metadata can grow, and the random draw. */
  datatype Env = Env(metaOk: bool, draw: nat)

  function TargetCore(numCores: nat, draw: nat): nat
    requires numCores > 0
  {
    if numCores != 1 then draw % numCores else 0
  }

  /** The program's action table sends this output to userland. */
  predicate Upcalls(obj: Obj, out: nat) { obj.ChainObj? && out < |obj.acts| && obj.acts[out] == 3 }

  /** What a wrapper does with output `out` of its NF. */
  function Dispatch(e: Endian, obj: Obj, out: nat, env: Env): KernelResult
    requires obj.ChainObj? ==> obj.numCores > 0
  {
    match obj
    case EndObj(_) => Finish(XTx)
    case ChainObj(_, progId, numCores, acts, progs, xsk) =>
      if out >= |acts| then Finish(OutOfBounds)
      else match acts[out]
        case 0 => Finish(XTx)
        case 1 => Finish(XDrop)
        case 2 => Finish(XAborted)
        case 3 =>
          if !env.metaOk then Finish(XAborted)
          else
            var core := TargetCore(numCores, env.draw);
            if core in xsk then Redirect(core, WriteMeta(e, progId, out)) else Finish(XAborted)
        case 4 => if out in progs then Jump(progs[out]) else Finish(XAborted)
        case 5 => Finish(XPass)
        case _ => Finish(OutOfBounds)
  }

  /** A packet buffer inside the kernel hook: its metadata area and the rest. */
  class XdpContext<P> {
    var meta: seq<Byte>
    var packet: P

    constructor (packet: P)
      ensures this.meta == [] && this.packet == packet
    {
      this.meta := [];
      this.packet := packet;
    }

    /** The generated wrapper: runs the NF on the buffer, then acts on its output. At an upcall
        it writes the metadata before it looks for the socket. */
    method XdpSockProg(e: Endian, obj: Obj, id: Uuid, nf: (Uuid, P) -> (P, nat), env: Env)
      returns (out: nat, r: KernelResult)
      requires obj.ChainObj? ==> obj.numCores > 0
      modifies this
      ensures (packet, out) == nf(id, old(packet))
      ensures r == Dispatch(e, obj, out, env)
      ensures meta == if Upcalls(obj, out) && env.metaOk then WriteMeta(e, obj.progId, out) else old(meta)
      ensures r.Redirect? ==> r.meta == meta && r.core == env.draw % obj.numCores && r.core in obj.xsk
    {
      var result := nf(id, packet);
      packet, out := result.0, result.1;
      if obj.EndObj? { return out, Finish(XTx); }
      if out >= |obj.acts| { return out, Finish(OutOfBounds); }
      var kind := obj.acts[out];
      if kind == 3 {
        if !env.metaOk { return out, Finish(XAborted); }
        var core := 0;
        if obj.numCores != 1 { core := env.draw % obj.numCores; }
        meta := ToBytes(e, obj.progId) + ToBytes(e, out);
        r := if core in obj.xsk then Redirect(core, meta) else Finish(XAborted);
        return;
      }
      if kind == 4 {
        if out in obj.progs { return out, Jump(obj.progs[out]); }
        return out, Finish(XAborted);
      }
      r := Finish(if kind == 0 then XTx else if kind == 1 then XDrop else if kind == 2 then XAborted
                  else if kind == 5 then XPass else OutOfBounds);
    }
  }

  // ---- Userland side ------------------------------------------------------------

  datatype Runtime = Runtime(st: ChainState, dylibs: set<Uuid>, endian: Endian)

  /** `Stuck` stands for a panic: a lookup or index that the source unwraps. */
  datatype Pos = Kern(id: Uuid) | User(id: Uuid) | KDone(act: XdpAction) | UDone(sent: bool) | Stuck

  /** Where userland enters the chain for a redirected packet. */
  function Resume(rt: Runtime, meta: seq<Byte>): Pos {
    match ReadMeta(rt.endian, meta)
    case None => UDone(false)
    case Some((progId, act)) =>
      if progId !in rt.st.instanceIds then Stuck
      else
        var src := rt.st.instanceIds[progId];
        if src !in rt.st.linkStates then Stuck
        else match rt.st.linkStates[src].Act(act)
          case None => Stuck
          case Some(a) => match a.NextNf() case None => Stuck case Some(id) => User(id)
  }

  function AfterUser(rt: Runtime, id: Uuid, out: nat): Pos {
    if id !in rt.st.linkStates then Stuck
    else match rt.st.linkStates[id].Act(out)
      case None => Stuck
      case Some(Tailcall(next)) => User(next)
      case Some(Upcall(next)) => User(next)
      case Some(Tx) => UDone(true)
      case Some(_) => UDone(false)
  }

  ghost predicate Owns(rt: Runtime, fd: Fd, id: Uuid) {
    id in rt.st.progFds && rt.st.progFds[id] == fd
  }

  ghost function AfterKernel(rt: Runtime, id: Uuid, out: nat, env: Env): Pos {
    if id !in rt.st.objects || (rt.st.objects[id].ChainObj? && rt.st.objects[id].numCores == 0) then Stuck
    else match Dispatch(rt.endian, rt.st.objects[id], out, env)
      case Finish(a) => KDone(a)
      case Redirect(_, meta) => Resume(rt, meta)
      case Jump(fd) =>
        if exists next :: Owns(rt, fd, next) then
          var next :| Owns(rt, fd, next);
          Kern(next)
        else Stuck
  }

  type Trace = seq<(Uuid, nat)>

  datatype Run<P> = Run(pos: Pos, p: P, trace: Trace)

  /** One NF execution, wherever the packet is, with the handoff when it leads to one. */
  ghost function SplitStep<P>(rt: Runtime, nf: (Uuid, P) -> (P, nat), env: Env, r: Run<P>): Run<P> {
    match r.pos
    case Kern(id) =>
      var (p, out) := nf(id, r.p);
      Run(AfterKernel(rt, id, out, env), p, r.trace + [(id, out)])
    case User(id) =>
      if id !in rt.dylibs then r.(pos := Stuck)
      else
        var (p, out) := nf(id, r.p);
        Run(AfterUser(rt, id, out), p, r.trace + [(id, out)])
    case _ => r
  }

  /** The split run after `n` steps, started by the program attached to the interface. */
  ghost function SplitRun<P>(rt: Runtime, nf: (Uuid, P) -> (P, nat), env: Env, p: P, n: nat): Run<P> {
    if n == 0 then Run(Kern(rt.st.attached), p, []) else SplitStep(rt, nf, env, SplitRun(rt, nf, env, p, n - 1))
  }

  // ---- Direct reading of the configuration ---------------------------------------

  datatype Verdict = Transmit | Discard | Fail | PassUp

  datatype Place = At(name: string) | End(v: Verdict) | NoBranch

  /** What a target name means in a configuration. */
  function Meaning(target: string): Place {
    if target == "tx" then End(Transmit)
    else if target == "drop" then End(Discard)
    else if target == "abort" then End(Fail)
    else if target == "pass" then End(PassUp)
    else At(Bare(target))
  }

  function AfterDirect(cfg: Config, name: string, out: nat): Place {
    match LastLink(cfg.links, name)
    case None => NoBranch
    case Some(l) => if out < |l.to| then Meaning(l.to[out]) else NoBranch
  }

  datatype DirectRun<P> = DirectRun(place: Place, p: P, trace: seq<(string, nat)>)

  function DirectStep<P>(cfg: Config, fns: FnMap, nf: (Uuid, P) -> (P, nat), r: DirectRun<P>): DirectRun<P> {
    match r.place
    case At(name) =>
      if name !in fns then r.(place := NoBranch)
      else
        var (p, out) := nf(fns[name], r.p);
        DirectRun(AfterDirect(cfg, name, out), p, r.trace + [(name, out)])
    case _ => r
  }

  /** The first `n` NF executions read off the named links, from NF `root`. */
  function Direct<P>(cfg: Config, fns: FnMap, nf: (Uuid, P) -> (P, nat), root: string, p: P, n: nat): DirectRun<P> {
    if n == 0 then DirectRun(At(root), p, []) else DirectStep(cfg, fns, nf, Direct(cfg, fns, nf, root, p, n - 1))
  }
}
