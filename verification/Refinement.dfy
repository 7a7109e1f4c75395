/**
  The deployed chain does what its configuration says: kernel dispatch through tables,
  handoff and userland continuation together follow the named links.
*/
module Refinement {
  import opened Basics
  import opened Protocol
  import opened Chainsmith
  import opened ChainShape
  import opened Compile
  import opened Install
  import opened Handoff
  import opened Execution

  // ---- Deployed chains ----------------------------------------------------------

  /** No function hides a special name, is called `rx` or begins with the upcall mark. */
  ghost predicate WellNamed(cfg: Config) {
    forall n <- cfg.functions :: Special(n).None? && n != "rx" && !Forced(n)
  }

  /** A configuration that the compiler accepts, under the naming conventions it relies on. */
  ghost predicate GoodConfig(cfg: Config, types: Types, fns: FnMap) {
    && fns.Keys == cfg.functions.Keys == types.Keys && Injective(fns)
    && WellNamed(cfg) && OneLinkPerSource(cfg.links)
    && (forall n <- types :: types[n].Enum? && types[n].Len() <= Handoff.U32 && ArityOk(cfg, types, n))
    && Accepts(cfg, fns)
  }

  /** Every function with a userland build is loaded. */
  function Dylibs(chain: Chain): set<Uuid> { set id | id in chain.nfs && chain.nfs[id].hasElf }

  /** `rt` runs the compiled chain of a good configuration on `cores` cores. */
  ghost predicate Deployed(cfg: Config, types: Types, fns: FnMap, chain: Chain, rt: Runtime, cores: nat,
                           xsks: seq<Fd>) {
    && GoodConfig(cfg, types, fns)
    && (exists names :: CompiledChain(cfg, types, fns, names, chain))
    && |chain.links| <= Handoff.U32
    && 1 <= cores == |xsks|
    && Represents(rt.st, chain, cores, xsks)
    && rt.dylibs == Dylibs(chain)
  }

  /** Every NF answers with one of its enum's variants. */
  ghost predicate Behaved<P(!new)>(types: Types, fns: FnMap, nf: (Uuid, P) -> (P, nat)) {
    forall n, p :: n in types && n in fns ==> nf(fns[n], p).1 < types[n].Len()
  }

  // ---- Facts about one function --------------------------------------------------

  lemma {:induction false} FirstIsLast(links: seq<Link>, name: string)
    requires OneLinkPerSource(links) && name != "rx"
    ensures FirstLink(links, name) == LastLink(links, name)
  {
    if links != [] {
      FirstIsLast(links[1..], name);
      if links[0].from == name {
        UniqueLink(links, name, links[0]);
      } else {
        SkipFirst(links, name);
      }
    }
  }

  lemma {:induction false} SkipFirst(links: seq<Link>, name: string)
    requires links != [] && links[0].from != name
    ensures LastLink(links, name) == LastLink(links[1..], name)
  {
    var n := |links| - 1;
    if n > 0 {
      SkipFirst(links[..n], name);
      assert links[..n][1..] == links[1..][..n - 1] && links[1..][n - 1] == links[n];
    }
  }

  /** The one link of a function, its branches and its concrete state. */
  lemma LinkOf(cfg: Config, types: Types, fns: FnMap, name: string) returns (l: Link)
    requires GoodConfig(cfg, types, fns) && name in fns
    ensures LastLink(cfg.links, name) == Some(l) && l in cfg.links && l.from == name
    ensures |l.to| == types[name].Len()
    ensures StateOf(cfg, fns, cfg.links, name) == if IsTailLink(l) then Tail else Body(Dests(cfg, fns, l.to))
  {
    FirstIsLast(cfg.links, name);
    assert ArityOk(cfg, types, name);
    l := LastLink(cfg.links, name).value;
    LastLinkIs(cfg.links, name);
    if HasTailLink(cfg.links, name) {
      var t :| t in cfg.links && t.from == name && IsTailLink(t);
      UniqueLink(cfg.links, name, t);
    }
  }

  /** The action compiled for a branch agrees with what the configuration says about it. */
  ghost predicate Agrees(cfg: Config, fns: FnMap, act: LinkAction, target: string) {
    match Meaning(target)
    case End(Transmit) => act == Tx
    case End(Discard) => act == Drop
    case End(Fail) => act == Abort
    case End(PassUp) => act == Pass
    case At(name) =>
      name in fns && name in cfg.functions
      && act == if Forced(target) || cfg.functions[name].disableXdp then Upcall(fns[name]) else Tailcall(fns[name])
    case NoBranch => false
  }

  /** What a target resolves to is what its name means. */
  lemma ResolveAgrees(cfg: Config, fns: FnMap, target: string, act: LinkAction)
    requires WellNamed(cfg) && fns.Keys == cfg.functions.Keys && Resolve(cfg, fns, target) == Some(act)
    ensures Agrees(cfg, fns, act, target)
  {
    assert Special(target).Some? ==> target !in fns && Bare(target) == target;
  }

  lemma ActionAgrees(cfg: Config, types: Types, fns: FnMap, name: string, l: Link, i: nat)
    requires GoodConfig(cfg, types, fns) && name in fns
    requires l in cfg.links && l.from == name && i < |l.to|
    ensures StateOf(cfg, fns, cfg.links, name).Body? && LastLink(cfg.links, name) == Some(l) ==>
      i < |StateOf(cfg, fns, cfg.links, name).acts|
      && Agrees(cfg, fns, StateOf(cfg, fns, cfg.links, name).acts[i], l.to[i])
    ensures IsTailLink(l) ==> Meaning(l.to[i]) == End(Transmit)
  {
    var st := StateOf(cfg, fns, cfg.links, name);
    if st.Body? && LastLink(cfg.links, name) == Some(l) {
      var _ := LinkOf(cfg, types, fns, name);
      FaultlessIff(cfg, fns, l);
      assert Resolve(cfg, fns, l.to[i]).Some?;
      ResolveAgrees(cfg, fns, l.to[i], st.acts[i]);
    }
  }

  /** Where the concrete link of a function sits in the compiled chain. */
  lemma Position(cfg: Config, types: Types, fns: FnMap, chain: Chain, name: string) returns (i: nat)
    requires GoodConfig(cfg, types, fns) && name in fns
    requires exists names :: CompiledChain(cfg, types, fns, names, chain)
    ensures i < |chain.links| && chain.links[i] == Concrete(cfg, fns, cfg.links, name)
    ensures fns[name] in chain.nfs && chain.nfs[fns[name]].hasElf
    ensures InKernel(chain, chain.links[i]) <==> !cfg.functions[name].disableXdp
    ensures InKernel(chain, chain.links[i]) ==>
      chain.nfs[fns[name]].ebpf.value.slots == NextPowerOfTwo(types[name].Len())
  {
    var names :| CompiledChain(cfg, types, fns, names, chain);
    assert name in Elements(names);
    i :| 0 <= i < |names| && names[i] == name;
  }

  /** Programs exist exactly for the functions that are not barred from the kernel. */
  lemma InKernelIff(cfg: Config, types: Types, fns: FnMap, chain: Chain, rt: Runtime, cores: nat, xsks: seq<Fd>,
                    name: string)
    requires Deployed(cfg, types, fns, chain, rt, cores, xsks) && name in fns
    ensures fns[name] in rt.st.objects <==> !cfg.functions[name].disableXdp
    ensures fns[name] in rt.dylibs
  {
    var i := Position(cfg, types, fns, chain, name);
    if KernelId(chain, fns[name]) {
      var l :| l in chain.links && l.uuid == fns[name] && InKernel(chain, l);
      assert chain.links[i].uuid == fns[name];
    } else {
      assert chain.links[i] in chain.links;
    }
  }

  // ---- What is installed for one function ----------------------------------------

  /** State `st` is what link `l` compiles to. */
  ghost predicate StateAgrees(cfg: Config, fns: FnMap, l: Link, st: XdpLinkState) {
    match st
    case Tail => IsTailLink(l)
    case Body(acts) => |acts| == |l.to| && forall k :: 0 <= k < |acts| ==> Agrees(cfg, fns, acts[k], l.to[k])
  }

  /** The runtime's entries for `name`, whose only link is `l` and whose program id would be `i`. */
  ghost predicate Entry(cfg: Config, fns: FnMap, rt: Runtime, cores: nat, xsks: seq<Fd>, name: string, l: Link,
                        i: nat, slots: nat) {
    && name in fns && LastLink(cfg.links, name) == Some(l) && |l.to| <= Handoff.U32 && i < Handoff.U32
    && fns[name] in rt.dylibs && fns[name] in rt.st.linkStates
    && var st := rt.st.linkStates[fns[name]];
       StateAgrees(cfg, fns, l, st)
       && (fns[name] in rt.st.objects ==>
             if st.Tail? then rt.st.objects[fns[name]].EndObj?
             else TablesFor(rt.st.objects[fns[name]], i, cores, xsks, st.acts, slots, rt.st.progFds)
                  && i in rt.st.instanceIds && rt.st.instanceIds[i] == fns[name])
  }

  /** Programs belong exactly to the functions not barred from the kernel, under distinct descriptors. */
  ghost predicate Programs(cfg: Config, fns: FnMap, rt: Runtime) {
    && rt.st.objects.Keys == rt.st.progFds.Keys
    && (forall n <- fns :: n in cfg.functions && (fns[n] in rt.st.objects <==> !cfg.functions[n].disableXdp))
    && (forall a, b :: a in rt.st.progFds && b in rt.st.progFds && rt.st.progFds[a] == rt.st.progFds[b] ==> a == b)
  }

  lemma StateOfAgrees(cfg: Config, types: Types, fns: FnMap, name: string, l: Link)
    requires GoodConfig(cfg, types, fns) && name in fns && LastLink(cfg.links, name) == Some(l)
    ensures StateAgrees(cfg, fns, l, StateOf(cfg, fns, cfg.links, name))
  {
    var l' := LinkOf(cfg, types, fns, name);
    var st := StateOf(cfg, fns, cfg.links, name);
    if st.Body? {
      forall k | 0 <= k < |st.acts|
        ensures Agrees(cfg, fns, st.acts[k], l.to[k])
      {
        ActionAgrees(cfg, types, fns, name, l, k);
      }
    }
  }

  lemma HasEntry(cfg: Config, types: Types, fns: FnMap, chain: Chain, rt: Runtime, cores: nat, xsks: seq<Fd>,
                 name: string)
    returns (l: Link, i: nat, slots: nat)
    requires Deployed(cfg, types, fns, chain, rt, cores, xsks) && name in fns
    ensures Entry(cfg, fns, rt, cores, xsks, name, l, i, slots) && |l.to| == types[name].Len()
    ensures slots == NextPowerOfTwo(|l.to|) && (rt.st.linkStates[fns[name]].Tail? <==> IsTailLink(l))
  {
    l := LinkOf(cfg, types, fns, name);
    StateOfAgrees(cfg, types, fns, name, l);
    i := Position(cfg, types, fns, chain, name);
    InKernelIff(cfg, types, fns, chain, rt, cores, xsks, name);
    slots := NextPowerOfTwo(types[name].Len());
    assert LinkInstalled(rt.st, chain, i, cores, xsks);
  }

  lemma HasPrograms(cfg: Config, types: Types, fns: FnMap, chain: Chain, rt: Runtime, cores: nat, xsks: seq<Fd>)
    requires Deployed(cfg, types, fns, chain, rt, cores, xsks)
    ensures Programs(cfg, fns, rt)
  {
    forall n | n in fns
      ensures n in cfg.functions && (fns[n] in rt.st.objects <==> !cfg.functions[n].disableXdp)
    {
      InKernelIff(cfg, types, fns, chain, rt, cores, xsks, n);
    }
  }

  // ---- One step -----------------------------------------------------------------

  /** A kernel verdict and the configuration's verdict. */
  function XdpOf(v: Verdict): XdpAction {
    match v case Transmit => XTx case Discard => XDrop case Fail => XAborted case PassUp => XPass
  }

  /** Split execution stands where the configuration's reading stands. */
  ghost predicate Matches(fns: FnMap, rt: Runtime, place: Place, pos: Pos) {
    match place
    case At(name) =>
      name in fns && (pos == User(fns[name]) || (pos == Kern(fns[name]) && fns[name] in rt.st.objects))
    case End(v) => pos == KDone(XdpOf(v)) || pos == UDone(v.Transmit?)
    case NoBranch => false
  }

  lemma UserStepMatches(cfg: Config, fns: FnMap, rt: Runtime, cores: nat, xsks: seq<Fd>,
                        name: string, l: Link, i: nat, slots: nat, out: nat)
    requires Entry(cfg, fns, rt, cores, xsks, name, l, i, slots) && out < |l.to|
    ensures Matches(fns, rt, AfterDirect(cfg, name, out), AfterUser(rt, fns[name], out))
  {
    var st := rt.st.linkStates[fns[name]];
    if st.Body? { assert Agrees(cfg, fns, st.acts[out], l.to[out]); }
  }

  lemma UpcallTo(e: Endian, obj: Obj, id: nat, cores: nat, xsks: seq<Fd>, acts: seq<LinkAction>, slots: nat,
                 fds: map<Uuid, Fd>, out: nat, env: Env, core: nat)
    requires TablesFor(obj, id, cores, xsks, acts, slots, fds) && 1 <= cores == |xsks|
    requires out < |acts| && acts[out].Upcall? && env.metaOk
    requires core == TargetCore(cores, env.draw) && core < cores
    ensures Dispatch(e, obj, out, env) == Redirect(core, WriteMeta(e, id, out))
  {
    assert acts[out].ToKind() == 3;
  }

  /** An upcall branch redirects to a core that has a socket, with the program's id and output. */
  lemma UpcallRedirects(e: Endian, obj: Obj, id: nat, cores: nat, xsks: seq<Fd>, acts: seq<LinkAction>, slots: nat,
                        fds: map<Uuid, Fd>, out: nat, env: Env)
    requires TablesFor(obj, id, cores, xsks, acts, slots, fds) && 1 <= cores == |xsks|
    requires out < |acts| && acts[out].Upcall? && env.metaOk
    ensures Dispatch(e, obj, out, env) == Redirect(env.draw % cores, WriteMeta(e, id, out))
  {
    CoreOf(cores, env.draw);
    UpcallTo(e, obj, id, cores, xsks, acts, slots, fds, out, env, TargetCore(cores, env.draw));
  }

  lemma CoreOf(cores: nat, draw: nat)
    requires cores > 0
    ensures TargetCore(cores, draw) == draw % cores < cores
  {
  }

  lemma AtLeastOnce(n: int, k: int)
    requires n > 0 && k > 0
    ensures n * k >= n
  {
  }

  lemma NoMultiple(n: int, k: int)
    requires n > 0 && -n < n * k < n
    ensures k == 0
  {
    if k > 0 { AtLeastOnce(n, k); }
    if k < 0 { AtLeastOnce(n, -k); }
  }

  lemma ModuloTurns(n: nat, d: nat, turned: nat)
    requires n > 0 && turned == d + n
    ensures turned % n == d % n
  {
    var k := turned / n - d / n - 1;
    assert n * k == d % n - turned % n;
    NoMultiple(n, k);
  }

  lemma ModuloSmall(n: nat, d: nat)
    requires d < n
    ensures d % n == d
  {
  }

  /** Every core is the one some draw chooses, and the draw counts modulo the number of cores:
      an upcall branch spreads its packets evenly if the draw is even. */
  lemma UpcallReachesEveryCore(e: Endian, obj: Obj, id: nat, cores: nat, xsks: seq<Fd>, acts: seq<LinkAction>,
                               slots: nat, fds: map<Uuid, Fd>, out: nat, core: nat)
    requires TablesFor(obj, id, cores, xsks, acts, slots, fds) && 1 <= cores == |xsks|
    requires out < |acts| && acts[out].Upcall? && core < cores
    ensures Dispatch(e, obj, out, Env(true, core)) == Redirect(core, WriteMeta(e, id, out))
  {
    UpcallRedirects(e, obj, id, cores, xsks, acts, slots, fds, out, Env(true, core));
    ModuloSmall(cores, core);
  }

  lemma UpcallDrawTurns(e: Endian, obj: Obj, id: nat, cores: nat, xsks: seq<Fd>, acts: seq<LinkAction>,
                        slots: nat, fds: map<Uuid, Fd>, out: nat, draw: nat, turned: nat)
    requires TablesFor(obj, id, cores, xsks, acts, slots, fds) && 1 <= cores == |xsks|
    requires out < |acts| && acts[out].Upcall? && turned == draw + cores
    ensures Dispatch(e, obj, out, Env(true, turned)) == Dispatch(e, obj, out, Env(true, draw))
  {
    UpcallRedirects(e, obj, id, cores, xsks, acts, slots, fds, out, Env(true, draw));
    UpcallRedirects(e, obj, id, cores, xsks, acts, slots, fds, out, Env(true, turned));
    ModuloTurns(cores, draw, turned);
  }

  lemma ResumeFinds(rt: Runtime, i: nat, src: Uuid, out: nat, next: Uuid)
    requires i in rt.st.instanceIds && rt.st.instanceIds[i] == src && src in rt.st.linkStates
    requires rt.st.linkStates[src].Act(out) == Some(Upcall(next)) && i < Handoff.U32 && out < Handoff.U32
    ensures Resume(rt, WriteMeta(rt.endian, i, out)) == User(next)
  {
    MetaRoundTrip(rt.endian, i, out);
  }

  /** Handoff: the metadata a program writes leads userland to the branch's NF, on every
      core the program can choose, and nothing that userland unwraps is missing. */
  lemma HandoffResumes(cfg: Config, fns: FnMap, rt: Runtime, cores: nat, xsks: seq<Fd>,
                       name: string, l: Link, i: nat, slots: nat, out: nat, env: Env, next: Uuid)
    requires Entry(cfg, fns, rt, cores, xsks, name, l, i, slots) && out < |l.to|
    requires fns[name] in rt.st.objects && 1 <= cores == |xsks| && env.metaOk
    requires var st := rt.st.linkStates[fns[name]]; st.Body? && st.acts[out] == Upcall(next)
    ensures Dispatch(rt.endian, rt.st.objects[fns[name]], out, env)
         == Redirect(env.draw % cores, WriteMeta(rt.endian, i, out))
    ensures Resume(rt, WriteMeta(rt.endian, i, out)) == User(next)
  {
    UpcallRedirects(rt.endian, rt.st.objects[fns[name]], i, cores, xsks, rt.st.linkStates[fns[name]].acts, slots,
                    rt.st.progFds, out, env);
    ResumeFinds(rt, i, fns[name], out, next);
  }

  lemma TailcallFinds(cfg: Config, fns: FnMap, rt: Runtime, cores: nat, xsks: seq<Fd>,
                      name: string, l: Link, i: nat, slots: nat, out: nat, env: Env, next: Uuid)
    requires Entry(cfg, fns, rt, cores, xsks, name, l, i, slots) && out < |l.to| && Programs(cfg, fns, rt)
    requires fns[name] in rt.st.objects && 1 <= cores
    requires var st := rt.st.linkStates[fns[name]]; st.Body? && st.acts[out] == Tailcall(next)
    ensures next in rt.st.objects && AfterKernel(rt, fns[name], out, env) == Kern(next)
  {
    var st := rt.st.linkStates[fns[name]];
    assert Agrees(cfg, fns, st.acts[out], l.to[out]);
    assert st.acts[out].ToKind() == 4;
    assert Owns(rt, rt.st.progFds[next], next);
  }

  lemma KernelStepMatches(cfg: Config, fns: FnMap, rt: Runtime, cores: nat, xsks: seq<Fd>,
                          name: string, l: Link, i: nat, slots: nat, out: nat, env: Env)
    requires Entry(cfg, fns, rt, cores, xsks, name, l, i, slots) && out < |l.to| && Programs(cfg, fns, rt)
    requires fns[name] in rt.st.objects && 1 <= cores == |xsks|
    ensures Matches(fns, rt, AfterDirect(cfg, name, out), AfterKernel(rt, fns[name], out, env))
         || (!env.metaOk && AfterKernel(rt, fns[name], out, env) == KDone(XAborted))
  {
    var st := rt.st.linkStates[fns[name]];
    if st.Body? {
      assert Agrees(cfg, fns, st.acts[out], l.to[out]);
      match st.acts[out]
      case Upcall(next) =>
        assert st.acts[out].ToKind() == 3;
        if env.metaOk { HandoffResumes(cfg, fns, rt, cores, xsks, name, l, i, slots, out, env, next); }
      case Tailcall(next) => TailcallFinds(cfg, fns, rt, cores, xsks, name, l, i, slots, out, env, next);
      case _ =>
    }
  }

  // ---- What a target's name means, spelled out -------------------------------------

  /** The function that target `t` names, be it an upcall by force or not. */
  ghost predicate Names(fns: FnMap, t: string, n: string) { n in fns && (t == n || t == "!" + n) }

  /** What the kernel does for target `t`: the verdicts of the four special names, a jump to a
      function that may run in the kernel, and for every other function, or if `!` demands it, a
      redirect that userland continues there. */
  ghost predicate KernelDoes(cfg: Config, fns: FnMap, rt: Runtime, cores: nat, env: Env, t: string, k: KernelResult) {
    && fns.Keys <= cfg.functions.Keys && cores > 0
    && (t == "tx" ==> k == Finish(XTx)) && (t == "drop" ==> k == Finish(XDrop))
    && (t == "abort" ==> k == Finish(XAborted)) && (t == "pass" ==> k == Finish(XPass))
    && (t in fns && !cfg.functions[t].disableXdp ==> fns[t] in rt.st.progFds && k == Jump(rt.st.progFds[fns[t]]))
    && (forall n :: Names(fns, t, n) && (t != n || cfg.functions[n].disableXdp) ==>
          if env.metaOk then k.Redirect? && k.core == env.draw % cores && Resume(rt, k.meta) == User(fns[n])
          else k == Finish(XAborted))
    && (t in {"tx", "drop", "abort", "pass"} || exists n :: Names(fns, t, n))
  }

  /** Outputs that the NF's type does not have: a chain that ends there sends the packet, the
      unused slots of a table say `tx`, and past the table the packet is refused. */
  function KernelBeyond(to: seq<string>, slots: nat, out: nat): KernelResult {
    if to == ["tx"] || out < slots then Finish(XTx) else Finish(OutOfBounds)
  }

  lemma TargetIsNamed(cfg: Config, types: Types, fns: FnMap, t: string)
    requires GoodConfig(cfg, types, fns) && Meaning(t) != NoBranch
    requires Meaning(t).At? ==> Meaning(t).name in fns
    ensures Meaning(t).At? ==> Names(fns, t, Meaning(t).name)
    ensures t in {"tx", "drop", "abort", "pass"} <==> Meaning(t).End?
    ensures forall n :: Names(fns, t, n) ==> Meaning(t) == At(n) && (Forced(t) <==> t != n)
  {
    if Forced(t) { assert t == "!" + t[1..]; }
    forall n | Names(fns, t, n)
      ensures Meaning(t) == At(n) && (Forced(t) <==> t != n)
    {
      assert Special(n).None? && !Forced(n);
      if t != n { assert t[1..] == n; }
    }
  }

  lemma BranchDoes(cfg: Config, types: Types, fns: FnMap, rt: Runtime, cores: nat, xsks: seq<Fd>,
                   name: string, l: Link, i: nat, slots: nat, out: nat, env: Env, t: string)
    requires GoodConfig(cfg, types, fns) && Programs(cfg, fns, rt)
    requires Entry(cfg, fns, rt, cores, xsks, name, l, i, slots) && out < |l.to| && t == l.to[out]
    requires fns[name] in rt.st.objects && 1 <= cores == |xsks|
    ensures rt.st.objects[fns[name]].ChainObj? ==> rt.st.objects[fns[name]].numCores > 0
    ensures KernelDoes(cfg, fns, rt, cores, env, t, Dispatch(rt.endian, rt.st.objects[fns[name]], out, env))
  {
    var st := rt.st.linkStates[fns[name]];
    if st.Body? {
      assert Agrees(cfg, fns, st.acts[out], t);
      TargetIsNamed(cfg, types, fns, t);
      match st.acts[out]
      case Upcall(next) =>
        assert st.acts[out].ToKind() == 3;
        if env.metaOk { HandoffResumes(cfg, fns, rt, cores, xsks, name, l, i, slots, out, env, next); }
      case Tailcall(next) => TailcallFinds(cfg, fns, rt, cores, xsks, name, l, i, slots, out, env, next);
      case _ =>
    } else {
      TargetIsNamed(cfg, types, fns, t);
    }
  }

  /** The program of `name`, whose link is `l`, on output `out`, whether its NF's type has it or not. */
  ghost predicate KernelFollows(cfg: Config, fns: FnMap, rt: Runtime, cores: nat, env: Env, name: string, l: Link,
                                out: nat) {
    && name in fns && fns[name] in rt.st.objects
    && var obj := rt.st.objects[fns[name]];
       (obj.ChainObj? ==> obj.numCores > 0)
       && var k := Dispatch(rt.endian, obj, out, env);
          if out < |l.to| then KernelDoes(cfg, fns, rt, cores, env, l.to[out], k)
          else k == KernelBeyond(l.to, NextPowerOfTwo(|l.to|), out)
  }

  lemma EntryFollows(cfg: Config, types: Types, fns: FnMap, rt: Runtime, cores: nat, xsks: seq<Fd>,
                     name: string, l: Link, i: nat, slots: nat, out: nat, env: Env)
    requires GoodConfig(cfg, types, fns) && Programs(cfg, fns, rt) && slots == NextPowerOfTwo(|l.to|)
    requires Entry(cfg, fns, rt, cores, xsks, name, l, i, slots) && fns[name] in rt.st.objects && 1 <= cores == |xsks|
    requires rt.st.linkStates[fns[name]].Tail? <==> IsTailLink(l)
    ensures KernelFollows(cfg, fns, rt, cores, env, name, l, out)
  {
    if out < |l.to| { BranchDoes(cfg, types, fns, rt, cores, xsks, name, l, i, slots, out, env, l.to[out]); }
  }

  /** The program of a deployed function does what the names of its targets say. */
  lemma KernelByName(cfg: Config, types: Types, fns: FnMap, chain: Chain, rt: Runtime, cores: nat, xsks: seq<Fd>,
                     name: string, out: nat, env: Env) returns (l: Link)
    requires Deployed(cfg, types, fns, chain, rt, cores, xsks) && name in fns && !cfg.functions[name].disableXdp
    ensures LastLink(cfg.links, name) == Some(l) && |l.to| == types[name].Len()
    ensures KernelFollows(cfg, fns, rt, cores, env, name, l, out)
  {
    var i, slots;
    l, i, slots := HasEntry(cfg, types, fns, chain, rt, cores, xsks, name);
    HasPrograms(cfg, types, fns, chain, rt, cores, xsks);
    EntryFollows(cfg, types, fns, rt, cores, xsks, name, l, i, slots, out, env);
  }

  /** Where userland goes for target `t`: on to a function it names, or out, sent only for `tx`. */
  ghost predicate UserDoes(fns: FnMap, t: string, pos: Pos) {
    && (t == "tx" ==> pos == UDone(true))
    && (t in {"drop", "abort", "pass"} ==> pos == UDone(false))
    && (forall n :: Names(fns, t, n) ==> pos == User(fns[n]))
  }

  ghost predicate UserFollows(fns: FnMap, rt: Runtime, name: string, l: Link, out: nat) {
    && name in fns
    && var pos := AfterUser(rt, fns[name], out);
       if out < |l.to| then UserDoes(fns, l.to[out], pos) else pos == if l.to == ["tx"] then UDone(true) else Stuck
  }

  lemma UserEntryFollows(cfg: Config, types: Types, fns: FnMap, rt: Runtime, cores: nat, xsks: seq<Fd>,
                         name: string, l: Link, i: nat, slots: nat, out: nat)
    requires GoodConfig(cfg, types, fns) && Entry(cfg, fns, rt, cores, xsks, name, l, i, slots)
    requires rt.st.linkStates[fns[name]].Tail? <==> IsTailLink(l)
    ensures UserFollows(fns, rt, name, l, out)
  {
    var st := rt.st.linkStates[fns[name]];
    if out < |l.to| {
      if st.Body? { assert Agrees(cfg, fns, st.acts[out], l.to[out]); }
      TargetIsNamed(cfg, types, fns, l.to[out]);
    }
  }

  /** Userland, after a deployed function, does what the names of its targets say. */
  lemma UserByName(cfg: Config, types: Types, fns: FnMap, chain: Chain, rt: Runtime, cores: nat, xsks: seq<Fd>,
                   name: string, out: nat) returns (l: Link)
    requires Deployed(cfg, types, fns, chain, rt, cores, xsks) && name in fns
    ensures LastLink(cfg.links, name) == Some(l) && |l.to| == types[name].Len()
    ensures UserFollows(fns, rt, name, l, out)
  {
    var i, slots;
    l, i, slots := HasEntry(cfg, types, fns, chain, rt, cores, xsks, name);
    UserEntryFollows(cfg, types, fns, rt, cores, xsks, name, l, i, slots, out);
  }

  // ---- Whole runs ---------------------------------------------------------------

  ghost predicate Known(fns: FnMap, trace: seq<(string, nat)>) {
    forall k :: 0 <= k < |trace| ==> trace[k].0 in fns
  }

  function Ids(fns: FnMap, trace: seq<(string, nat)>): Trace
    requires forall k :: 0 <= k < |trace| ==> trace[k].0 in fns
  {
    seq(|trace|, k requires 0 <= k < |trace| => (fns[trace[k].0], trace[k].1))
  }

  lemma LastRootIsFed(cfg: Config, fns: FnMap, names: seq<string>, links: seq<XdpLink>, root: string, id: Uuid)
    requires fns.Keys <= cfg.functions.Keys && Lists(cfg, fns, names, links) && LastRoot(links) == Some(id)
    requires forall n :: FedByRx(cfg.links, n) ==> n == root
    ensures root in fns && id == fns[root]
  {
    LastRootIs(links);
    var k: nat :| IsLastRoot(links, k) && links[k].uuid == id;
    assert names[k] in Elements(names) && FedByRx(cfg.links, names[k]);
  }

  lemma RootIsAttached(cfg: Config, types: Types, fns: FnMap, chain: Chain, rt: Runtime, cores: nat, xsks: seq<Fd>,
                       root: string)
    requires Deployed(cfg, types, fns, chain, rt, cores, xsks) && FedByRx(cfg.links, root)
    ensures root in fns && rt.st.attached == fns[root] && fns[root] in rt.st.objects
  {
    var only := ExactlyOneRoot(cfg, fns);
    var names :| CompiledChain(cfg, types, fns, names, chain);
    LastRootIsFed(cfg, fns, names, chain.links, root, rt.st.attached);
  }

  ghost predicate IsLastRoot(links: seq<XdpLink>, k: nat) {
    k < |links| && links[k].root && forall j :: k < j < |links| ==> !links[j].root
  }

  /** The root that is attached is the last one marked. */
  lemma {:induction false} LastRootIs(links: seq<XdpLink>)
    ensures match LastRoot(links)
            case Some(id) => exists k: nat :: IsLastRoot(links, k) && links[k].uuid == id
            case None => forall k :: 0 <= k < |links| ==> !links[k].root
  {
    if links != [] {
      var n := |links| - 1;
      LastRootIs(links[..n]);
      if links[n].root {
        assert IsLastRoot(links, n);
      } else if LastRoot(links[..n]).Some? {
        var k: nat :| IsLastRoot(links[..n], k) && links[..n][k].uuid == LastRoot(links).value;
        LastRootOn(links, k, n);
      }
    }
  }

  lemma LastRootOn(links: seq<XdpLink>, k: nat, n: nat)
    requires n + 1 == |links| && !links[n].root && IsLastRoot(links[..n], k)
    ensures IsLastRoot(links, k)
  {
    forall j | k < j < |links|
      ensures !links[j].root
    {
      if j < n { assert links[..n][j] == links[j]; }
    }
  }

  /** The split run agrees with `d`: same place, same packet, same NF executions. */
  ghost predicate SameRun<P(!new)>(fns: FnMap, rt: Runtime, d: DirectRun<P>, s: Run<P>) {
    Known(fns, d.trace) && Matches(fns, rt, d.place, s.pos) && s.p == d.p && s.trace == Ids(fns, d.trace)
  }

  /** The handoff failed: the kernel gave the packet up after a prefix of the direct run. */
  ghost predicate CutShort<P(!new)>(cfg: Config, fns: FnMap, nf: (Uuid, P) -> (P, nat), root: string, p: P, n: nat,
                                    env: Env, s: Run<P>) {
    && !env.metaOk && s.pos == KDone(XAborted)
    && exists m :: 0 <= m <= n && var d := Direct(cfg, fns, nf, root, p, m);
         Known(fns, d.trace) && s.trace == Ids(fns, d.trace) && s.p == d.p
  }

  lemma IdsSnoc(fns: FnMap, trace: seq<(string, nat)>, step: (string, nat))
    requires Known(fns, trace) && step.0 in fns
    ensures Known(fns, trace + [step])
    ensures Ids(fns, trace + [step]) == Ids(fns, trace) + [(fns[step.0], step.1)]
  {
  }

  /** All that the run theorems need to know about a deployment. */
  ghost predicate Ready(cfg: Config, types: Types, fns: FnMap, rt: Runtime, cores: nat, xsks: seq<Fd>) {
    && Programs(cfg, fns, rt) && 1 <= cores == |xsks|
    && forall n <- fns :: n in types && exists l, i, slots ::
         Entry(cfg, fns, rt, cores, xsks, n, l, i, slots) && |l.to| == types[n].Len()
  }

  lemma DeployedIsReady(cfg: Config, types: Types, fns: FnMap, chain: Chain, rt: Runtime, cores: nat, xsks: seq<Fd>)
    requires Deployed(cfg, types, fns, chain, rt, cores, xsks)
    ensures Ready(cfg, types, fns, rt, cores, xsks)
  {
    HasPrograms(cfg, types, fns, chain, rt, cores, xsks);
    forall n | n in fns
      ensures exists l, i, slots :: Entry(cfg, fns, rt, cores, xsks, n, l, i, slots) && |l.to| == types[n].Len()
    {
      var l, i, slots := HasEntry(cfg, types, fns, chain, rt, cores, xsks, n);
    }
  }

  lemma OneStep<P(!new)>(cfg: Config, types: Types, fns: FnMap, rt: Runtime, cores: nat, xsks: seq<Fd>,
                         nf: (Uuid, P) -> (P, nat), env: Env, d: DirectRun<P>, s: Run<P>)
    requires Ready(cfg, types, fns, rt, cores, xsks) && Behaved(types, fns, nf)
    requires SameRun(fns, rt, d, s)
    ensures var d', s' := DirectStep(cfg, fns, nf, d), SplitStep(rt, nf, env, s);
      SameRun(fns, rt, d', s')
      || (!env.metaOk && s'.pos == KDone(XAborted) && Known(fns, d'.trace) && s'.trace == Ids(fns, d'.trace)
          && s'.p == d'.p)
  {
    if d.place.At? {
      var name := d.place.name;
      var out := nf(fns[name], d.p).1;
      var l, i, slots :| Entry(cfg, fns, rt, cores, xsks, name, l, i, slots) && |l.to| == types[name].Len();
      IdsSnoc(fns, d.trace, (name, out));
      if s.pos.Kern? {
        KernelStepMatches(cfg, fns, rt, cores, xsks, name, l, i, slots, out, env);
      } else {
        UserStepMatches(cfg, fns, rt, cores, xsks, name, l, i, slots, out);
      }
    }
  }

  /** A cut run stays cut. */
  lemma CutStays<P(!new)>(cfg: Config, fns: FnMap, rt: Runtime, nf: (Uuid, P) -> (P, nat), env: Env, root: string,
                          p: P, n: nat, s: Run<P>)
    requires CutShort(cfg, fns, nf, root, p, n, env, s)
    ensures SplitStep(rt, nf, env, s) == s && CutShort(cfg, fns, nf, root, p, n + 1, env, s)
  {
  }

  lemma CutNow<P(!new)>(cfg: Config, fns: FnMap, nf: (Uuid, P) -> (P, nat), env: Env, root: string, p: P, n: nat,
                        d: DirectRun<P>, s: Run<P>)
    requires d == Direct(cfg, fns, nf, root, p, n) && !env.metaOk && s.pos == KDone(XAborted)
    requires Known(fns, d.trace) && s.trace == Ids(fns, d.trace) && s.p == d.p
    ensures CutShort(cfg, fns, nf, root, p, n, env, s)
  {
  }

  lemma FollowsOn<P(!new)>(cfg: Config, types: Types, fns: FnMap, rt: Runtime, cores: nat, xsks: seq<Fd>,
                           nf: (Uuid, P) -> (P, nat), env: Env, root: string, p: P, n: nat,
                           d: DirectRun<P>, s: Run<P>, d': DirectRun<P>, s': Run<P>)
    requires Ready(cfg, types, fns, rt, cores, xsks) && Behaved(types, fns, nf)
    requires d == Direct(cfg, fns, nf, root, p, n)
    requires d' == DirectStep(cfg, fns, nf, d) && s' == SplitStep(rt, nf, env, s)
    requires SameRun(fns, rt, d, s) || CutShort(cfg, fns, nf, root, p, n, env, s)
    ensures SameRun(fns, rt, d', s') || CutShort(cfg, fns, nf, root, p, n + 1, env, s')
  {
    if CutShort(cfg, fns, nf, root, p, n, env, s) {
      CutStays(cfg, fns, rt, nf, env, root, p, n, s);
    } else {
      OneStep(cfg, types, fns, rt, cores, xsks, nf, env, d, s);
      if !SameRun(fns, rt, d', s') {
        CutNow(cfg, fns, nf, env, root, p, n + 1, d', s');
      }
    }
  }

  lemma {:induction false} ReadyRunFollows<P(!new)>(
      cfg: Config, types: Types, fns: FnMap, rt: Runtime, cores: nat, xsks: seq<Fd>,
      nf: (Uuid, P) -> (P, nat), env: Env, root: string, p: P, n: nat)
    requires Ready(cfg, types, fns, rt, cores, xsks) && Behaved(types, fns, nf)
    requires root in fns && rt.st.attached == fns[root] && fns[root] in rt.st.objects
    ensures SameRun(fns, rt, Direct(cfg, fns, nf, root, p, n), SplitRun(rt, nf, env, p, n))
         || CutShort(cfg, fns, nf, root, p, n, env, SplitRun(rt, nf, env, p, n))
  {
    var d', s' := Direct(cfg, fns, nf, root, p, n), SplitRun(rt, nf, env, p, n);
    if n > 0 {
      ReadyRunFollows(cfg, types, fns, rt, cores, xsks, nf, env, root, p, n - 1);
      var d, s := Direct(cfg, fns, nf, root, p, n - 1), SplitRun(rt, nf, env, p, n - 1);
      FollowsOn(cfg, types, fns, rt, cores, xsks, nf, env, root, p, n - 1, d, s, d', s');
    }
  }

  /** For every deployed chain, packet, NF behaviour and number of steps, split execution and
      the configuration execute the same NFs with the same outputs on the same packet and
      stand at the same place; a refused handoff can only cut the run short. */
  lemma SplitFollowsConfig<P(!new)>(
      cfg: Config, types: Types, fns: FnMap, chain: Chain, rt: Runtime, cores: nat, xsks: seq<Fd>,
      nf: (Uuid, P) -> (P, nat), env: Env, root: string, p: P, n: nat)
    requires Deployed(cfg, types, fns, chain, rt, cores, xsks) && Behaved(types, fns, nf)
    requires FedByRx(cfg.links, root)
    ensures SameRun(fns, rt, Direct(cfg, fns, nf, root, p, n), SplitRun(rt, nf, env, p, n))
         || CutShort(cfg, fns, nf, root, p, n, env, SplitRun(rt, nf, env, p, n))
  {
    DeployedIsReady(cfg, types, fns, chain, rt, cores, xsks);
    RootIsAttached(cfg, types, fns, chain, rt, cores, xsks, root);
    ReadyRunFollows(cfg, types, fns, rt, cores, xsks, nf, env, root, p, n);
  }

  predicate Sends(pos: Pos) { pos == KDone(XTx) || pos == UDone(true) }

  predicate Finished(pos: Pos) { pos.KDone? || pos.UDone? }

  /** The outcome of the split run is the configuration's: it has one when the configuration
      has one, sends exactly for `tx`, and in the kernel gives exactly that verdict. */
  predicate SameOutcome(place: Place, pos: Pos) {
    && (Finished(pos) <==> place.End?)
    && (Sends(pos) <==> place == End(Transmit))
    && (pos.KDone? ==> place.End? && pos.act == XdpOf(place.v))
    && pos != Stuck
  }

  lemma MatchedOutcome(fns: FnMap, rt: Runtime, place: Place, pos: Pos)
    requires Matches(fns, rt, place, pos)
    ensures SameOutcome(place, pos)
  {
  }

  /** Without a refused handoff a packet is sent exactly when the configuration's reading
      ends in `tx`, a verdict given in the kernel is exact, and no lookup fails. */
  lemma TransmitsAsConfigured<P(!new)>(
      cfg: Config, types: Types, fns: FnMap, chain: Chain, rt: Runtime, cores: nat, xsks: seq<Fd>,
      nf: (Uuid, P) -> (P, nat), env: Env, root: string, p: P, n: nat)
    requires Deployed(cfg, types, fns, chain, rt, cores, xsks) && Behaved(types, fns, nf)
    requires FedByRx(cfg.links, root) && env.metaOk
    ensures SameOutcome(Direct(cfg, fns, nf, root, p, n).place, SplitRun(rt, nf, env, p, n).pos)
  {
    SplitFollowsConfig(cfg, types, fns, chain, rt, cores, xsks, nf, env, root, p, n);
    MatchedOutcome(fns, rt, Direct(cfg, fns, nf, root, p, n).place, SplitRun(rt, nf, env, p, n).pos);
  }
}
