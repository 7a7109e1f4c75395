/** From configuration to running chain: which configurations deploy. */
module Deployment {
  import opened Basics
  import opened Protocol
  import opened Chainsmith
  import opened ChainShape
  import opened Compile
  import opened Install
  import opened Handoff
  import opened Execution
  import opened Refinement

  lemma CompiledUuidsDistinct(cfg: Config, fns: FnMap, names: seq<string>, links: seq<XdpLink>)
    requires fns.Keys <= cfg.functions.Keys && Injective(fns) && Lists(cfg, fns, names, links)
    ensures DistinctUuids(links)
  {
    forall i, j | 0 <= i < j < |links|
      ensures links[i].uuid != links[j].uuid
    {
      assert names[i] in Elements(names) && names[j] in Elements(names) && names[i] != names[j];
    }
  }

  lemma FunctionInKernel(cfg: Config, types: Types, fns: FnMap, chain: Chain, name: string)
    requires GoodConfig(cfg, types, fns) && name in fns
    requires exists names :: CompiledChain(cfg, types, fns, names, chain)
    ensures KernelId(chain, fns[name]) <==> !cfg.functions[name].disableXdp
  {
    var i := Position(cfg, types, fns, chain, name);
    assert chain.links[i] in chain.links && chain.links[i].uuid == fns[name];
  }

  /** Jumps of a compiled state lead to functions that have a kernel program. */
  lemma JumpsFindPrograms(cfg: Config, types: Types, fns: FnMap, chain: Chain, l: Link, st: XdpLinkState)
    requires GoodConfig(cfg, types, fns) && StateAgrees(cfg, fns, l, st) && st.Body?
    requires exists names :: CompiledChain(cfg, types, fns, names, chain)
    ensures forall a <- st.acts :: a.Tailcall? ==> KernelId(chain, a.id)
  {
    forall a | a in st.acts && a.Tailcall?
      ensures KernelId(chain, a.id)
    {
      var k :| 0 <= k < |st.acts| && st.acts[k] == a;
      assert Agrees(cfg, fns, a, l.to[k]);
      FunctionInKernel(cfg, types, fns, chain, Meaning(l.to[k]).name);
    }
  }

  /** Every link of a compiled chain fits its tables. */
  lemma CompiledLinkFits(cfg: Config, types: Types, fns: FnMap, chain: Chain, xsks: seq<Fd>, name: string, x: XdpLink)
    requires GoodConfig(cfg, types, fns) && name in fns && |xsks| <= XSK_SLOTS
    requires exists names :: CompiledChain(cfg, types, fns, names, chain)
    requires x == Concrete(cfg, fns, cfg.links, name)
    ensures x.uuid in chain.nfs && LinkFits(chain, x, xsks)
  {
    var l := LinkOf(cfg, types, fns, name);
    StateOfAgrees(cfg, types, fns, name, l);
    var j := Position(cfg, types, fns, chain, name);
    if x.state.Body? {
      JumpsFindPrograms(cfg, types, fns, chain, l, x.state);
    }
  }

  lemma {:induction false} OnlyRootIsLast(links: seq<XdpLink>, i: nat, id: Uuid)
    requires i < |links| && links[i].root
    requires forall k :: 0 <= k < |links| && links[k].root ==> links[k].uuid == id
    ensures LastRoot(links) == Some(id)
  {
    var n := |links| - 1;
    if !links[n].root {
      OnlyRootIsLast(links[..n], i, id);
    }
  }

  lemma RootOf(cfg: Config, types: Types, fns: FnMap, chain: Chain, root: string)
    requires GoodConfig(cfg, types, fns) && FedByRx(cfg.links, root)
    requires exists names :: CompiledChain(cfg, types, fns, names, chain)
    ensures root in fns && LastRoot(chain.links) == Some(fns[root])
  {
    var only := ExactlyOneRoot(cfg, fns);
    var i := Position(cfg, types, fns, chain, root);
    forall k | 0 <= k < |chain.links| && chain.links[k].root
      ensures chain.links[k].uuid == fns[root]
    {
      RootLinkIs(cfg, types, fns, chain, root, k);
    }
    OnlyRootIsLast(chain.links, i, fns[root]);
  }

  lemma RootLinkIs(cfg: Config, types: Types, fns: FnMap, chain: Chain, root: string, k: nat)
    requires GoodConfig(cfg, types, fns) && root in fns && FedByRx(cfg.links, root)
    requires exists names :: CompiledChain(cfg, types, fns, names, chain)
    requires k < |chain.links| && chain.links[k].root
    ensures chain.links[k].uuid == fns[root]
  {
    var only := ExactlyOneRoot(cfg, fns);
    var names :| CompiledChain(cfg, types, fns, names, chain);
    assert names[k] in Elements(names) && FedByRx(cfg.links, names[k]);
  }

  lemma AllLinksFit(cfg: Config, types: Types, fns: FnMap, chain: Chain, xsks: seq<Fd>)
    requires GoodConfig(cfg, types, fns) && |xsks| <= XSK_SLOTS
    requires exists names :: CompiledChain(cfg, types, fns, names, chain)
    ensures forall l <- chain.links :: l.uuid in chain.nfs && LinkFits(chain, l, xsks)
  {
    var names :| CompiledChain(cfg, types, fns, names, chain);
    forall l | l in chain.links
      ensures l.uuid in chain.nfs && LinkFits(chain, l, xsks)
    {
      var i :| 0 <= i < |chain.links| && chain.links[i] == l;
      assert names[i] in Elements(names);
      CompiledLinkFits(cfg, types, fns, chain, xsks, names[i], l);
    }
  }

  lemma InstallableByRoot(chain: Chain, xsks: seq<Fd>, id: Uuid)
    requires forall l <- chain.links :: l.uuid in chain.nfs && LinkFits(chain, l, xsks)
    requires LastRoot(chain.links) == Some(id)
    ensures Installable(chain, xsks) <==> KernelId(chain, id)
  {
  }

  lemma InstallableIff(cfg: Config, types: Types, fns: FnMap, chain: Chain, xsks: seq<Fd>, root: string)
    requires GoodConfig(cfg, types, fns) && root in fns
    requires exists names :: CompiledChain(cfg, types, fns, names, chain)
    requires forall l <- chain.links :: l.uuid in chain.nfs && LinkFits(chain, l, xsks)
    requires LastRoot(chain.links) == Some(fns[root])
    ensures Installable(chain, xsks) <==> !cfg.functions[root].disableXdp
  {
    FunctionInKernel(cfg, types, fns, chain, root);
    InstallableByRoot(chain, xsks, fns[root]);
  }

  /** A compiled good configuration installs if and only if its root may run in the kernel:
      no link is ever bad, no table too small; only the root's panic remains. */
  lemma InstallsIffRootInKernel(cfg: Config, types: Types, fns: FnMap, chain: Chain, xsks: seq<Fd>, root: string)
    requires GoodConfig(cfg, types, fns) && FedByRx(cfg.links, root) && |xsks| <= XSK_SLOTS
    requires exists names :: CompiledChain(cfg, types, fns, names, chain)
    ensures root in fns && (Installable(chain, xsks) <==> !cfg.functions[root].disableXdp)
  {
    RootOf(cfg, types, fns, chain, root);
    AllLinksFit(cfg, types, fns, chain, xsks);
    InstallableIff(cfg, types, fns, chain, xsks, root);
  }

  // ---- The pipeline -------------------------------------------------------------

  datatype DeployError = NotCompiled(e: CompileError) | NotInstalled(i: InstallError)

  /** What a deployment takes for granted: names, enums and ids, as the compiler relies on them. */
  ghost predicate Conventional(cfg: Config, types: Types, fns: FnMap) {
    && fns.Keys == cfg.functions.Keys == types.Keys && Injective(fns) && |fns.Keys| <= Handoff.U32
    && WellNamed(cfg) && OneLinkPerSource(cfg.links)
    && forall n <- types :: types[n].Enum? && types[n].Len() <= Handoff.U32
  }

  ghost predicate CompilesOk(cfg: Config, types: Types, fns: FnMap)
    requires fns.Keys == cfg.functions.Keys == types.Keys
  {
    (forall n <- types :: ArityOk(cfg, types, n)) && Accepts(cfg, fns)
  }

  ghost predicate RootInKernel(cfg: Config, fns: FnMap)
    requires fns.Keys == cfg.functions.Keys
  {
    exists root <- fns :: FedByRx(cfg.links, root) && !cfg.functions[root].disableXdp
  }

  /** A compiled chain meets what installing it asks for, except perhaps for its root. */
  lemma ReadyToInstall(cfg: Config, types: Types, fns: FnMap, names: seq<string>, chain: Chain, xsks: seq<Fd>)
    requires GoodConfig(cfg, types, fns) && |fns.Keys| <= Handoff.U32 && |xsks| <= XSK_SLOTS
    requires CompiledChain(cfg, types, fns, names, chain)
    ensures DistinctUuids(chain.links) && |chain.links| <= Handoff.U32
    ensures Installable(chain, xsks) <==> RootInKernel(cfg, fns)
  {
    CompiledUuidsDistinct(cfg, fns, names, chain.links);
    DistinctSize(names);
    var root := ExactlyOneRoot(cfg, fns);
    InstallsIffRootInKernel(cfg, types, fns, chain, xsks, root);
  }

  /** Of all refusals a compiled chain can meet only one: its root has no kernel program. */
  lemma OnlyTheRootIsRefused(cfg: Config, types: Types, fns: FnMap, names: seq<string>, chain: Chain, xsks: seq<Fd>,
                             e: InstallError)
    requires GoodConfig(cfg, types, fns) && |xsks| <= XSK_SLOTS
    requires CompiledChain(cfg, types, fns, names, chain) && ErrorMeans(e, chain, xsks)
    ensures e.RootNotLoaded? && exists root <- fns :: e.id == fns[root] && FedByRx(cfg.links, root)
  {
    var root := ExactlyOneRoot(cfg, fns);
    RootOf(cfg, types, fns, chain, root);
    AllLinksFit(cfg, types, fns, chain, xsks);
    OnlyRootLeft(chain, xsks, e, fns[root]);
  }

  lemma IsDeployed(cfg: Config, types: Types, fns: FnMap, names: seq<string>, chain: Chain, rt: Runtime, cores: nat,
                   xsks: seq<Fd>)
    requires GoodConfig(cfg, types, fns) && CompiledChain(cfg, types, fns, names, chain)
    requires |chain.links| <= Handoff.U32 && 1 <= cores == |xsks|
    requires Represents(rt.st, chain, cores, xsks)
    requires rt.dylibs == Dylibs(chain)
    ensures Deployed(cfg, types, fns, chain, rt, cores, xsks)
  {
  }

  /** Compiles and installs a configuration on `cores` cores. */
  method Deploy(cfg: Config, types: Types, fns: FnMap, cores: nat, xsks: seq<Fd>, endian: Endian)
    returns (r: Result<Runtime, DeployError>, ghost chain: Chain)
    requires Conventional(cfg, types, fns) && 1 <= cores == |xsks| <= XSK_SLOTS
    ensures r.Success? <==> CompilesOk(cfg, types, fns) && RootInKernel(cfg, fns)
    ensures r.Success? ==> Deployed(cfg, types, fns, chain, r.value, cores, xsks)
    ensures r.Failure? ==> (r.error.NotCompiled? <==> !CompilesOk(cfg, types, fns))
    ensures r.Failure? && r.error.NotCompiled? ==> CompileErrorIs(cfg, types, fns, r.error.e)
    ensures r.Failure? && r.error.NotInstalled? ==>
      r.error.i.RootNotLoaded? && exists root <- fns :: r.error.i.id == fns[root] && FedByRx(cfg.links, root)
  {
    chain := Chain([], map[]);
    var compiled := CompileChain(cfg, types, fns);
    if compiled.Failure? { return Failure(NotCompiled(compiled.error)), chain; }
    var c := compiled.value;
    ghost var names :| CompiledChain(cfg, types, fns, names, c);
    chain := c;
    ReadyToInstall(cfg, types, fns, names, c, xsks);
    var installed := InstallChain(c, cores, xsks);
    if installed.Failure? {
      OnlyTheRootIsRefused(cfg, types, fns, names, c, xsks, installed.error);
      return Failure(NotInstalled(installed.error)), chain;
    }
    var rt := Runtime(installed.value, Dylibs(c), endian);
    IsDeployed(cfg, types, fns, names, c, rt, cores, xsks);
    return Success(rt), chain;
  }

  // ---- The root that compiles and does not install --------------------------------

  /** One function, fed by `rx` and leading to `tx`. */
  function OneFunction(disableXdp: bool): Config {
    Config(map["nf" := Nf(disableXdp)], [Link("rx", ["nf"]), Link("nf", ["tx"])])
  }

  lemma OneFunctionCompiles(disableXdp: bool, id: Uuid, cfg: Config, types: Types, fns: FnMap)
    requires cfg == OneFunction(disableXdp) && types == map["nf" := Enum(["Next"])] && fns == map["nf" := id]
    ensures Conventional(cfg, types, fns) && CompilesOk(cfg, types, fns)
    ensures RootInKernel(cfg, fns) <==> !disableXdp
  {
    assert fns.Keys == {"nf"} && |fns.Keys| == 1;
    assert cfg.links[0].from == "rx" && cfg.links[1].from == "nf" && "nf"[0] == 'n';
    assert cfg.links[1..][0] == cfg.links[1];
    assert RxCount(cfg.links[..1]) == 1 by { assert cfg.links[..1][..0] == []; }
    assert RxCount(cfg.links) == 1;
    forall l | l in cfg.links
      ensures Fault(cfg, fns, l).None?
    {
      FaultlessIff(cfg, fns, l);
    }
    assert FedByRx(cfg.links, "nf") by { assert cfg.links[0] in cfg.links; }
  }

  /** A configuration that compiles and whose chain is refused on any number of cores: its root
      may not run in the kernel. */
  lemma DisabledRootIsRefused(id: Uuid, xsks: seq<Fd>, cfg: Config, types: Types, fns: FnMap)
    requires cfg == OneFunction(true) && types == map["nf" := Enum(["Next"])] && fns == map["nf" := id]
    requires |xsks| <= XSK_SLOTS
    ensures Conventional(cfg, types, fns) && CompilesOk(cfg, types, fns)
    ensures forall names, chain :: CompiledChain(cfg, types, fns, names, chain) ==> !Installable(chain, xsks)
  {
    OneFunctionCompiles(true, id, cfg, types, fns);
    forall names, chain | CompiledChain(cfg, types, fns, names, chain)
      ensures !Installable(chain, xsks)
    {
      ReadyToInstall(cfg, types, fns, names, chain, xsks);
    }
  }
}
