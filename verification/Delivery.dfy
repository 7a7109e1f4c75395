/**
  What a dataplane thread's decision on a redirected packet means: it is the verdict that the
  configuration gives from the branch where the kernel program handed the packet over.
*/
module Delivery {
  import opened Basics
  import opened Protocol
  import opened Chainsmith
  import opened Compile
  import opened Install
  import opened Handoff
  import opened Execution
  import opened Refinement
  import opened Traversal
  import opened FrameProtocol
  import opened Dataplane

  // ---- The userland walk and the configuration ----------------------------------

  /** Userland stands where the configuration's reading stands. */
  predicate InUserland(fns: FnMap, place: Place, pos: Pos) {
    match place
    case At(name) => name in fns && pos == User(fns[name])
    case End(v) => pos == UDone(v.Transmit?)
    case NoBranch => false
  }

  lemma {:induction false} AfterSnoc<P>(rt: Runtime, nf: (Uuid, P) -> (P, nat), pos: Pos, p: P, n: nat)
    ensures var (at, q) := After(rt, nf, pos, p, n);
      After(rt, nf, pos, p, n + 1) == if at.User? then UserStep(rt, nf, at.id, q) else (at, q)
    decreases n
  {
    if n > 0 && pos.User? {
      var (pos', p') := UserStep(rt, nf, pos.id, p);
      AfterSnoc(rt, nf, pos', p', n - 1);
    }
  }

  lemma UserlandStep<P(!new)>(cfg: Config, types: Types, fns: FnMap, rt: Runtime, cores: nat, xsks: seq<Fd>,
                              nf: (Uuid, P) -> (P, nat), name: string, p: P)
    requires Ready(cfg, types, fns, rt, cores, xsks) && Behaved(types, fns, nf) && name in fns
    ensures var (p', out) := nf(fns[name], p);
      InUserland(fns, AfterDirect(cfg, name, out), AfterUser(rt, fns[name], out)) && fns[name] in rt.dylibs
  {
    var out := nf(fns[name], p).1;
    var l, i, slots :| Entry(cfg, fns, rt, cores, xsks, name, l, i, slots) && |l.to| == types[name].Len();
    UserStepMatches(cfg, fns, rt, cores, xsks, name, l, i, slots, out);
  }

  /** From any function of the chain, userland executes what the configuration says, step by step. */
  lemma {:induction false} UserlandFollows<P(!new)>(
      cfg: Config, types: Types, fns: FnMap, rt: Runtime, cores: nat, xsks: seq<Fd>,
      nf: (Uuid, P) -> (P, nat), name: string, p: P, n: nat)
    requires Ready(cfg, types, fns, rt, cores, xsks) && Behaved(types, fns, nf) && name in fns
    ensures var d := Direct(cfg, fns, nf, name, p, n);
      var (pos, q) := After(rt, nf, User(fns[name]), p, n);
      InUserland(fns, d.place, pos) && q == d.p
  {
    if n > 0 {
      UserlandFollows(cfg, types, fns, rt, cores, xsks, nf, name, p, n - 1);
      AfterSnoc(rt, nf, User(fns[name]), p, n - 1);
      var d := Direct(cfg, fns, nf, name, p, n - 1);
      if d.place.At? { UserlandStep(cfg, types, fns, rt, cores, xsks, nf, d.place.name, d.p); }
    }
  }

  ghost predicate Ends<P(!new)>(cfg: Config, fns: FnMap, nf: (Uuid, P) -> (P, nat), name: string, p: P) {
    exists n: nat :: Direct(cfg, fns, nf, name, p, n).place.End?
  }

  lemma HaltsIffEnds<P(!new)>(
      cfg: Config, types: Types, fns: FnMap, rt: Runtime, cores: nat, xsks: seq<Fd>,
      nf: (Uuid, P) -> (P, nat), name: string, p: P)
    requires Ready(cfg, types, fns, rt, cores, xsks) && Behaved(types, fns, nf) && name in fns
    ensures Halts(rt, nf, User(fns[name]), p) <==> Ends(cfg, fns, nf, name, p)
  {
    if Halts(rt, nf, User(fns[name]), p) {
      var n: nat :| After(rt, nf, User(fns[name]), p, n).0.UDone?;
      UserlandFollows(cfg, types, fns, rt, cores, xsks, nf, name, p, n);
    }
    if Ends(cfg, fns, nf, name, p) {
      var n: nat :| Direct(cfg, fns, nf, name, p, n).place.End?;
      UserlandFollows(cfg, types, fns, rt, cores, xsks, nf, name, p, n);
      assert After(rt, nf, User(fns[name]), p, n).0.UDone?;
    }
  }

  // ---- The decision on a redirected packet ---------------------------------------

  /** The kernel program of `name` redirects a packet with this metadata when its NF answers `out`. */
  ghost predicate Redirects(rt: Runtime, id: Uuid, out: nat, env: Env, meta: seq<Byte>) {
    && id in rt.st.objects && (rt.st.objects[id].ChainObj? ==> rt.st.objects[id].numCores > 0)
    && var k := Dispatch(rt.endian, rt.st.objects[id], out, env);
       k.Redirect? && k.meta == meta
  }

  /** A redirect happens at an upcall branch only, and its metadata leads to that branch's function. */
  lemma RedirectLeadsOn(cfg: Config, types: Types, fns: FnMap, rt: Runtime, cores: nat, xsks: seq<Fd>,
                        name: string, out: nat, env: Env, meta: seq<Byte>) returns (next: string)
    requires Ready(cfg, types, fns, rt, cores, xsks) && name in fns && out < types[name].Len()
    requires Redirects(rt, fns[name], out, env, meta)
    ensures AfterDirect(cfg, name, out) == At(next) && next in fns && Resume(rt, meta) == User(fns[next])
  {
    var l, i, slots :| Entry(cfg, fns, rt, cores, xsks, name, l, i, slots) && |l.to| == types[name].Len();
    var st := rt.st.linkStates[fns[name]];
    assert st.Body? && TablesFor(rt.st.objects[fns[name]], i, cores, xsks, st.acts, slots, rt.st.progFds);
    assert rt.st.objects[fns[name]].acts[out] == st.acts[out].ToKind() == 3;
    var act := st.acts[out];
    HandoffResumes(cfg, fns, rt, cores, xsks, name, l, i, slots, out, env, act.id);
    assert Agrees(cfg, fns, act, l.to[out]);
    next := Meaning(l.to[out]).name;
  }

  /** If the configuration's reading `d` has ended, the decision is its verdict. */
  ghost predicate DecidedAs<K(!new), S(!new)>(
      rt: Runtime, nf: NfOver<K, S>, buf: Buffer<K>, world: S, d: DirectRun<(K, S)>) {
    d.place.End? ==>
      && Decidable(rt, nf, buf, world)
      && Decide(rt, nf, buf, world) == Decision(d.place.v.Transmit?, Buffer(buf.headroom, d.p.0), d.p.1)
  }

  lemma DecisionIs<K(!new), S(!new)>(
      cfg: Config, types: Types, fns: FnMap, rt: Runtime, cores: nat, xsks: seq<Fd>,
      nf: NfOver<K, S>, next: string, buf: Buffer<K>, world: S, n: nat)
    requires Ready(cfg, types, fns, rt, cores, xsks) && Behaved(types, fns, nf)
    requires next in fns && Resume(rt, buf.headroom) == User(fns[next])
    ensures DecidedAs(rt, nf, buf, world, Direct(cfg, fns, nf, next, (buf.body, world), n))
  {
    var p := (buf.body, world);
    if Direct(cfg, fns, nf, next, p, n).place.End? {
      UserlandFollows(cfg, types, fns, rt, cores, xsks, nf, next, p, n);
      OutcomeIs(rt, nf, User(fns[next]), p, n);
    }
  }

  /** A dataplane thread can decide a redirected packet exactly when the configuration's reading
      from the upcall's target ends, and then sends it exactly for `tx`, with the contents and
      the NF state which that reading ends with, whatever that state was on arrival. */
  lemma DecidesAsConfigured<K(!new), S(!new)>(
      cfg: Config, types: Types, fns: FnMap, chain: Protocol.Chain, rt: Runtime, cores: nat, xsks: seq<Fd>,
      nf: NfOver<K, S>, name: string, out: nat, env: Env, buf: Buffer<K>, world: S)
    requires Deployed(cfg, types, fns, chain, rt, cores, xsks) && Behaved(types, fns, nf)
    requires name in fns && name in types && out < types[name].Len() && Redirects(rt, fns[name], out, env, buf.headroom)
    ensures AfterDirect(cfg, name, out).At?
    ensures Decidable(rt, nf, buf, world) <==> Ends(cfg, fns, nf, AfterDirect(cfg, name, out).name, (buf.body, world))
    ensures forall n: nat ::
      DecidedAs(rt, nf, buf, world, Direct(cfg, fns, nf, AfterDirect(cfg, name, out).name, (buf.body, world), n))
  {
    DeployedIsReady(cfg, types, fns, chain, rt, cores, xsks);
    var next := RedirectLeadsOn(cfg, types, fns, rt, cores, xsks, name, out, env, buf.headroom);
    var p := (buf.body, world);
    HaltsIffEnds(cfg, types, fns, rt, cores, xsks, nf, next, p);
    forall n: nat
      ensures DecidedAs(rt, nf, buf, world, Direct(cfg, fns, nf, next, p, n))
    {
      DecisionIs(cfg, types, fns, rt, cores, xsks, nf, next, buf, world, n);
    }
  }

  // ---- Passes never get stuck ----------------------------------------------------

  /** Userland can decide a packet with this metadata whatever it holds and whatever the NFs keep. */
  ghost predicate Followable<K(!new), S(!new)>(rt: Runtime, nf: NfOver<K, S>, headroom: seq<Byte>) {
    forall body: K, world: S :: Decidable(rt, nf, Buffer(headroom, body), world)
  }

  lemma {:induction false} SmoothIfFollowable<K(!new), S(!new)>(
      rt: Runtime, nf: NfOver<K, S>, q: seq<Frame>, mem: Memory<K>, world: S)
    requires forall f <- q :: f in mem && Followable(rt, nf, mem[f].headroom)
    ensures Smooth(rt, nf, q, mem, world)
    decreases |q|
  {
    if q != [] {
      var buf := mem[q[0]];
      assert Decidable(rt, nf, Buffer(buf.headroom, buf.body), world);
      var d := Decide(rt, nf, buf, world);
      var rest, mem' := Remaining(q, d.sent), mem[q[0] := d.buf];
      forall f | f in rest
        ensures f in mem' && Followable(rt, nf, mem'[f].headroom)
      {
        RemainingElements(q, d.sent, f);
      }
      SmoothIfFollowable(rt, nf, rest, mem', d.world);
    }
  }

  /** The last function on a path `ns` from the root redirects a packet with this metadata. */
  ghost predicate HandedOver(cfg: Config, types: Types, fns: FnMap, rt: Runtime, root: string,
                             headroom: seq<Byte>, ns: seq<string>, out: nat, env: Env) {
    && Path(cfg, fns, ns) && ns != [] && ns[0] == root
    && var name := ns[|ns| - 1];
       name in types && out < types[name].Len() && Redirects(rt, fns[name], out, env, headroom)
  }

  /** Metadata as a received frame can hold it: malformed, or written by the kernel program of
      a function that packets can reach. */
  ghost predicate Arrives(cfg: Config, types: Types, fns: FnMap, rt: Runtime, root: string, headroom: seq<Byte>) {
    || |headroom| != META_LEN
    || exists ns, out: nat, env :: HandedOver(cfg, types, fns, rt, root, headroom, ns, out, env)
  }

  lemma WalkHandsOver<P(!new)>(
      cfg: Config, types: Types, fns: FnMap, rt: Runtime, root: string, n: nat, d: DirectRun<P>,
      out: nat, env: Env, meta: seq<Byte>) returns (ns: seq<string>)
    requires Walk(cfg, fns, root, n, d) && d.place.At? && d.place.name in fns && d.place.name in types
    requires out < types[d.place.name].Len() && Redirects(rt, fns[d.place.name], out, env, meta)
    ensures HandedOver(cfg, types, fns, rt, root, meta, ns, out, env) && ns[|ns| - 1] == d.place.name
  {
    ns := Visited(d);
  }

  /** Where a packet in the kernel stands. */
  lemma KernelStandsAt<P(!new)>(fns: FnMap, rt: Runtime, d: DirectRun<P>, s: Run<P>)
    requires SameRun(fns, rt, d, s) && s.pos.Kern?
    ensures d.place.At? && d.place.name in fns && s.pos.id == fns[d.place.name] && s.p == d.p
  {
  }

  lemma InKernelIsSame<P(!new)>(
      cfg: Config, types: Types, fns: FnMap, chain: Protocol.Chain, rt: Runtime, cores: nat, xsks: seq<Fd>,
      nf: (Uuid, P) -> (P, nat), env: Env, root: string, p: P, n: nat, s: Run<P>, d: DirectRun<P>)
    requires Deployed(cfg, types, fns, chain, rt, cores, xsks) && Behaved(types, fns, nf) && FedByRx(cfg.links, root)
    requires s == SplitRun(rt, nf, env, p, n) && s.pos.Kern? && d == Direct(cfg, fns, nf, root, p, n)
    ensures SameRun(fns, rt, d, s) && Walk(cfg, fns, root, n, d)
  {
    SplitFollowsConfig(cfg, types, fns, chain, rt, cores, xsks, nf, env, root, p, n);
    RootIsAttached(cfg, types, fns, chain, rt, cores, xsks, root);
    RunIsWalk(cfg, types, fns, nf, root, p, n);
  }

  /** Whatever packet the kernel redirects on its way from the root, its metadata arrives as
      userland takes it for granted. */
  lemma RedirectsArrive<P(!new)>(
      cfg: Config, types: Types, fns: FnMap, chain: Protocol.Chain, rt: Runtime, cores: nat, xsks: seq<Fd>,
      nf: (Uuid, P) -> (P, nat), env: Env, root: string, p: P, n: nat, s: Run<P>, out: nat, meta: seq<Byte>)
    returns (ns: seq<string>)
    requires Deployed(cfg, types, fns, chain, rt, cores, xsks) && Behaved(types, fns, nf) && FedByRx(cfg.links, root)
    requires s == SplitRun(rt, nf, env, p, n) && s.pos.Kern? && out == nf(s.pos.id, s.p).1
    requires Redirects(rt, s.pos.id, out, env, meta)
    ensures HandedOver(cfg, types, fns, rt, root, meta, ns, out, env) && Arrives(cfg, types, fns, rt, root, meta)
    ensures ns[|ns| - 1] in fns && s.pos.id == fns[ns[|ns| - 1]]
  {
    var d := Direct(cfg, fns, nf, root, p, n);
    InKernelIsSame(cfg, types, fns, chain, rt, cores, xsks, nf, env, root, p, n, s, d);
    KernelStandsAt(fns, rt, d, s);
    ns := WalkHandsOver(cfg, types, fns, rt, root, n, d, out, env, meta);
  }

  lemma ArrivalsAreFollowable<K(!new), S(!new)>(
      cfg: Config, types: Types, fns: FnMap, chain: Protocol.Chain, rt: Runtime, cores: nat, xsks: seq<Fd>,
      nf: NfOver<K, S>, root: string, headroom: seq<Byte>)
    requires Deployed(cfg, types, fns, chain, rt, cores, xsks) && Behaved(types, fns, nf)
    requires Acyclic(cfg, fns, root) && Arrives(cfg, types, fns, rt, root, headroom)
    ensures Followable(rt, nf, headroom)
  {
    if |headroom| == META_LEN {
      var ns, out: nat, env :| HandedOver(cfg, types, fns, rt, root, headroom, ns, out, env);
      var name := ns[|ns| - 1];
      DeployedIsReady(cfg, types, fns, chain, rt, cores, xsks);
      var next := RedirectLeadsOn(cfg, types, fns, rt, cores, xsks, name, out, env, headroom);
      assert Branch(cfg, fns, name, out, next);
      AcyclicOnward(cfg, fns, root, ns, next);
      forall body: K, world: S
        ensures Decidable(rt, nf, Buffer(headroom, body), world)
      {
        AcyclicRunsEnd(cfg, types, fns, nf, next, (body, world), |fns.Keys|);
        HaltsIffEnds(cfg, types, fns, rt, cores, xsks, nf, next, (body, world));
      }
    }
  }

  /** A path leads from an acyclic chain's root to functions from which it is acyclic, too. */
  lemma AcyclicOnward(cfg: Config, fns: FnMap, root: string, ns: seq<string>, next: string)
    requires Acyclic(cfg, fns, root) && Path(cfg, fns, ns) && ns != [] && ns[0] == root
    requires Edge(cfg, fns, ns[|ns| - 1], next)
    ensures Acyclic(cfg, fns, next)
  {
    forall ms, i: nat, j: nat
      ensures !Revisits(cfg, fns, next, ms, i, j)
    {
      if Revisits(cfg, fns, next, ms, i, j) {
        PathsJoin(cfg, fns, ns, ms);
        assert Revisits(cfg, fns, root, ns + ms, |ns| + i, |ns| + j);
      }
    }
  }

  lemma PathsJoin(cfg: Config, fns: FnMap, ns: seq<string>, ms: seq<string>)
    requires Path(cfg, fns, ns) && Path(cfg, fns, ms) && ns != [] && ms != [] && Edge(cfg, fns, ns[|ns| - 1], ms[0])
    ensures Path(cfg, fns, ns + ms)
  {
    var all := ns + ms;
    forall i | 0 <= i < |all| - 1
      ensures Edge(cfg, fns, all[i], all[i + 1])
    {
      if i < |ns| - 1 {
        assert Edge(cfg, fns, ns[i], ns[i + 1]);
      } else if i >= |ns| {
        assert Edge(cfg, fns, ms[i - |ns|], ms[i - |ns| + 1]);
      }
    }
  }

  /** On an acyclic deployed chain no pass over arriving packets fails or runs on for ever,
      whatever the packets hold and whatever the network functions do. */
  lemma PassesComplete<K(!new), S(!new)>(
      cfg: Config, types: Types, fns: FnMap, chain: Protocol.Chain, rt: Runtime, cores: nat, xsks: seq<Fd>,
      nf: NfOver<K, S>, root: string, q: seq<Frame>, mem: Memory<K>, world: S)
    requires Deployed(cfg, types, fns, chain, rt, cores, xsks) && Behaved(types, fns, nf)
    requires Acyclic(cfg, fns, root)
    requires forall f <- q :: f in mem && Arrives(cfg, types, fns, rt, root, mem[f].headroom)
    ensures Smooth(rt, nf, q, mem, world)
  {
    forall f | f in q
      ensures Followable(rt, nf, mem[f].headroom)
    {
      ArrivalsAreFollowable(cfg, types, fns, chain, rt, cores, xsks, nf, root, mem[f].headroom);
    }
    SmoothIfFollowable(rt, nf, q, mem, world);
  }

  // ---- What a pass decides ---------------------------------------------------------

  /** The configuration's reading of a packet of type K from the branch `out` of `name` on. */
  function Onward<P>(cfg: Config, fns: FnMap, nf: (Uuid, P) -> (P, nat), name: string, out: nat, p: P): DirectRun<P>
    requires AfterDirect(cfg, name, out).At?
  {
    Direct(cfg, fns, nf, AfterDirect(cfg, name, out).name, p, |fns.Keys|)
  }

  /** One redirected packet of an acyclic deployed chain, whatever the NF state is when its turn comes. */
  lemma OnePacketAsConfigured<K(!new), S(!new)>(
      cfg: Config, types: Types, fns: FnMap, chain: Protocol.Chain, rt: Runtime, cores: nat, xsks: seq<Fd>,
      nf: NfOver<K, S>, root: string, buf: Buffer<K>, world: S, ns: seq<string>, out: nat, env: Env)
    requires Deployed(cfg, types, fns, chain, rt, cores, xsks) && Behaved(types, fns, nf)
    requires Acyclic(cfg, fns, root) && HandedOver(cfg, types, fns, rt, root, buf.headroom, ns, out, env)
    ensures AfterDirect(cfg, ns[|ns| - 1], out).At?
    ensures var d := Onward(cfg, fns, nf, ns[|ns| - 1], out, (buf.body, world));
      d.place.End? && DecidedAs(rt, nf, buf, world, d)
  {
    var name := ns[|ns| - 1];
    DeployedIsReady(cfg, types, fns, chain, rt, cores, xsks);
    var next := RedirectLeadsOn(cfg, types, fns, rt, cores, xsks, name, out, env, buf.headroom);
    assert Branch(cfg, fns, name, out, next);
    AcyclicOnward(cfg, fns, root, ns, next);
    AcyclicRunsEnd(cfg, types, fns, nf, next, (buf.body, world), |fns.Keys|);
    DecisionIs(cfg, types, fns, rt, cores, xsks, nf, next, buf, world, |fns.Keys|);
  }

  /** The outcome of a pass for frame `f`, whose packet the configuration's reading `d` ends with. */
  ghost predicate SettledAs<K(!new), S(!new)>(r: Processed<K, S>, f: Frame, buf: Buffer<K>, d: DirectRun<(K, S)>) {
    && d.place.End?
    && (f in r.kept <==> d.place == End(Verdict.Transmit)) && (f in r.dropped <==> d.place != End(Verdict.Transmit))
    && f in r.mem && r.mem[f] == Buffer(buf.headroom, d.p.0)
  }

  /** From the kernel's redirect to the partition of the scratch array: on an acyclic deployed
      chain a pass over arriving packets sends a frame exactly when the configuration, read from
      the branch at which the kernel handed it over, ends in `tx`; it recycles the frame for
      every other verdict, and the frame holds what that reading made of the packet. */
  lemma SettledAsConfigured<K(!new), S(!new)>(
      cfg: Config, types: Types, fns: FnMap, chain: Protocol.Chain, rt: Runtime, cores: nat, xsks: seq<Fd>,
      nf: NfOver<K, S>, root: string, q: seq<Frame>, mem: Memory<K>, world: S,
      f: Frame, ns: seq<string>, out: nat, env: Env)
    requires Deployed(cfg, types, fns, chain, rt, cores, xsks) && Behaved(types, fns, nf) && Acyclic(cfg, fns, root)
    requires forall g <- q :: g in mem && Arrives(cfg, types, fns, rt, root, mem[g].headroom)
    requires Distinct(q) && f in q && HandedOver(cfg, types, fns, rt, root, mem[f].headroom, ns, out, env)
    ensures Smooth(rt, nf, q, mem, world) && AfterDirect(cfg, ns[|ns| - 1], out).At?
    ensures SettledAs(Process(rt, nf, q, mem, world), f, mem[f],
                      Onward(cfg, fns, nf, ns[|ns| - 1], out, (mem[f].body, WorldAt(rt, nf, q, mem, world, f))))
  {
    PassesComplete(cfg, types, fns, chain, rt, cores, xsks, nf, root, q, mem, world);
    var now := WorldAt(rt, nf, q, mem, world, f);
    OnePacketAsConfigured(cfg, types, fns, chain, rt, cores, xsks, nf, root, mem[f], now, ns, out, env);
    DecidedOnItsTurn(rt, nf, q, mem, world, f);
  }

  /** A frame without the kernel's metadata is recycled as it came. */
  lemma MalformedIsRecycled<K(!new), S(!new)>(
      rt: Runtime, nf: NfOver<K, S>, q: seq<Frame>, mem: Memory<K>, world: S, f: Frame)
    requires Smooth(rt, nf, q, mem, world) && Distinct(q) && f in q && f in mem && |mem[f].headroom| != META_LEN
    ensures var r := Process(rt, nf, q, mem, world);
      f in r.dropped && f !in r.kept && f in r.mem && r.mem[f] == mem[f]
  {
    DecidedOnItsTurn(rt, nf, q, mem, world, f);
  }
}
