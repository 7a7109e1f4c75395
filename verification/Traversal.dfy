/** How long a packet can travel through a chain. */
module Traversal {
  import opened Basics
  import opened Protocol
  import opened Chainsmith
  import opened Compile
  import opened Install
  import opened Execution
  import opened Refinement

  /** Output `k` of `a` leads to `b`. */
  predicate Branch(cfg: Config, fns: FnMap, a: string, k: nat, b: string) {
    && a in fns && b in fns
    && match LastLink(cfg.links, a)
       case None => false
       case Some(l) => k < |l.to| && Meaning(l.to[k]) == At(b)
  }

  ghost predicate Edge(cfg: Config, fns: FnMap, a: string, b: string) {
    exists k: nat :: Branch(cfg, fns, a, k, b)
  }

  ghost predicate Path(cfg: Config, fns: FnMap, ns: seq<string>) {
    && (forall i :: 0 <= i < |ns| ==> ns[i] in fns)
    && forall i :: 0 <= i < |ns| - 1 ==> Edge(cfg, fns, ns[i], ns[i + 1])
  }

  /** A walk from the root that comes back to a function it has already run. */
  ghost predicate Revisits(cfg: Config, fns: FnMap, root: string, ns: seq<string>, i: nat, j: nat) {
    i < j < |ns| && ns[0] == root && Path(cfg, fns, ns) && ns[i] == ns[j]
  }

  ghost predicate Acyclic(cfg: Config, fns: FnMap, root: string) {
    forall ns, i: nat, j: nat :: !Revisits(cfg, fns, root, ns, i, j)
  }

  /** The functions a run has executed, and the one it stands at. */
  function Visited<P>(d: DirectRun<P>): seq<string> {
    seq(|d.trace|, k requires 0 <= k < |d.trace| => d.trace[k].0)
    + (if d.place.At? then [d.place.name] else [])
  }

  ghost predicate Walk<P(!new)>(cfg: Config, fns: FnMap, root: string, n: nat, d: DirectRun<P>) {
    && !d.place.NoBranch? && |d.trace| <= n && (d.place.At? ==> |d.trace| == n)
    && Visited(d) != [] && Visited(d)[0] == root && Path(cfg, fns, Visited(d))
  }

  /** Every output of a function leads somewhere. */
  lemma OutputLeads(cfg: Config, types: Types, fns: FnMap, name: string, out: nat)
    requires GoodConfig(cfg, types, fns) && name in fns && out < types[name].Len()
    ensures var p := AfterDirect(cfg, name, out);
      !p.NoBranch? && (p.At? ==> p.name in fns && Edge(cfg, fns, name, p.name))
  {
    var l := LinkOf(cfg, types, fns, name);
    TargetExists(cfg, types, fns, name, l, out);
    var p := AfterDirect(cfg, name, out);
    if p.At? { assert Branch(cfg, fns, name, out, p.name); }
  }

  lemma PathOn(cfg: Config, fns: FnMap, ns: seq<string>, next: string)
    requires Path(cfg, fns, ns) && ns != [] && next in fns && Edge(cfg, fns, ns[|ns| - 1], next)
    ensures Path(cfg, fns, ns + [next])
  {
    var all := ns + [next];
    forall i | 0 <= i < |all| - 1
      ensures Edge(cfg, fns, all[i], all[i + 1])
    {
      if i < |ns| - 1 { assert Edge(cfg, fns, ns[i], ns[i + 1]); }
    }
  }

  lemma StepExtendsWalk<P(!new)>(
      cfg: Config, types: Types, fns: FnMap, nf: (Uuid, P) -> (P, nat), root: string, n: nat, d: DirectRun<P>)
    requires GoodConfig(cfg, types, fns) && Behaved(types, fns, nf) && Walk(cfg, fns, root, n, d)
    ensures Walk(cfg, fns, root, n + 1, DirectStep(cfg, fns, nf, d))
  {
    if d.place.At? {
      var d', name := DirectStep(cfg, fns, nf, d), d.place.name;
      assert Visited(d)[|d.trace|] == name;
      OutputLeads(cfg, types, fns, name, nf(fns[name], d.p).1);
      if d'.place.At? {
        assert Visited(d') == Visited(d) + [d'.place.name];
        PathOn(cfg, fns, Visited(d), d'.place.name);
      } else {
        assert Visited(d') == Visited(d);
      }
    }
  }

  lemma TargetExists(cfg: Config, types: Types, fns: FnMap, name: string, l: Link, out: nat)
    requires GoodConfig(cfg, types, fns) && name in fns && LastLink(cfg.links, name) == Some(l) && out < |l.to|
    ensures match Meaning(l.to[out]) case At(next) => next in fns case NoBranch => false case End(_) => true
  {
    var l' := LinkOf(cfg, types, fns, name);
    ActionAgrees(cfg, types, fns, name, l, out);
  }

  lemma {:induction false} RunIsWalk<P(!new)>(cfg: Config, types: Types, fns: FnMap, nf: (Uuid, P) -> (P, nat),
                                              root: string, p: P, n: nat)
    requires GoodConfig(cfg, types, fns) && Behaved(types, fns, nf) && root in fns
    ensures Walk(cfg, fns, root, n, Direct(cfg, fns, nf, root, p, n))
  {
    if n > 0 {
      RunIsWalk(cfg, types, fns, nf, root, p, n - 1);
      StepExtendsWalk(cfg, types, fns, nf, root, n - 1, Direct(cfg, fns, nf, root, p, n - 1));
    }
  }

  /** Execution `k` of a run: on the packet `ps[k]`, at the root or where the one before it led. */
  ghost predicate ExecutesAt<P(!new)>(cfg: Config, fns: FnMap, nf: (Uuid, P) -> (P, nat), root: string,
                                      trace: seq<(string, nat)>, ps: seq<P>, k: nat) {
    && k < |trace| && k + 1 < |ps| && trace[k].0 in fns
    && (if k == 0 then trace[k].0 == root else AfterDirect(cfg, trace[k - 1].0, trace[k - 1].1) == At(trace[k].0))
    && nf(fns[trace[k].0], ps[k]) == (ps[k + 1], trace[k].1)
  }

  /** A run is a chain of executions, each on the packet that the one before made of it, and it
      stands where the last of them leads. */
  ghost predicate Executes<P(!new)>(cfg: Config, fns: FnMap, nf: (Uuid, P) -> (P, nat), root: string, p: P,
                                    d: DirectRun<P>, ps: seq<P>) {
    var n := |d.trace|;
    && |ps| == n + 1 && ps[0] == p && ps[n] == d.p
    && (forall k: nat :: k < n ==> ExecutesAt(cfg, fns, nf, root, d.trace, ps, k))
    && d.place == if n == 0 then At(root) else AfterDirect(cfg, d.trace[n - 1].0, d.trace[n - 1].1)
  }

  lemma ExecutesOn<P(!new)>(cfg: Config, fns: FnMap, nf: (Uuid, P) -> (P, nat), root: string, p: P,
                            d: DirectRun<P>, ps: seq<P>, next: P, out: nat, d': DirectRun<P>)
    requires Executes(cfg, fns, nf, root, p, d, ps) && d.place.At? && d.place.name in fns
    requires (next, out) == nf(fns[d.place.name], d.p)
    requires d' == DirectRun(AfterDirect(cfg, d.place.name, out), next, d.trace + [(d.place.name, out)])
    ensures Executes(cfg, fns, nf, root, p, d', ps + [next])
  {
    forall k: nat | k < |d'.trace|
      ensures ExecutesAt(cfg, fns, nf, root, d'.trace, ps + [next], k)
    {
      if k < |d.trace| { assert ExecutesAt(cfg, fns, nf, root, d.trace, ps, k); }
    }
  }

  /** The direct reading of a good configuration is that chain of executions, of `n` unless it ends. */
  lemma {:induction false} RunExecutes<P(!new)>(
      cfg: Config, types: Types, fns: FnMap, nf: (Uuid, P) -> (P, nat), root: string, p: P, n: nat)
    returns (ps: seq<P>)
    requires GoodConfig(cfg, types, fns) && Behaved(types, fns, nf) && root in fns
    ensures var d := Direct(cfg, fns, nf, root, p, n);
      Executes(cfg, fns, nf, root, p, d, ps) && |d.trace| <= n && (|d.trace| < n ==> d.place.End?)
  {
    if n == 0 {
      ps := [p];
    } else {
      var k := n - 1;
      ps := RunExecutes(cfg, types, fns, nf, root, p, k);
      RunIsWalk(cfg, types, fns, nf, root, p, k);
      var d := Direct(cfg, fns, nf, root, p, k);
      if d.place.At? {
        assert Visited(d)[|d.trace|] == d.place.name;
        var (next, out) := nf(fns[d.place.name], d.p);
        ExecutesOn(cfg, fns, nf, root, p, d, ps, next, out, DirectStep(cfg, fns, nf, d));
        ps := ps + [next];
      }
    }
  }

  /** Without a reachable cycle, each function runs at most once and the run ends within as
      many executions as there are functions, whatever the functions answer. */
  lemma AcyclicRunsEnd<P(!new)>(cfg: Config, types: Types, fns: FnMap, nf: (Uuid, P) -> (P, nat), root: string, p: P,
                                n: nat)
    requires GoodConfig(cfg, types, fns) && Behaved(types, fns, nf) && root in fns && Acyclic(cfg, fns, root)
    ensures var d := Direct(cfg, fns, nf, root, p, n);
      Distinct(Visited(d)) && |Visited(d)| <= |fns.Keys| && (n >= |fns.Keys| ==> d.place.End?)
  {
    RunIsWalk(cfg, types, fns, nf, root, p, n);
    var ns := Visited(Direct(cfg, fns, nf, root, p, n));
    forall i, j | 0 <= i < j < |ns|
      ensures ns[i] != ns[j]
    {
      assert !Revisits(cfg, fns, root, ns, i, j);
    }
    Pigeonhole(ns, fns.Keys);
  }

  // ---- Cyclic chains ------------------------------------------------------------

  /** Index into `ns` after `k` steps of the walk that circles between positions `i` and `j`. */
  function Index(i: nat, j: nat, k: nat): nat {
    if k == 0 then 0
    else
      var before := Index(i, j, k - 1);
      if before + 1 == j then i else before + 1
  }

  function Station(ns: seq<string>, i: nat, j: nat, k: nat): string {
    var at := Index(i, j, k);
    if at < |ns| then ns[at] else ""
  }

  lemma {:induction false} IndexBelow(i: nat, j: nat, k: nat)
    requires i < j
    ensures Index(i, j, k) < j
  {
    if k > 0 { IndexBelow(i, j, k - 1); }
  }

  lemma NextStation(cfg: Config, fns: FnMap, root: string, ns: seq<string>, i: nat, j: nat, k: nat, next: nat)
    requires Revisits(cfg, fns, root, ns, i, j) && next == k + 1
    ensures Edge(cfg, fns, Station(ns, i, j, k), Station(ns, i, j, next))
  {
    IndexBelow(i, j, k);
    var at := Index(i, j, k);
    assert Edge(cfg, fns, ns[at], ns[at + 1]);
  }

  ghost function BranchTo(cfg: Config, fns: FnMap, a: string, b: string): nat {
    if Edge(cfg, fns, a, b) then
      var k: nat :| Branch(cfg, fns, a, k, b);
      k
    else 0
  }

  ghost function Turn(cfg: Config, fns: FnMap, ns: seq<string>, i: nat, j: nat, id: Uuid, k: nat): (nat, nat) {
    var here := Station(ns, i, j, k);
    (k + 1, if here in fns && fns[here] == id then BranchTo(cfg, fns, here, Station(ns, i, j, k + 1)) else 0)
  }

  /** The behaviour that, counting its calls, always takes the branch to the next station. */
  ghost function Circling(cfg: Config, fns: FnMap, ns: seq<string>, i: nat, j: nat): (Uuid, nat) -> (nat, nat) {
    (id: Uuid, k: nat) => Turn(cfg, fns, ns, i, j, id, k)
  }

  /** If a cycle can be reached, some well-behaved functions make a packet travel for ever. */
  lemma CyclesRunForever(cfg: Config, types: Types, fns: FnMap, root: string, ns: seq<string>, i: nat, j: nat, n: nat)
    requires GoodConfig(cfg, types, fns) && Revisits(cfg, fns, root, ns, i, j)
    requires forall f <- types :: types[f].Len() > 0
    ensures Behaved(types, fns, Circling(cfg, fns, ns, i, j))
    ensures Direct(cfg, fns, Circling(cfg, fns, ns, i, j), root, 0, n).place.At?
  {
    var nf := Circling(cfg, fns, ns, i, j);
    forall f, k: nat | f in types && f in fns
      ensures nf(fns[f], k).1 < types[f].Len()
    {
      CirclingBehaves(cfg, types, fns, root, ns, i, j, f, k);
    }
    CirclesOn(cfg, fns, root, ns, i, j, n);
  }

  lemma {:induction false} CirclesOn(cfg: Config, fns: FnMap, root: string, ns: seq<string>, i: nat, j: nat, n: nat)
    requires Revisits(cfg, fns, root, ns, i, j)
    ensures var d := Direct(cfg, fns, Circling(cfg, fns, ns, i, j), root, 0, n);
      d.place == At(Station(ns, i, j, n)) && d.p == n
  {
    if n > 0 {
      CirclesOn(cfg, fns, root, ns, i, j, n - 1);
      NextStation(cfg, fns, root, ns, i, j, n - 1, n);
      var here, there := Station(ns, i, j, n - 1), Station(ns, i, j, n);
      OneTurn(cfg, fns, ns, i, j, n - 1, n, here, there,
              Direct(cfg, fns, Circling(cfg, fns, ns, i, j), root, 0, n - 1));
    }
  }

  /** One execution under the circling behaviour leads to the next station. */
  lemma OneTurn(cfg: Config, fns: FnMap, ns: seq<string>, i: nat, j: nat, k: nat, next: nat, here: string,
                there: string, d: DirectRun<nat>)
    requires next == k + 1 && here == Station(ns, i, j, k) && there == Station(ns, i, j, next)
    requires Edge(cfg, fns, here, there)
    requires d.place == At(here) && d.p == k
    ensures var d' := DirectStep(cfg, fns, Circling(cfg, fns, ns, i, j), d); d'.place == At(there) && d'.p == next
  {
    assert Branch(cfg, fns, here, BranchTo(cfg, fns, here, there), there);
  }

  lemma CirclingBehaves(cfg: Config, types: Types, fns: FnMap, root: string, ns: seq<string>, i: nat, j: nat,
                        f: string, k: nat)
    requires GoodConfig(cfg, types, fns) && Revisits(cfg, fns, root, ns, i, j)
    requires f in types && f in fns && types[f].Len() > 0
    ensures Circling(cfg, fns, ns, i, j)(fns[f], k).1 < types[f].Len()
  {
    NextStation(cfg, fns, root, ns, i, j, k, k + 1);
    var here, there := Station(ns, i, j, k), Station(ns, i, j, k + 1);
    if here in fns && fns[here] == fns[f] {
      assert here == f;
      BranchExists(cfg, types, fns, here, there);
    }
  }

  lemma BranchExists(cfg: Config, types: Types, fns: FnMap, a: string, b: string)
    requires GoodConfig(cfg, types, fns) && Edge(cfg, fns, a, b)
    ensures a in types && BranchTo(cfg, fns, a, b) < types[a].Len()
  {
    var l := LinkOf(cfg, types, fns, a);
    assert Branch(cfg, fns, a, BranchTo(cfg, fns, a, b), b);
  }

  /** Every packet is decided within as many executions as there are functions, whatever the
      functions answer, if and only if no cycle can be reached. */
  lemma BoundedIffAcyclic(cfg: Config, types: Types, fns: FnMap, root: string)
    requires GoodConfig(cfg, types, fns) && root in fns && forall f <- types :: types[f].Len() > 0
    ensures Acyclic(cfg, fns, root) <==>
      forall nf: (Uuid, nat) -> (nat, nat), p: nat ::
        Behaved(types, fns, nf) ==> Direct(cfg, fns, nf, root, p, |fns.Keys|).place.End?
  {
    if Acyclic(cfg, fns, root) {
      forall nf: (Uuid, nat) -> (nat, nat), p: nat | Behaved(types, fns, nf)
        ensures Direct(cfg, fns, nf, root, p, |fns.Keys|).place.End?
      {
        AcyclicRunsEnd(cfg, types, fns, nf, root, p, |fns.Keys|);
      }
    } else {
      var ns, i: nat, j: nat :| Revisits(cfg, fns, root, ns, i, j);
      CyclesRunForever(cfg, types, fns, root, ns, i, j, |fns.Keys|);
    }
  }

  // ---- Deployed chains ----------------------------------------------------------

  /** A split run no longer than the chain has functions: it runs none of them twice, and after
      as many steps it has ended. */
  ghost predicate DecidedInTime<P(!new)>(fns: FnMap, s: Run<P>, n: nat) {
    && |s.trace| <= |fns.Keys| && (n >= |fns.Keys| ==> Finished(s.pos))
    && forall i, j :: 0 <= i < j < |s.trace| ==> s.trace[i].0 != s.trace[j].0
  }

  /** Counting kernel and userland together, a packet of an acyclic deployed chain is decided
      within as many NF executions as there are functions, running none of them twice, whether
      or not its handoff is refused. */
  lemma PacketsAreDecided<P(!new)>(
      cfg: Config, types: Types, fns: FnMap, chain: Protocol.Chain, rt: Runtime, cores: nat, xsks: seq<Fd>,
      nf: (Uuid, P) -> (P, nat), env: Env, root: string, p: P, n: nat)
    requires Deployed(cfg, types, fns, chain, rt, cores, xsks) && Behaved(types, fns, nf)
    requires FedByRx(cfg.links, root) && Acyclic(cfg, fns, root)
    ensures DecidedInTime(fns, SplitRun(rt, nf, env, p, n), n)
  {
    var s := SplitRun(rt, nf, env, p, n);
    SplitFollowsConfig(cfg, types, fns, chain, rt, cores, xsks, nf, env, root, p, n);
    RootIsAttached(cfg, types, fns, chain, rt, cores, xsks, root);
    var m := n;
    if !SameRun(fns, rt, Direct(cfg, fns, nf, root, p, n), s) {
      m := CutAt(cfg, fns, nf, root, p, n, env, s);
    } else {
      MatchedOutcome(fns, rt, Direct(cfg, fns, nf, root, p, n).place, s.pos);
    }
    AcyclicRunsEnd(cfg, types, fns, nf, root, p, m);
    TracesOnce(fns, Direct(cfg, fns, nf, root, p, m), s.trace);
  }

  /** The number of executions after which the kernel gave the packet up. */
  lemma CutAt<P(!new)>(cfg: Config, fns: FnMap, nf: (Uuid, P) -> (P, nat), root: string, p: P, n: nat, env: Env,
                       s: Run<P>)
    returns (m: nat)
    requires CutShort(cfg, fns, nf, root, p, n, env, s)
    ensures Finished(s.pos)
    ensures var d := Direct(cfg, fns, nf, root, p, m); Known(fns, d.trace) && s.trace == Ids(fns, d.trace)
  {
    m :| 0 <= m <= n && var d := Direct(cfg, fns, nf, root, p, m);
      Known(fns, d.trace) && s.trace == Ids(fns, d.trace) && s.p == d.p;
  }

  /** All packets of a deployed chain are decided within as many executions as there are functions. */
  ghost predicate AllDecided(types: Types, fns: FnMap, rt: Runtime) {
    forall nf: (Uuid, nat) -> (nat, nat), env, p: nat ::
      Behaved(types, fns, nf) ==> Finished(SplitRun(rt, nf, env, p, |fns.Keys|).pos)
  }

  /** A reachable cycle keeps some packet of the deployed chain on its way. */
  lemma CyclesKeepRunning(
      cfg: Config, types: Types, fns: FnMap, chain: Protocol.Chain, rt: Runtime, cores: nat, xsks: seq<Fd>,
      root: string, ns: seq<string>, i: nat, j: nat, draw: nat, n: nat)
    requires Deployed(cfg, types, fns, chain, rt, cores, xsks) && FedByRx(cfg.links, root)
    requires Revisits(cfg, fns, root, ns, i, j) && forall f <- types :: types[f].Len() > 0
    ensures var nf := Circling(cfg, fns, ns, i, j);
      Behaved(types, fns, nf) && !Finished(SplitRun(rt, nf, Env(true, draw), 0, n).pos)
  {
    var nf, env := Circling(cfg, fns, ns, i, j), Env(true, draw);
    CyclesRunForever(cfg, types, fns, root, ns, i, j, n);
    TransmitsAsConfigured(cfg, types, fns, chain, rt, cores, xsks, nf, env, root, 0, n);
  }

  /** On a deployed chain every packet is decided within as many executions as there are functions,
      kernel and userland counted together and whatever the functions answer, if and only if no
      cycle can be reached. */
  lemma DecidedIffAcyclic(cfg: Config, types: Types, fns: FnMap, chain: Protocol.Chain, rt: Runtime, cores: nat,
                          xsks: seq<Fd>, root: string)
    requires Deployed(cfg, types, fns, chain, rt, cores, xsks) && FedByRx(cfg.links, root)
    requires forall f <- types :: types[f].Len() > 0
    ensures AllDecided(types, fns, rt) <==> Acyclic(cfg, fns, root)
  {
    if Acyclic(cfg, fns, root) {
      forall nf: (Uuid, nat) -> (nat, nat), env, p: nat | Behaved(types, fns, nf)
        ensures Finished(SplitRun(rt, nf, env, p, |fns.Keys|).pos)
      {
        PacketsAreDecided(cfg, types, fns, chain, rt, cores, xsks, nf, env, root, p, |fns.Keys|);
      }
    } else {
      var ns, i: nat, j: nat :| Revisits(cfg, fns, root, ns, i, j);
      CyclesKeepRunning(cfg, types, fns, chain, rt, cores, xsks, root, ns, i, j, 0, |fns.Keys|);
    }
  }

  lemma TracesOnce<P(!new)>(fns: FnMap, d: DirectRun<P>, trace: Trace)
    requires Injective(fns) && Known(fns, d.trace) && trace == Ids(fns, d.trace) && Distinct(Visited(d))
    ensures |trace| <= |Visited(d)|
    ensures forall i, j :: 0 <= i < j < |trace| ==> trace[i].0 != trace[j].0
  {
    forall i, j | 0 <= i < j < |trace|
      ensures trace[i].0 != trace[j].0
    {
      assert Visited(d)[i] == d.trace[i].0 && Visited(d)[j] == d.trace[j].0;
    }
  }
}
