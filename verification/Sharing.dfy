/**
  A pass of a dataplane thread while others use the same maps and the same packet memory.
  The network functions keep their state in maps that kernel programs and other threads hold
  too, so between two executions of a thread anybody may change it; packet memory may change
  everywhere but in the frames that the thread owns, which nobody else owns at the same time
  (`Capacity.WindowsAreExclusive`).
*/
module Sharing {
  import opened Basics
  import opened Protocol
  import opened Chainsmith
  import opened Compile
  import opened Install
  import opened Handoff
  import opened Execution
  import opened Refinement
  import opened Traversal
  import opened FrameProtocol
  import opened Dataplane
  import opened Delivery

  /** What a thread executes, and what the others do to the state: its `n`-th execution of a
      network function finds the state `feed(n)`. Statements hold for every `feed`, and so for
      every way in which others may react to what the thread has done before. */
  datatype Job<!K, !S> = Job(rt: Runtime, nf: NfOver<K, S>, feed: nat -> S)

  /** The network functions as this thread sees them: the state is whatever they find, and what
      goes from one execution to the next is the log of the states they have left. */
  function Fed<K, S>(nf: NfOver<K, S>, feed: nat -> S): NfOver<K, seq<S>> {
    (id, p: (K, seq<S>)) => FedOnce(nf, feed, id, p)
  }

  function FedOnce<K, S>(nf: NfOver<K, S>, feed: nat -> S, id: Uuid, p: (K, seq<S>)): ((K, seq<S>), nat) {
    var r := nf(id, (p.0, feed(|p.1|)));
    ((r.0.0, p.1 + [r.0.1]), r.1)
  }

  /** The last state left, if any was left after the first `n`. */
  function Latest<S>(log: seq<S>, n: nat, world: S): S { if |log| > n then log[|log| - 1] else world }

  /** From `world` on, executions have added to the log, and the last one's state is in the maps. */
  ghost predicate Leaves<S>(log: seq<S>, world: S, log': seq<S>, world': S) {
    log <= log' && world' == Latest(log', |log|, world)
  }

  lemma LeavesOn<S>(log: seq<S>, w: S, log1: seq<S>, w1: S, log2: seq<S>, w2: S)
    requires Leaves(log, w, log1, w1) && Leaves(log1, w1, log2, w2)
    ensures Leaves(log, w, log2, w2)
  {
    assert |log2| == |log1| ==> log2 == log1;
  }

  ghost predicate IsFed<K, S>(job: Job<K, S>, fed: NfOver<K, seq<S>>) { fed == Fed(job.nf, job.feed) }

  /** Two memories hold the same in the frames `own`. */
  ghost predicate Agree<K>(own: set<Frame>, mem: Memory<K>, mem': Memory<K>) {
    forall f <- own :: (f in mem <==> f in mem') && (f in mem ==> mem[f] == mem'[f])
  }

  // ---- The loops ------------------------------------------------------------------

  /** Anything that others may do before this thread's `n`-th execution. Callers know this
      contract only; the body shown is the case in which they write to no frame. */
  method Meanwhile<K, S>(host: Host<K, S>, feed: nat -> S, n: nat, ghost own: set<Frame>)
    modifies host
    ensures host.world == feed(n) && Agree(own, old(host.mem), host.mem)
  {
    host.world := feed(n);
  }

  /** Anything that others may do while this thread executes no network function: its own frames
      keep what it left in them. */
  method Elsewhere<K, S>(host: Host<K, S>, ghost own: set<Frame>, ghost mine: Memory<K>)
    requires Agree(own, mine, host.mem)
    modifies host
    ensures Agree(own, mine, host.mem)
  {
  }

  /** The inner loop among others. */
  method WalkAmid<K(!new), S(!new)>(job: Job<K, S>, host: Host<K, S>, start: Uuid, b0: K, log: seq<S>,
                                    ghost own: set<Frame>, ghost fed: NfOver<K, seq<S>>)
    returns (sent: bool, b: K, log': seq<S>)
    requires IsFed(job, fed) && Halts(job.rt, fed, User(start), (b0, log))
    modifies host
    ensures (UDone(sent), (b, log')) == Outcome(job.rt, fed, User(start), (b0, log))
    ensures log < log' && host.world == log'[|log'| - 1] && Agree(own, old(host.mem), host.mem)
  {
    ghost var m: nat :| After(job.rt, fed, User(start), (b0, log), m).0.UDone?;
    OutcomeIs(job.rt, fed, User(start), (b0, log), m);
    var curr := start;
    b, log' := b0, log;
    while true
      invariant After(job.rt, fed, User(curr), (b, log'), m) == Outcome(job.rt, fed, User(start), (b0, log))
      invariant After(job.rt, fed, User(curr), (b, log'), m).0.UDone?
      invariant log <= log' && Agree(own, old(host.mem), host.mem)
      decreases m
    {
      assert curr in job.rt.dylibs;
      Meanwhile(host, job.feed, |log'|, own);
      var (p, out) := job.nf(curr, (b, host.world));
      assert fed(curr, (b, log')) == ((p.0, log' + [p.1]), out);
      b, host.world, log' := p.0, p.1, log' + [p.1];
      match job.rt.st.linkStates[curr].Act(out).value {
        case Tailcall(id) => curr := id;
        case Upcall(id) => curr := id;
        case Tx => return true, b, log';
        case _ => return false, b, log';
      }
      m := m - 1;
    }
  }

  method DecideAmid<K(!new), S(!new)>(job: Job<K, S>, host: Host<K, S>, buf: Buffer<K>, log: seq<S>,
                                      ghost own: set<Frame>, ghost fed: NfOver<K, seq<S>>)
    returns (d: Decision<K, seq<S>>)
    requires IsFed(job, fed) && Decidable(job.rt, fed, buf, log)
    modifies host
    ensures d == Decide(job.rt, fed, buf, log) && Agree(own, old(host.mem), host.mem)
    ensures Leaves(log, old(host.world), d.world, host.world)
  {
    match ReadMeta(job.rt.endian, buf.headroom) {
      case None => return Decision(false, buf, log);
      case Some((progId, act)) =>
        var next := job.rt.st.linkStates[job.rt.st.instanceIds[progId]].Act(act).value.NextNf().value;
        var sent, b, log' := WalkAmid(job, host, next, buf.body, log, own, fed);
        return Decision(sent, buf.(body := b), log');
    }
  }

  ghost predicate Within(xs: seq<Frame>, own: set<Frame>) { forall f <- xs :: f in own }

  lemma SwappedWithin(a: seq<Frame>, k: nat, i: nat, j: nat, own: set<Frame>)
    requires i < k <= |a| && j < k && Within(a[..k], own)
    ensures Within(Swapped(a, i, j)[..k], own)
  {
    forall f | f in Swapped(a, i, j)[..k]
      ensures f in own
    {
      assert a[i] == a[..k][i] && a[j] == a[..k][j];
      var x :| 0 <= x < k && Swapped(a, i, j)[x] == f;
      assert a[x] == a[..k][x];
    }
  }

  /** Where the pass stands: midway, with only frames of its own among the first `k`. */
  ghost predicate MidwayAmid<K(!new), S(!new)>(
      rt: Runtime, fed: NfOver<K, seq<S>>, whole: Processed<K, seq<S>>, mine: Memory<K>, log: seq<S>,
      a: seq<Frame>, i: nat, n: nat, k: nat, own: set<Frame>) {
    MidwayAt(rt, fed, whole, mine, log, a, i, n, k) && Within(a[..k], own)
  }

  lemma TurnAmid<K(!new), S(!new)>(
      rt: Runtime, fed: NfOver<K, seq<S>>, whole: Processed<K, seq<S>>, mine: Memory<K>, log: seq<S>,
      a: seq<Frame>, i: nat, n: nat, k: nat, own: set<Frame>)
    requires i < n && MidwayAmid(rt, fed, whole, mine, log, a, i, n, k, own)
    ensures n <= k <= |a| && a[i] in own && a[i] in mine && Decidable(rt, fed, mine[a[i]], log)
  {
    TurnOf(rt, fed, whole, mine, log, a, i, n, k);
    assert a[i] == a[..k][i];
  }

  lemma NextAmid<K(!new), S(!new)>(
      rt: Runtime, fed: NfOver<K, seq<S>>, whole: Processed<K, seq<S>>, mine: Memory<K>, log: seq<S>,
      a: seq<Frame>, i: nat, n: nat, k: nat, own: set<Frame>,
      d: Decision<K, seq<S>>, a': seq<Frame>, i': nat, n': nat)
    requires i < n && MidwayAmid(rt, fed, whole, mine, log, a, i, n, k, own)
    requires a[i] in mine && Decidable(rt, fed, mine[a[i]], log) && d == Decide(rt, fed, mine[a[i]], log)
    requires a' == if d.sent then a else Swapped(a, i, n - 1)
    requires i' == (if d.sent then i + 1 else i) && n' == if d.sent then n else n - 1
    ensures MidwayAmid(rt, fed, whole, mine[a[i] := d.buf], d.world, a', i', n', k, own) && a'[k..] == a[k..]
  {
    StandsNext(rt, fed, whole, mine, log, a, i, n, k, d, a', i', n');
    SwappedWithin(a, k, i, n - 1, own);
  }

  /** Decides the packet in frame `f`. `mine` is packet memory as this thread has left it. */
  method FrameAmid<K(!new), S(!new)>(host: Host<K, S>, job: Job<K, S>, f: Frame, log: seq<S>,
                                     ghost mine: Memory<K>, ghost own: set<Frame>, ghost fed: NfOver<K, seq<S>>)
    returns (d: Decision<K, seq<S>>)
    requires IsFed(job, fed) && f in own && f in mine && Decidable(job.rt, fed, mine[f], log)
    requires Agree(own, mine, host.mem)
    modifies host
    ensures d == Decide(job.rt, fed, mine[f], log) && Agree(own, mine[f := d.buf], host.mem)
    ensures Leaves(log, old(host.world), d.world, host.world)
  {
    d := DecideAmid(job, host, host.mem[f], log, own, fed);
    host.mem := host.mem[f := d.buf];
  }

  /** Decides the first undecided packet and puts its frame where it belongs. */
  method SettleAmid<K(!new), S(!new)>(frames: array<Frame>, host: Host<K, S>, job: Job<K, S>, i: nat, n: nat, k: nat,
                                      log: seq<S>, ghost whole: Processed<K, seq<S>>, ghost mine: Memory<K>,
                                      ghost own: set<Frame>, ghost fed: NfOver<K, seq<S>>)
    returns (i': nat, n': nat, log': seq<S>, ghost mine': Memory<K>)
    requires IsFed(job, fed) && i < n && MidwayAmid(job.rt, fed, whole, mine, log, frames[..], i, n, k, own)
    requires Agree(own, mine, host.mem)
    modifies frames, host
    ensures n' - i' == n - i - 1 && frames[k..] == old(frames[k..])
    ensures MidwayAmid(job.rt, fed, whole, mine', log', frames[..], i', n', k, own) && Agree(own, mine', host.mem)
    ensures Leaves(log, old(host.world), log', host.world)
  {
    ghost var a := frames[..];
    TurnAmid(job.rt, fed, whole, mine, log, a, i, n, k, own);
    var d := FrameAmid(host, job, frames[i], log, mine, own, fed);
    mine', log' := mine[a[i] := d.buf], d.world;
    i', n' := PutAway(frames, i, n, d.sent);
    NextAmid(job.rt, fed, whole, mine, log, a, i, n, k, own, d, frames[..], i', n');
  }

  /** The partition loop among others: the frames are split as the specified pass does on what
      the network functions find, and hold what that pass leaves in them. */
  method PartitionAmid<K(!new), S(!new)>(frames: array<Frame>, host: Host<K, S>, job: Job<K, S>, k: nat, log: seq<S>,
                                         ghost mine: Memory<K>, ghost own: set<Frame>, ghost fed: NfOver<K, seq<S>>)
    returns (numTx: nat, log': seq<S>)
    requires IsFed(job, fed) && k <= frames.Length && Smooth(job.rt, fed, frames[..k], mine, log)
    requires Within(frames[..k], own) && Agree(own, mine, host.mem)
    modifies frames, host
    ensures numTx <= k && frames[k..] == old(frames[k..])
    ensures
      var r := Process(job.rt, fed, old(frames[..k]), mine, log);
      && frames[..numTx] == r.kept && frames[numTx..k] == Reverse(r.dropped)
      && log' == r.world && Agree(own, r.mem, host.mem)
    ensures Leaves(log, old(host.world), log', host.world)
  {
    ghost var whole := Process(job.rt, fed, frames[..k], mine, log);
    ghost var mine' := mine;
    PassBegins(job.rt, fed, mine, log, frames[..], k);
    numTx, log' := k, log;
    var i: nat := 0;
    while i < numTx
      invariant MidwayAmid(job.rt, fed, whole, mine', log', frames[..], i, numTx, k, own)
      invariant frames[k..] == old(frames[k..]) && Agree(own, mine', host.mem)
      invariant Leaves(log, old(host.world), log', host.world)
      decreases numTx - i
    {
      ghost var was, world := log', host.world;
      i, numTx, log', mine' := SettleAmid(frames, host, job, i, numTx, k, log', whole, mine', own, fed);
      LeavesOn(log, old(host.world), was, world, log', host.world);
    }
    PassEnds(job.rt, fed, whole, mine', log', frames[..], numTx, k);
  }

  // ---- Alone with the state ----------------------------------------------------------

  /** Nobody else touches the state: after the first `n` executions the next one finds `world`,
      and every later one what the one before it has left. */
  ghost predicate Undisturbed<S>(feed: nat -> S, n: nat, world: S, log: seq<S>) {
    forall j: nat :: n <= j < |log| ==> feed(j) == if j == n then world else log[j - 1]
  }

  lemma {:induction false} WalkAlone<K(!new), S(!new)>(
      job: Job<K, S>, fed: NfOver<K, seq<S>>, pos: Pos, b: K, log: seq<S>, w: S, n: nat)
    requires IsFed(job, fed)
    ensures var (end, p) := After(job.rt, fed, pos, (b, log), n);
      && log <= p.1
      && (Undisturbed(job.feed, |log|, w, p.1) ==>
            After(job.rt, job.nf, pos, (b, w), n) == (end, (p.0, Latest(p.1, |log|, w))))
    decreases n
  {
    if n > 0 && pos.User? && pos.id in job.rt.dylibs {
      var ((b', s), out) := job.nf(pos.id, (b, job.feed(|log|)));
      var next := log + [s];
      assert fed(pos.id, (b, log)) == ((b', next), out);
      WalkAlone(job, fed, AfterUser(job.rt, pos.id, out), b', next, s, n - 1);
      var p := After(job.rt, fed, pos, (b, log), n).1;
      assert next <= p.1 && p.1[|log|] == s;
      if Undisturbed(job.feed, |log|, w, p.1) {
        assert job.feed(|log|) == w;
        assert Undisturbed(job.feed, |next|, s, p.1);
      }
    } else if n > 0 && pos.User? {
      assert After(job.rt, fed, Stuck, (b, log), n - 1) == (Stuck, (b, log));
    }
  }

  lemma DecideAlone<K(!new), S(!new)>(
      job: Job<K, S>, fed: NfOver<K, seq<S>>, buf: Buffer<K>, log: seq<S>, w: S, d: Decision<K, seq<S>>)
    requires IsFed(job, fed) && Decidable(job.rt, fed, buf, log) && d == Decide(job.rt, fed, buf, log)
    ensures log <= d.world
    ensures Undisturbed(job.feed, |log|, w, d.world) ==>
      && Decidable(job.rt, job.nf, buf, w)
      && Decide(job.rt, job.nf, buf, w) == Decision(d.sent, d.buf, Latest(d.world, |log|, w))
  {
    var pos := Resume(job.rt, buf.headroom);
    if pos.User? {
      var n: nat :| After(job.rt, fed, pos, (buf.body, log), n).0.UDone?;
      OutcomeIs(job.rt, fed, pos, (buf.body, log), n);
      WalkAlone(job, fed, pos, buf.body, log, w, n);
      if Undisturbed(job.feed, |log|, w, d.world) {
        OutcomeIs(job.rt, job.nf, pos, (buf.body, w), n);
      }
    }
  }

  lemma UndisturbedSplits<S>(feed: nat -> S, log: seq<S>, w: S, log1: seq<S>, log2: seq<S>)
    requires log <= log1 <= log2 && Undisturbed(feed, |log|, w, log2)
    ensures Undisturbed(feed, |log|, w, log1) && Undisturbed(feed, |log1|, Latest(log1, |log|, w), log2)
  {
  }

  lemma {:induction false} LogGrows<K(!new), S(!new)>(
      job: Job<K, S>, fed: NfOver<K, seq<S>>, q: seq<Frame>, mem: Memory<K>, log: seq<S>)
    requires IsFed(job, fed) && Smooth(job.rt, fed, q, mem, log)
    ensures log <= Process(job.rt, fed, q, mem, log).world
    decreases |q|
  {
    if q != [] {
      var d := Decide(job.rt, fed, mem[q[0]], log);
      LogGrows(job, fed, Remaining(q, d.sent), mem[q[0] := d.buf], d.world);
      DecideAlone(job, fed, mem[q[0]], log, job.feed(0), d);
    }
  }

  /** If nobody else touches the state, a pass among others is the pass alone: the same frames
      kept and rejected in the same order, the same contents, and the same state in the end. */
  lemma {:induction false} AloneAsSpecified<K(!new), S(!new)>(
      job: Job<K, S>, fed: NfOver<K, seq<S>>, q: seq<Frame>, mem: Memory<K>, log: seq<S>, w: S)
    requires IsFed(job, fed) && Smooth(job.rt, fed, q, mem, log)
    requires Undisturbed(job.feed, |log|, w, Process(job.rt, fed, q, mem, log).world)
    ensures Smooth(job.rt, job.nf, q, mem, w)
    ensures var r := Process(job.rt, fed, q, mem, log);
      Process(job.rt, job.nf, q, mem, w) == Processed(r.kept, r.dropped, r.mem, Latest(r.world, |log|, w))
    decreases |q|
  {
    if q != [] {
      var d := Decide(job.rt, fed, mem[q[0]], log);
      var rest, mem' := Remaining(q, d.sent), mem[q[0] := d.buf];
      var r := Process(job.rt, fed, rest, mem', d.world);
      DecideAlone(job, fed, mem[q[0]], log, w, d);
      LogGrows(job, fed, rest, mem', d.world);
      UndisturbedSplits(job.feed, log, w, d.world, r.world);
      AloneAsSpecified(job, fed, rest, mem', d.world, Latest(d.world, |log|, w));
      var w' := Latest(d.world, |log|, w);
      LeavesOn(log, w, d.world, w', r.world, Latest(r.world, |d.world|, w'));
    }
  }

  // ---- What it amounts to ------------------------------------------------------------

  lemma FedBehaves<K(!new), S(!new)>(types: Types, fns: FnMap, job: Job<K, S>, fed: NfOver<K, seq<S>>)
    requires IsFed(job, fed) && Behaved(types, fns, job.nf)
    ensures Behaved(types, fns, fed)
  {
    forall name, p: (K, seq<S>) | name in types && name in fns
      ensures fed(fns[name], p).1 < types[name].Len()
    {
      assert fed(fns[name], p).1 == job.nf(fns[name], (p.0, job.feed(|p.1|))).1;
    }
  }

  /** Whatever others do to the state, no pass over arriving packets gets stuck, and each frame is
      settled by its own reading of the configuration, on the states which its executions find. */
  lemma SettledAmidOthers<K(!new), S(!new)>(
      cfg: Config, types: Types, fns: FnMap, chain: Protocol.Chain, cores: nat, xsks: seq<Fd>,
      job: Job<K, S>, fed: NfOver<K, seq<S>>, root: string, q: seq<Frame>, mem: Memory<K>, log: seq<S>,
      f: Frame, ns: seq<string>, out: nat, env: Env)
    requires Deployed(cfg, types, fns, chain, job.rt, cores, xsks) && Behaved(types, fns, job.nf)
    requires IsFed(job, fed) && Acyclic(cfg, fns, root)
    requires forall g <- q :: g in mem && Arrives(cfg, types, fns, job.rt, root, mem[g].headroom)
    requires Distinct(q) && f in q && HandedOver(cfg, types, fns, job.rt, root, mem[f].headroom, ns, out, env)
    ensures Smooth(job.rt, fed, q, mem, log) && AfterDirect(cfg, ns[|ns| - 1], out).At?
    ensures SettledAs(Process(job.rt, fed, q, mem, log), f, mem[f],
                      Onward(cfg, fns, fed, ns[|ns| - 1], out, (mem[f].body, WorldAt(job.rt, fed, q, mem, log, f))))
  {
    FedBehaves(types, fns, job, fed);
    SettledAsConfigured(cfg, types, fns, chain, job.rt, cores, xsks, fed, root, q, mem, log, f, ns, out, env);
  }

  /** What a network function answers and makes of a packet does not depend on the state. */
  ghost predicate Stateless<K(!new), S(!new)>(nf: NfOver<K, S>) {
    forall id, b, x, y :: nf(id, (b, x)).0.0 == nf(id, (b, y)).0.0 && nf(id, (b, x)).1 == nf(id, (b, y)).1
  }

  lemma {:induction false} StatelessReads<K(!new), S(!new)>(
      cfg: Config, fns: FnMap, job: Job<K, S>, fed: NfOver<K, seq<S>>, name: string, b: K, log: seq<S>, x: S, n: nat)
    requires IsFed(job, fed) && Stateless(job.nf)
    ensures var d, e := Direct(cfg, fns, fed, name, (b, log), n), Direct(cfg, fns, job.nf, name, (b, x), n);
      d.place == e.place && d.p.0 == e.p.0 && d.trace == e.trace
  {
    if n > 0 {
      StatelessReads(cfg, fns, job, fed, name, b, log, x, n - 1);
    }
  }

  /** If the network functions do not depend on their state, nobody else has a say in what a pass
      does with a packet, nor has the order of processing: it is settled by the configuration's
      reading of that packet from any state `x`. */
  lemma StatelessSettles<K(!new), S(!new)>(
      cfg: Config, types: Types, fns: FnMap, chain: Protocol.Chain, cores: nat, xsks: seq<Fd>,
      job: Job<K, S>, fed: NfOver<K, seq<S>>, root: string, q: seq<Frame>, mem: Memory<K>, log: seq<S>, x: S,
      f: Frame, ns: seq<string>, out: nat, env: Env)
    requires Deployed(cfg, types, fns, chain, job.rt, cores, xsks) && Behaved(types, fns, job.nf)
    requires IsFed(job, fed) && Stateless(job.nf) && Acyclic(cfg, fns, root)
    requires forall g <- q :: g in mem && Arrives(cfg, types, fns, job.rt, root, mem[g].headroom)
    requires Distinct(q) && f in q && HandedOver(cfg, types, fns, job.rt, root, mem[f].headroom, ns, out, env)
    ensures Smooth(job.rt, fed, q, mem, log) && AfterDirect(cfg, ns[|ns| - 1], out).At?
    ensures
      var r := Process(job.rt, fed, q, mem, log);
      var d := Onward(cfg, fns, job.nf, ns[|ns| - 1], out, (mem[f].body, x));
      && d.place.End? && (f in r.kept <==> d.place == End(Verdict.Transmit))
      && f in r.mem && r.mem[f] == Buffer(mem[f].headroom, d.p.0)
  {
    SettledAmidOthers(cfg, types, fns, chain, cores, xsks, job, fed, root, q, mem, log, f, ns, out, env);
    StatelessReads(cfg, fns, job, fed, AfterDirect(cfg, ns[|ns| - 1], out).name, mem[f].body,
                   WorldAt(job.rt, fed, q, mem, log, f), x, |fns.Keys|);
  }
}
