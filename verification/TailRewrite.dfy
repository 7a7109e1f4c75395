/**
  Ending a chain early: where a function's only branch is `tx`, its chain program may be
  replaced by the plain wrapper that always transmits, and its userland state by `Tail`.
*/
module TailRewrite {
  import opened Basics
  import opened Protocol
  import opened Install
  import opened Handoff
  import opened Execution

  predicate Shortened(a: XdpLink, b: XdpLink) {
    a.state == Body([Tx]) && b == a.(state := Tail)
  }

  /** `b` is `a` with any set of `Body([Tx])` links turned into `Tail`. */
  ghost predicate Rewritten(a: Chain, b: Chain) {
    && |a.links| == |b.links| && a.nfs == b.nfs
    && forall i :: 0 <= i < |a.links| ==> a.links[i] == b.links[i] || Shortened(a.links[i], b.links[i])
  }

  ghost predicate Serves(rt: Runtime, chain: Chain, cores: nat, xsks: seq<Fd>) {
    DistinctUuids(chain.links) && |chain.links| <= Handoff.U32 && 1 <= cores && Represents(rt.st, chain, cores, xsks)
  }

  // ---- Two runtimes side by side -------------------------------------------------

  /** The program of `id` in one runtime. */
  ghost predicate HasProgram(rt: Runtime, cores: nat, xsks: seq<Fd>, id: Uuid, i: nat, slots: nat) {
    && id in rt.st.objects && id in rt.st.linkStates && i < Handoff.U32
    && match rt.st.linkStates[id]
       case Tail => rt.st.objects[id].EndObj?
       case Body(acts) =>
         && TablesFor(rt.st.objects[id], i, cores, xsks, acts, slots, rt.st.progFds)
         && i in rt.st.instanceIds && rt.st.instanceIds[i] == id
  }

  /** Both runtimes built the program of `id` for the same program id and table size. */
  ghost predicate SamePlace(ra: Runtime, rb: Runtime, cores: nat, xsks: seq<Fd>, id: Uuid) {
    exists i, slots :: HasProgram(ra, cores, xsks, id, i, slots) && HasProgram(rb, cores, xsks, id, i, slots)
  }

  ghost predicate FdsDistinct(rt: Runtime) {
    rt.st.objects.Keys == rt.st.progFds.Keys
    && forall a, b :: a in rt.st.progFds && b in rt.st.progFds && rt.st.progFds[a] == rt.st.progFds[b] ==> a == b
  }

  /** The runtimes differ only in that the functions in `cut` are `Body([Tx])` in one and `Tail` in the other. */
  ghost predicate Twins(ra: Runtime, rb: Runtime, cores: nat, xsks: seq<Fd>, cut: set<Uuid>) {
    && ra.endian == rb.endian && ra.dylibs == rb.dylibs && ra.st.attached == rb.st.attached && 1 <= cores
    && FdsDistinct(ra) && FdsDistinct(rb) && ra.st.objects.Keys == rb.st.objects.Keys
    && ra.st.linkStates.Keys == rb.st.linkStates.Keys
    && (forall id <- ra.st.linkStates ::
          if id in cut then ra.st.linkStates[id] == Body([Tx]) && rb.st.linkStates[id] == Tail
          else ra.st.linkStates[id] == rb.st.linkStates[id])
    && (forall id <- ra.st.objects :: SamePlace(ra, rb, cores, xsks, id))
  }

  lemma UserSame(ra: Runtime, rb: Runtime, cores: nat, xsks: seq<Fd>, cut: set<Uuid>, id: Uuid, out: nat)
    requires Twins(ra, rb, cores, xsks, cut) && (id in cut ==> out == 0)
    ensures AfterUser(ra, id, out) == AfterUser(rb, id, out)
  {
  }

  lemma ReadsProgId(e: Endian, progId: nat, act: nat)
    requires progId < Handoff.U32
    ensures ReadMeta(e, WriteMeta(e, progId, act)).Some?
    ensures ReadMeta(e, WriteMeta(e, progId, act)).value.0 == progId
  {
    WordRoundTrip(e, progId);
    assert WriteMeta(e, progId, act)[..WORD] == ToBytes(e, progId);
  }

  /** Userland resumes alike from what an unchanged program writes. */
  lemma ResumeSame(ra: Runtime, rb: Runtime, cores: nat, xsks: seq<Fd>, cut: set<Uuid>, id: Uuid, i: nat, out: nat)
    requires Twins(ra, rb, cores, xsks, cut) && id !in cut && id in ra.st.linkStates && i < Handoff.U32
    requires i in ra.st.instanceIds && i in rb.st.instanceIds && ra.st.instanceIds[i] == id == rb.st.instanceIds[i]
    ensures Resume(ra, WriteMeta(ra.endian, i, out)) == Resume(rb, WriteMeta(rb.endian, i, out))
  {
    ReadsProgId(ra.endian, i, out);
  }

  lemma JumpOwner(rt: Runtime, id: Uuid, out: nat, next: Uuid, env: Env)
    requires FdsDistinct(rt) && next in rt.st.progFds
    requires id in rt.st.objects && rt.st.objects[id].ChainObj? && rt.st.objects[id].numCores > 0
    requires Dispatch(rt.endian, rt.st.objects[id], out, env) == Jump(rt.st.progFds[next])
    ensures AfterKernel(rt, id, out, env) == Kern(next)
  {
    assert Owns(rt, rt.st.progFds[next], next);
  }

  lemma UncutJumpSame(ra: Runtime, rb: Runtime, cores: nat, xsks: seq<Fd>, id: Uuid, i: nat, slots: nat, out: nat,
                      next: Uuid, env: Env)
    requires FdsDistinct(ra) && FdsDistinct(rb) && 1 <= cores
    requires HasProgram(ra, cores, xsks, id, i, slots) && HasProgram(rb, cores, xsks, id, i, slots)
    requires ra.st.linkStates[id] == rb.st.linkStates[id] && ra.st.linkStates[id].Body?
    requires out < |ra.st.linkStates[id].acts| && ra.st.linkStates[id].acts[out] == Tailcall(next)
    ensures AfterKernel(ra, id, out, env) == Kern(next) == AfterKernel(rb, id, out, env)
  {
    assert ra.st.linkStates[id].acts[out].ToKind() == 4;
    JumpOwner(ra, id, out, next, env);
    JumpOwner(rb, id, out, next, env);
  }

  /** A program's result when its action is not a jump, in terms of its tables alone. */
  lemma NonJump(rt: Runtime, cores: nat, xsks: seq<Fd>, id: Uuid, i: nat, slots: nat, out: nat, env: Env)
    requires HasProgram(rt, cores, xsks, id, i, slots) && 1 <= cores
    requires var st := rt.st.linkStates[id];
      st.Tail? || out >= |st.acts| || !st.acts[out].Tailcall?
    ensures var st := rt.st.linkStates[id];
      AfterKernel(rt, id, out, env)
      == if st.Tail? then KDone(XTx)
         else if out >= slots then KDone(OutOfBounds)
         else if out >= |st.acts| then KDone(XTx)
         else match st.acts[out]
           case Tx => KDone(XTx)
           case Drop => KDone(XDrop)
           case Abort => KDone(XAborted)
           case Pass => KDone(XPass)
           case _ =>
             if env.metaOk && TargetCore(cores, env.draw) < |xsks| then Resume(rt, WriteMeta(rt.endian, i, out))
             else KDone(XAborted)
  {
    var st := rt.st.linkStates[id];
    if st.Body? && out < |st.acts| {
      assert st.acts[out].ToKind() == rt.st.objects[id].acts[out];
    }
  }

  lemma UncutProgramSame(ra: Runtime, rb: Runtime, cores: nat, xsks: seq<Fd>, cut: set<Uuid>, id: Uuid, i: nat,
                         slots: nat, out: nat, env: Env)
    requires Twins(ra, rb, cores, xsks, cut) && id !in cut
    requires HasProgram(ra, cores, xsks, id, i, slots) && HasProgram(rb, cores, xsks, id, i, slots)
    ensures AfterKernel(ra, id, out, env) == AfterKernel(rb, id, out, env)
  {
    var st := ra.st.linkStates[id];
    assert rb.st.linkStates[id] == st;
    if st.Body? && out < |st.acts| && st.acts[out].Tailcall? {
      UncutJumpSame(ra, rb, cores, xsks, id, i, slots, out, st.acts[out].id, env);
    } else {
      NonJump(ra, cores, xsks, id, i, slots, out, env);
      NonJump(rb, cores, xsks, id, i, slots, out, env);
      if st.Body? { ResumeSame(ra, rb, cores, xsks, cut, id, i, out); }
    }
  }

  lemma CutProgramSame(ra: Runtime, rb: Runtime, cores: nat, xsks: seq<Fd>, cut: set<Uuid>, id: Uuid, i: nat,
                       slots: nat, env: Env)
    requires Twins(ra, rb, cores, xsks, cut) && id in cut
    requires HasProgram(ra, cores, xsks, id, i, slots) && HasProgram(rb, cores, xsks, id, i, slots)
    ensures AfterKernel(ra, id, 0, env) == KDone(XTx) == AfterKernel(rb, id, 0, env)
  {
    assert ra.st.linkStates[id].acts[0].ToKind() == 0;
  }

  lemma StepSame<P(!new)>(ra: Runtime, rb: Runtime, cores: nat, xsks: seq<Fd>, cut: set<Uuid>,
                          nf: (Uuid, P) -> (P, nat), env: Env, r: Run<P>)
    requires Twins(ra, rb, cores, xsks, cut) && forall id <- cut, p :: nf(id, p).1 == 0
    ensures SplitStep(ra, nf, env, r) == SplitStep(rb, nf, env, r)
  {
    match r.pos
    case Kern(id) =>
      var out := nf(id, r.p).1;
      if id in ra.st.objects {
        var i, slots :| HasProgram(ra, cores, xsks, id, i, slots) && HasProgram(rb, cores, xsks, id, i, slots);
        if id in cut { CutProgramSame(ra, rb, cores, xsks, cut, id, i, slots, env); }
        else { UncutProgramSame(ra, rb, cores, xsks, cut, id, i, slots, out, env); }
      }
    case User(id) => UserSame(ra, rb, cores, xsks, cut, id, nf(id, r.p).1);
    case _ =>
  }

  lemma {:induction false} TwinsRunAlike<P(!new)>(ra: Runtime, rb: Runtime, cores: nat, xsks: seq<Fd>, cut: set<Uuid>,
                                                  nf: (Uuid, P) -> (P, nat), env: Env, p: P, n: nat)
    requires Twins(ra, rb, cores, xsks, cut) && forall id <- cut, p :: nf(id, p).1 == 0
    ensures SplitRun(ra, nf, env, p, n) == SplitRun(rb, nf, env, p, n)
  {
    if n > 0 {
      TwinsRunAlike(ra, rb, cores, xsks, cut, nf, env, p, n - 1);
      StepSame(ra, rb, cores, xsks, cut, nf, env, SplitRun(ra, nf, env, p, n - 1));
    }
  }

  // ---- Rewritten chains are twins ------------------------------------------------

  function Cut(a: Chain, b: Chain): set<Uuid>
    requires |a.links| == |b.links|
  {
    set i | 0 <= i < |a.links| && a.links[i] != b.links[i] :: a.links[i].uuid
  }

  lemma {:induction false} SameRoot(a: seq<XdpLink>, b: seq<XdpLink>)
    requires |a| == |b| && forall i :: 0 <= i < |a| ==> a[i].uuid == b[i].uuid && a[i].root == b[i].root
    ensures LastRoot(a) == LastRoot(b)
  {
    if a != [] { SameRoot(a[..|a| - 1], b[..|b| - 1]); }
  }

  lemma SameKernelIds(a: Chain, b: Chain, id: Uuid)
    requires Rewritten(a, b)
    ensures KernelId(a, id) <==> KernelId(b, id)
  {
    if KernelId(a, id) {
      var i :| 0 <= i < |a.links| && a.links[i].uuid == id && InKernel(a, a.links[i]);
      assert b.links[i] in b.links && InKernel(b, b.links[i]);
    }
    if KernelId(b, id) {
      var i :| 0 <= i < |b.links| && b.links[i].uuid == id && InKernel(b, b.links[i]);
      assert a.links[i] in a.links && InKernel(a, a.links[i]);
    }
  }

  /** What a runtime knows of link `i`. */
  ghost predicate LinkFacts(chain: Chain, rt: Runtime, cores: nat, xsks: seq<Fd>, i: nat)
    requires i < |chain.links|
  {
    var l := chain.links[i];
    && l.uuid in rt.st.linkStates && rt.st.linkStates[l.uuid] == l.state && l.uuid in chain.nfs
    && (InKernel(chain, l) ==> HasProgram(rt, cores, xsks, l.uuid, i, chain.nfs[l.uuid].ebpf.value.slots))
  }

  /** What a runtime knows of its chain. */
  ghost predicate ChainFacts(chain: Chain, rt: Runtime, cores: nat, xsks: seq<Fd>) {
    && FdsDistinct(rt) && LastRoot(chain.links) == Some(rt.st.attached)
    && (forall i :: 0 <= i < |chain.links| ==> LinkFacts(chain, rt, cores, xsks, i))
    && (forall id :: id in rt.st.objects <==> KernelId(chain, id))
    && (forall id :: id in rt.st.linkStates <==> exists i :: 0 <= i < |chain.links| && chain.links[i].uuid == id)
  }

  lemma FactsOf(chain: Chain, rt: Runtime, cores: nat, xsks: seq<Fd>)
    requires Serves(rt, chain, cores, xsks)
    ensures ChainFacts(chain, rt, cores, xsks)
  {
    forall i | 0 <= i < |chain.links|
      ensures LinkFacts(chain, rt, cores, xsks, i)
    {
      assert LinkInstalled(rt.st, chain, i, cores, xsks);
    }
  }

  lemma CutMembership(a: Chain, b: Chain, i: nat)
    requires Rewritten(a, b) && DistinctUuids(a.links) && i < |a.links|
    ensures a.links[i].uuid in Cut(a, b) <==> a.links[i] != b.links[i]
  {
    forall j | 0 <= j < |a.links| && a.links[j].uuid == a.links[i].uuid
      ensures j == i
    {
    }
  }

  lemma StatesOfTwins(a: Chain, b: Chain, ra: Runtime, rb: Runtime, cores: nat, xsks: seq<Fd>, id: Uuid)
    requires Rewritten(a, b) && DistinctUuids(a.links)
    requires ChainFacts(a, ra, cores, xsks) && ChainFacts(b, rb, cores, xsks)
    ensures id in ra.st.linkStates <==> id in rb.st.linkStates
    ensures id in ra.st.linkStates ==>
      if id in Cut(a, b) then ra.st.linkStates[id] == Body([Tx]) && rb.st.linkStates[id] == Tail
      else ra.st.linkStates[id] == rb.st.linkStates[id]
  {
    if id in ra.st.linkStates {
      var i :| 0 <= i < |a.links| && a.links[i].uuid == id;
      assert LinkFacts(a, ra, cores, xsks, i) && LinkFacts(b, rb, cores, xsks, i);
      CutMembership(a, b, i);
    }
  }

  lemma PlaceOfLink(a: Chain, b: Chain, ra: Runtime, rb: Runtime, cores: nat, xsks: seq<Fd>, id: Uuid, i: nat)
    requires |a.links| == |b.links| && i < |a.links| && a.nfs == b.nfs
    requires a.links[i].uuid == id == b.links[i].uuid && InKernel(a, a.links[i])
    requires LinkFacts(a, ra, cores, xsks, i) && LinkFacts(b, rb, cores, xsks, i)
    ensures SamePlace(ra, rb, cores, xsks, id)
  {
    var slots := a.nfs[id].ebpf.value.slots;
    assert HasProgram(ra, cores, xsks, id, i, slots) && HasProgram(rb, cores, xsks, id, i, slots);
  }

  lemma ProgramsOfTwins(a: Chain, b: Chain, ra: Runtime, rb: Runtime, cores: nat, xsks: seq<Fd>, id: Uuid)
    requires Rewritten(a, b)
    requires ChainFacts(a, ra, cores, xsks) && ChainFacts(b, rb, cores, xsks)
    requires id in ra.st.objects
    ensures SamePlace(ra, rb, cores, xsks, id)
  {
    assert KernelId(a, id);
    var i :| 0 <= i < |a.links| && a.links[i].uuid == id && InKernel(a, a.links[i]);
    PlaceOfLink(a, b, ra, rb, cores, xsks, id, i);
  }

  lemma AllStates(a: Chain, b: Chain, ra: Runtime, rb: Runtime, cores: nat, xsks: seq<Fd>)
    requires Rewritten(a, b) && DistinctUuids(a.links)
    requires ChainFacts(a, ra, cores, xsks) && ChainFacts(b, rb, cores, xsks)
    ensures ra.st.linkStates.Keys == rb.st.linkStates.Keys
    ensures forall id <- ra.st.linkStates ::
      if id in Cut(a, b) then ra.st.linkStates[id] == Body([Tx]) && rb.st.linkStates[id] == Tail
      else ra.st.linkStates[id] == rb.st.linkStates[id]
  {
    forall id: Uuid
      ensures id in ra.st.linkStates <==> id in rb.st.linkStates
      ensures id in ra.st.linkStates ==>
        if id in Cut(a, b) then ra.st.linkStates[id] == Body([Tx]) && rb.st.linkStates[id] == Tail
        else ra.st.linkStates[id] == rb.st.linkStates[id]
    {
      StatesOfTwins(a, b, ra, rb, cores, xsks, id);
    }
  }

  lemma AllPrograms(a: Chain, b: Chain, ra: Runtime, rb: Runtime, cores: nat, xsks: seq<Fd>)
    requires Rewritten(a, b)
    requires ChainFacts(a, ra, cores, xsks) && ChainFacts(b, rb, cores, xsks)
    ensures ra.st.objects.Keys == rb.st.objects.Keys
    ensures forall id <- ra.st.objects :: SamePlace(ra, rb, cores, xsks, id)
  {
    forall id: Uuid
      ensures id in ra.st.objects <==> id in rb.st.objects
    {
      SameKernelIds(a, b, id);
    }
    forall id | id in ra.st.objects
      ensures SamePlace(ra, rb, cores, xsks, id)
    {
      ProgramsOfTwins(a, b, ra, rb, cores, xsks, id);
    }
  }

  lemma FactsMakeTwins(a: Chain, b: Chain, ra: Runtime, rb: Runtime, cores: nat, xsks: seq<Fd>)
    requires Rewritten(a, b) && DistinctUuids(a.links) && 1 <= cores
    requires ChainFacts(a, ra, cores, xsks) && ChainFacts(b, rb, cores, xsks)
    requires ra.endian == rb.endian && ra.dylibs == rb.dylibs
    ensures Twins(ra, rb, cores, xsks, Cut(a, b))
  {
    SameRoot(a.links, b.links);
    AllStates(a, b, ra, rb, cores, xsks);
    AllPrograms(a, b, ra, rb, cores, xsks);
  }

  // ---- Main result --------------------------------------------------------------

  /** Rewriting any such links of single-output functions changes no packet, no NF execution
      and no verdict of any run, for any chain, whether or not handoffs are refused. */
  lemma TailRewriteKeepsRuns<P(!new)>(
      a: Chain, b: Chain, ra: Runtime, rb: Runtime, cores: nat, xsks: seq<Fd>,
      nf: (Uuid, P) -> (P, nat), env: Env, p: P, n: nat)
    requires Rewritten(a, b) && Serves(ra, a, cores, xsks) && Serves(rb, b, cores, xsks)
    requires ra.endian == rb.endian && ra.dylibs == rb.dylibs
    requires forall id <- Cut(a, b), q :: nf(id, q).1 == 0
    ensures SplitRun(ra, nf, env, p, n) == SplitRun(rb, nf, env, p, n)
  {
    FactsOf(a, ra, cores, xsks);
    FactsOf(b, rb, cores, xsks);
    FactsMakeTwins(a, b, ra, rb, cores, xsks);
    TwinsRunAlike(ra, rb, cores, xsks, Cut(a, b), nf, env, p, n);
  }
}
