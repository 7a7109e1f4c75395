/** Loading a compiled chain: programs, action and jump tables, socket tables and program ids. */
module Install {
  import opened Basics
  import opened Protocol

  type Fd = nat

  const XSK_SLOTS := 8

  /** A loaded program object: the plain wrapper, or the chain wrapper with its maps. */
  datatype Obj =
    | EndObj(fd: Fd)
    | ChainObj(fd: Fd, progId: nat, numCores: nat, acts: seq<nat>, progs: map<nat, Fd>, xsk: map<nat, Fd>)

  datatype ChainState = ChainState(
    objects: map<Uuid, Obj>,
    progFds: map<Uuid, Fd>,
    instanceIds: map<nat, Uuid>,
    linkStates: map<Uuid, XdpLinkState>,
    attached: Uuid)

  datatype InstallError =
    | MissingNf(id: Uuid)
    | MapUpdateFail(id: Uuid)
    | BadNfLink(from: Uuid, to: Uuid)
    | MissingRootNf
    | RootNotLoaded(id: Uuid)   // the panic behind the root lookup

  // ---- What a successful installation looks like ---------------------------------

  ghost predicate DistinctUuids(links: seq<XdpLink>) {
    forall i, j :: 0 <= i < j < |links| ==> links[i].uuid != links[j].uuid
  }

  predicate InKernel(chain: Chain, l: XdpLink) {
    l.uuid in chain.nfs && chain.nfs[l.uuid].ebpf.Some?
  }

  ghost predicate KernelId(chain: Chain, id: Uuid) {
    exists l <- chain.links :: l.uuid == id && InKernel(chain, l)
  }

  function LastRoot(links: seq<XdpLink>): Option<Uuid> {
    if links == [] then None
    else if links[|links| - 1].root then Some(links[|links| - 1].uuid)
    else LastRoot(links[..|links| - 1])
  }

  /** The tables of one chain program can hold its link. */
  ghost predicate LinkFits(chain: Chain, l: XdpLink, xsks: seq<Fd>) {
    l.state.Body? && InKernel(chain, l) ==>
      && |xsks| <= XSK_SLOTS
      && |l.state.acts| <= chain.nfs[l.uuid].ebpf.value.slots
      && forall a <- l.state.acts :: a.Tailcall? ==> KernelId(chain, a.id)
  }

  ghost predicate Installable(chain: Chain, xsks: seq<Fd>) {
    && (forall l <- chain.links :: l.uuid in chain.nfs)
    && (forall l <- chain.links :: LinkFits(chain, l, xsks))
    && LastRoot(chain.links).Some? && KernelId(chain, LastRoot(chain.links).value)
  }

  /** `obj` holds exactly the tables that `acts` call for. */
  ghost predicate TablesFor(obj: Obj, id: nat, cores: nat, xsks: seq<Fd>, acts: seq<LinkAction>, slots: nat,
                            fds: map<Uuid, Fd>) {
    && obj.ChainObj? && obj.progId == id && obj.numCores == cores
    && |acts| <= |obj.acts| == slots
    && (forall k :: 0 <= k < |acts| ==> obj.acts[k] == acts[k].ToKind())
    && (forall k :: |acts| <= k < slots ==> obj.acts[k] == 0)
    && (forall k :: k in obj.progs <==> 0 <= k < |acts| && acts[k].Tailcall?)
    && (forall k :: k in obj.progs ==> acts[k].id in fds && obj.progs[k] == fds[acts[k].id])
    && obj.xsk == map j | 0 <= j < |xsks| :: xsks[j]
  }

  ghost predicate Represents(st: ChainState, chain: Chain, cores: nat, xsks: seq<Fd>) {
    && (forall id :: id in st.progFds <==> KernelId(chain, id))
    && st.objects.Keys == st.progFds.Keys
    && (forall id <- st.objects :: st.objects[id].fd == st.progFds[id])
    && (forall a, b :: a in st.progFds && b in st.progFds && st.progFds[a] == st.progFds[b] ==> a == b)
    && (forall id :: id in st.linkStates <==> exists l <- chain.links :: l.uuid == id)
    && (forall i :: 0 <= i < |chain.links| ==> LinkInstalled(st, chain, i, cores, xsks))
    && (forall id :: id in st.instanceIds ==> id < |chain.links|)
    && LastRoot(chain.links) == Some(st.attached) && st.attached in st.objects
  }

  ghost predicate LinkInstalled(st: ChainState, chain: Chain, i: nat, cores: nat, xsks: seq<Fd>)
    requires i < |chain.links|
  {
    var l := chain.links[i];
    && l.uuid in chain.nfs && l.uuid in st.linkStates && st.linkStates[l.uuid] == l.state
    && (InKernel(chain, l) && l.state.Tail? ==> l.uuid in st.objects && st.objects[l.uuid].EndObj?)
    && (InKernel(chain, l) && l.state.Body? ==>
          && l.uuid in st.objects
          && TablesFor(st.objects[l.uuid], i, cores, xsks, l.state.acts, chain.nfs[l.uuid].ebpf.value.slots, st.progFds)
          && i in st.instanceIds && st.instanceIds[i] == l.uuid)
  }

  // ---- What a refusal says ---------------------------------------------------------

  /** Entry `k` of a program's tables can be made: its slot exists, and so does the program it jumps to. */
  predicate EntryFits(acts: seq<LinkAction>, slots: nat, known: set<Uuid>, k: nat)
    requires k < |acts|
  {
    k < slots && (acts[k].Tailcall? ==> acts[k].id in known)
  }

  ghost predicate FirstUnfit(acts: seq<LinkAction>, slots: nat, known: set<Uuid>, k: nat) {
    k < |acts| && !EntryFits(acts, slots, known, k) && forall j :: 0 <= j < k ==> EntryFits(acts, slots, known, j)
  }

  /** Why the program of `id` is refused: too many sockets, or else its first entry that cannot be made. */
  ghost predicate ProgramRefused(id: Uuid, acts: seq<LinkAction>, slots: nat, known: set<Uuid>, xsks: seq<Fd>,
                                 e: InstallError) {
    if |xsks| > 8 then e == MapUpdateFail(id)
    else (exists k: nat :: FirstUnfit(acts, slots, known, k)
            && e == if k >= slots then MapUpdateFail(id) else BadNfLink(id, acts[k].id))
  }

  ghost function KernelIds(chain: Chain): set<Uuid> {
    set l | l in chain.links && InKernel(chain, l) :: l.uuid
  }

  ghost predicate LinkRefused(chain: Chain, l: XdpLink, xsks: seq<Fd>, e: InstallError) {
    && InKernel(chain, l) && l.state.Body?
    && ProgramRefused(l.uuid, l.state.acts, chain.nfs[l.uuid].ebpf.value.slots, KernelIds(chain), xsks, e)
  }

  ghost predicate AllPresent(chain: Chain) { forall l <- chain.links :: l.uuid in chain.nfs }

  ghost predicate FirstMissing(chain: Chain, i: nat) {
    && i < |chain.links| && chain.links[i].uuid !in chain.nfs
    && forall j :: 0 <= j < i ==> chain.links[j].uuid in chain.nfs
  }

  ghost predicate FirstRefused(chain: Chain, i: nat, xsks: seq<Fd>, e: InstallError) {
    && i < |chain.links| && LinkRefused(chain, chain.links[i], xsks, e)
    && forall j :: 0 <= j < i ==> LinkFits(chain, chain.links[j], xsks)
  }

  /** The refusal that a chain deserves: for its first link without a function, or else its first
      link that does not fit, or else for its root. */
  ghost predicate ErrorMeans(e: InstallError, chain: Chain, xsks: seq<Fd>) {
    match e
    case MissingNf(id) => exists i: nat :: FirstMissing(chain, i) && id == chain.links[i].uuid
    case MissingRootNf => AllPresent(chain) && AllFit(chain, chain.links, xsks) && LastRoot(chain.links).None?
    case RootNotLoaded(id) =>
      AllPresent(chain) && AllFit(chain, chain.links, xsks) && LastRoot(chain.links) == Some(id) && !KernelId(chain, id)
    case _ => AllPresent(chain) && exists i: nat :: FirstRefused(chain, i, xsks, e)
  }

  ghost predicate AllFit(chain: Chain, links: seq<XdpLink>, xsks: seq<Fd>) {
    forall l <- links :: LinkFits(chain, l, xsks)
  }

  lemma KernelIdsAre(chain: Chain, id: Uuid)
    ensures id in KernelIds(chain) <==> KernelId(chain, id)
  {
    if KernelId(chain, id) {
      var l :| l in chain.links && l.uuid == id && InKernel(chain, l);
    }
  }

  lemma RefusedIsUnfit(chain: Chain, l: XdpLink, xsks: seq<Fd>, e: InstallError)
    ensures LinkRefused(chain, l, xsks, e) ==> !LinkFits(chain, l, xsks)
  {
    forall a | l.state.Body? && a in l.state.acts && a.Tailcall?
      ensures a.id in KernelIds(chain) <==> KernelId(chain, a.id)
    {
      KernelIdsAre(chain, a.id);
    }
  }

  /** If every link is there and fits, only its root can be in the way. */
  lemma OnlyRootLeft(chain: Chain, xsks: seq<Fd>, e: InstallError, id: Uuid)
    requires ErrorMeans(e, chain, xsks) && AllPresent(chain) && AllFit(chain, chain.links, xsks)
    requires LastRoot(chain.links) == Some(id)
    ensures e == RootNotLoaded(id)
  {
    forall i: nat
      ensures !FirstMissing(chain, i) && !FirstRefused(chain, i, xsks, e)
    {
      if i < |chain.links| {
        assert chain.links[i] in chain.links;
        RefusedIsUnfit(chain, chain.links[i], xsks, e);
      }
    }
  }

  // ---- Installation -------------------------------------------------------------

  function Zeros(n: nat): seq<nat> { seq(n, _ => 0) }

  /** A program fresh from the loader: every table empty, arrays zeroed. */
  function Fresh(l: XdpLink, ebpf: EbpfFunction, fd: Fd): Obj {
    match l.state
    case Tail => EndObj(fd)
    case Body(_) => ChainObj(fd, 0, 0, Zeros(ebpf.slots), map[], map[])
  }

  ghost predicate LoadedId(chain: Chain, n: nat, id: Uuid) {
    exists j :: 0 <= j < n && j < |chain.links| && chain.links[j].uuid == id && InKernel(chain, chain.links[j])
  }

  /** The programs of the first `n` links, each with a descriptor of its own. */
  ghost predicate Loaded(chain: Chain, objs: map<Uuid, Obj>, n: nat) {
    && n <= |chain.links|
    && (forall id :: id in objs <==> LoadedId(chain, n, id))
    && (forall j :: 0 <= j < n && InKernel(chain, chain.links[j]) ==> IsFresh(chain, objs, chain.links[j]))
    && (forall id <- objs :: objs[id].fd < n)
    && (forall a, b :: a in objs && b in objs && objs[a].fd == objs[b].fd ==> a == b)
  }

  ghost predicate IsFresh(chain: Chain, objs: map<Uuid, Obj>, l: XdpLink) {
    && l.uuid in objs && InKernel(chain, l)
    && objs[l.uuid] == Fresh(l, chain.nfs[l.uuid].ebpf.value, objs[l.uuid].fd)
  }

  lemma LoadedIdNext(chain: Chain, n: nat, next: nat, id: Uuid)
    requires n < |chain.links| && next == n + 1
    ensures LoadedId(chain, next, id) <==>
      LoadedId(chain, n, id) || (chain.links[n].uuid == id && InKernel(chain, chain.links[n]))
  {
  }

  lemma FreshNext(chain: Chain, objs: map<Uuid, Obj>, n: nat, o: Obj, j: nat)
    requires DistinctUuids(chain.links) && j < n < |chain.links| && IsFresh(chain, objs, chain.links[j])
    ensures IsFresh(chain, objs[chain.links[n].uuid := o], chain.links[j])
  {
  }

  lemma LoadedNext(chain: Chain, objs: map<Uuid, Obj>, n: nat, next: nat, objs': map<Uuid, Obj>)
    requires DistinctUuids(chain.links) && Loaded(chain, objs, n) && n < |chain.links| && next == n + 1
    requires var l := chain.links[n];
      objs' == if InKernel(chain, l) then objs[l.uuid := Fresh(l, chain.nfs[l.uuid].ebpf.value, n)] else objs
    ensures Loaded(chain, objs', next)
  {
    var l := chain.links[n];
    forall id
      ensures id in objs' <==> LoadedId(chain, next, id)
    {
      LoadedIdNext(chain, n, next, id);
    }
    forall j | 0 <= j < next && InKernel(chain, chain.links[j])
      ensures IsFresh(chain, objs', chain.links[j])
    {
      if j < n && InKernel(chain, l) { FreshNext(chain, objs, n, objs'[l.uuid], j); }
    }
  }

  lemma LoadedAll(chain: Chain, objs: map<Uuid, Obj>)
    requires Loaded(chain, objs, |chain.links|)
    ensures forall id :: id in objs <==> KernelId(chain, id)
    ensures forall l <- chain.links :: InKernel(chain, l) ==> IsFresh(chain, objs, l)
  {
    forall id | KernelId(chain, id)
      ensures id in objs
    {
      var l :| l in chain.links && l.uuid == id && InKernel(chain, l);
      var j :| 0 <= j < |chain.links| && chain.links[j] == l;
      assert LoadedId(chain, |chain.links|, id);
    }
  }

  /** First pass: load a program for every link that has an eBPF build. */
  method LoadPrograms(chain: Chain)
    returns (r: Result<map<Uuid, Obj>, InstallError>, root: Option<Uuid>)
    requires DistinctUuids(chain.links)
    ensures match r
            case Success(objs) =>
              && (forall l <- chain.links :: l.uuid in chain.nfs)
              && root == LastRoot(chain.links)
              && (forall id :: id in objs <==> KernelId(chain, id))
              && (forall l <- chain.links :: InKernel(chain, l) ==> IsFresh(chain, objs, l))
              && (forall a, b :: a in objs && b in objs && objs[a].fd == objs[b].fd ==> a == b)
            case Failure(e) => exists i: nat :: FirstMissing(chain, i) && e == MissingNf(chain.links[i].uuid)
  {
    var objs: map<Uuid, Obj> := map[];
    root := None;
    var i := 0;
    while i < |chain.links|
      invariant i <= |chain.links| && Loaded(chain, objs, i)
      invariant forall j :: 0 <= j < i ==> chain.links[j].uuid in chain.nfs
      invariant root == LastRoot(chain.links[..i])
    {
      var l := chain.links[i];
      assert chain.links[..i + 1][..i] == chain.links[..i];
      if l.uuid !in chain.nfs {
        assert FirstMissing(chain, i);
        return Failure(MissingNf(l.uuid)), None;
      }
      if l.root { root := Some(l.uuid); }
      ghost var before := objs;
      match chain.nfs[l.uuid].ebpf {
        case None =>
        case Some(ebpf) => objs := objs[l.uuid := Fresh(l, ebpf, i)];
      }
      LoadedNext(chain, before, i, i + 1, objs);
      i := i + 1;
    }
    assert chain.links[..i] == chain.links;
    LoadedAll(chain, objs);
    return Success(objs), root;
  }

  /** Fills one `xsk_map`; an index past its size is refused. */
  method FillSockets(xsks: seq<Fd>) returns (r: Option<map<nat, Fd>>)
    ensures r == if |xsks| <= 8 then Some(map j | 0 <= j < |xsks| :: xsks[j]) else None
  {
    var xsk: map<nat, Fd> := map[];
    var j := 0;
    while j < |xsks|
      invariant j <= |xsks| && j <= XSK_SLOTS
      invariant xsk == map k | 0 <= k < j :: xsks[k]
    {
      if j >= XSK_SLOTS { return None; }
      xsk := xsk[j := xsks[j]];
      j := j + 1;
    }
    return Some(xsk);
  }

  /** Second pass for one chain program: its state, sockets, actions and jumps. */
  method PatchProgram(id: Uuid, obj: Obj, progId: nat, cores: nat, xsks: seq<Fd>, acts: seq<LinkAction>,
                      fds: map<Uuid, Fd>)
    returns (r: Result<Obj, InstallError>)
    requires obj.ChainObj? && obj.acts == Zeros(|obj.acts|) && obj.progs == map[]
    ensures match r
            case Success(o) => o.fd == obj.fd && TablesFor(o, progId, cores, xsks, acts, |obj.acts|, fds)
            case Failure(e) => ProgramRefused(id, acts, |obj.acts|, fds.Keys, xsks, e)
    ensures r.Success? <==>
      |xsks| <= XSK_SLOTS && |acts| <= |obj.acts| && (forall a <- acts :: a.Tailcall? ==> a.id in fds)
  {
    var xsk := FillSockets(xsks);
    if xsk.None? { return Failure(MapUpdateFail(id)); }
    var table, progs := obj.acts, map[];
    var k := 0;
    while k < |acts|
      invariant k <= |acts| && k <= |table| == |obj.acts|
      invariant forall j :: 0 <= j < k ==> table[j] == acts[j].ToKind()
      invariant forall j :: k <= j < |table| ==> table[j] == 0
      invariant forall j :: j in progs <==> 0 <= j < k && acts[j].Tailcall?
      invariant forall j :: j in progs ==> acts[j].id in fds && progs[j] == fds[acts[j].id]
    {
      if k >= |table| {
        assert FirstUnfit(acts, |obj.acts|, fds.Keys, k);
        return Failure(MapUpdateFail(id));
      }
      table := table[k := acts[k].ToKind()];
      if acts[k].Tailcall? {
        if acts[k].id !in fds {
          assert acts[k] in acts && FirstUnfit(acts, |obj.acts|, fds.Keys, k);
          return Failure(BadNfLink(id, acts[k].id));
        }
        progs := progs[k := fds[acts[k].id]];
      }
      k := k + 1;
    }
    return Success(ChainObj(obj.fd, progId, cores, table, progs, xsk.value));
  }

  /** What has been installed when the first `n` links have been patched. */
  ghost predicate Patched(st: ChainState, chain: Chain, n: nat, cores: nat, xsks: seq<Fd>)
    requires n <= |chain.links|
  {
    && st.objects.Keys == st.progFds.Keys
    && (forall id <- st.objects :: st.objects[id].fd == st.progFds[id])
    && (forall id :: id in st.linkStates <==> exists j :: 0 <= j < n && chain.links[j].uuid == id)
    && (forall k :: k in st.instanceIds ==> k < n)
    && (forall j :: 0 <= j < n ==> LinkInstalled(st, chain, j, cores, xsks))
  }

  /** Entries of other links do not disturb an installed link. */
  lemma LinkStaysInstalled(st: ChainState, st': ChainState, chain: Chain, j: nat, cores: nat, xsks: seq<Fd>)
    requires j < |chain.links| && LinkInstalled(st, chain, j, cores, xsks)
    requires st'.progFds == st.progFds
    requires var id := chain.links[j].uuid;
      && (id in st.objects ==> id in st'.objects && st'.objects[id] == st.objects[id])
      && id in st'.linkStates && st'.linkStates[id] == st.linkStates[id]
    requires j in st.instanceIds ==> j in st'.instanceIds && st'.instanceIds[j] == st.instanceIds[j]
    ensures LinkInstalled(st', chain, j, cores, xsks)
  {
  }

  /** `st` with the entries of link `i`; `obj` replaces its program when it has a chain program. */
  function WithLink(st: ChainState, l: XdpLink, i: nat, obj: Option<Obj>): ChainState {
    var st' := st.(linkStates := st.linkStates[l.uuid := l.state]);
    match obj
    case None => st'
    case Some(o) => st'.(instanceIds := st.instanceIds[i := l.uuid], objects := st.objects[l.uuid := o])
  }

  lemma WithLinkPatched(chain: Chain, st: ChainState, l: XdpLink, i: nat, obj: Option<Obj>, cores: nat, xsks: seq<Fd>)
    requires DistinctUuids(chain.links) && i < |chain.links| && chain.links[i] == l
    requires Patched(st, chain, i, cores, xsks) && l.uuid in chain.nfs
    requires InKernel(chain, l) <==> l.uuid in st.objects
    requires obj.Some? <==> l.state.Body? && l.uuid in st.objects
    requires obj.Some? ==> obj.value.fd == st.progFds[l.uuid]
    requires obj.Some? ==>
      TablesFor(obj.value, i, cores, xsks, l.state.acts, chain.nfs[l.uuid].ebpf.value.slots, st.progFds)
    requires l.state.Tail? && l.uuid in st.objects ==> st.objects[l.uuid].EndObj?
    ensures Patched(WithLink(st, l, i, obj), chain, i + 1, cores, xsks)
  {
    var st' := WithLink(st, l, i, obj);
    forall j | 0 <= j < i
      ensures LinkInstalled(st', chain, j, cores, xsks)
    {
      assert LinkInstalled(st, chain, j, cores, xsks);
      LinkStaysInstalled(st, st', chain, j, cores, xsks);
    }
    assert LinkInstalled(st', chain, i, cores, xsks);
    forall id
      ensures id in st'.linkStates <==> exists j :: 0 <= j < i + 1 && chain.links[j].uuid == id
    {
      assert id in st'.linkStates <==> id in st.linkStates || id == chain.links[i].uuid;
    }
  }

  lemma OnlyOwnLink(chain: Chain, i: nat)
    requires DistinctUuids(chain.links) && i < |chain.links|
    ensures KernelId(chain, chain.links[i].uuid) <==> InKernel(chain, chain.links[i])
  {
    forall k | 0 <= k < |chain.links| && chain.links[k].uuid == chain.links[i].uuid
      ensures k == i
    {
    }
  }

  /** Loop body of the second pass: enters link `i` and, if it has a chain program, patches it. */
  method PatchLink(chain: Chain, st: ChainState, l: XdpLink, i: nat, cores: nat, xsks: seq<Fd>)
    returns (r: Result<ChainState, InstallError>)
    requires DistinctUuids(chain.links) && i < |chain.links| && chain.links[i] == l
    requires Patched(st, chain, i, cores, xsks) && l.uuid in chain.nfs
    requires forall id :: id in st.progFds <==> KernelId(chain, id)
    requires InKernel(chain, l) ==> IsFresh(chain, st.objects, l)
    ensures r.Success? <==> LinkFits(chain, l, xsks)
    ensures match r
            case Success(st') =>
              && Patched(st', chain, i + 1, cores, xsks)
              && st'.progFds == st.progFds
              && st'.objects.Keys == st.objects.Keys
              && forall id <- st.objects :: id != l.uuid ==> st'.objects[id] == st.objects[id]
            case Failure(e) => LinkRefused(chain, l, xsks, e)
  {
    OnlyOwnLink(chain, i);
    assert l in chain.links;
    assert InKernel(chain, l) <==> l.uuid in st.progFds;
    assert st.objects.Keys == st.progFds.Keys == KernelIds(chain);
    var obj: Option<Obj> := None;
    if l.state.Body? && l.uuid in st.objects {
      var patched := PatchProgram(l.uuid, st.objects[l.uuid], i, cores, xsks, l.state.acts, st.progFds);
      if patched.Failure? { return Failure(patched.error); }
      obj := Some(patched.value);
    }
    WithLinkPatched(chain, st, l, i, obj, cores, xsks);
    return Success(WithLink(st, l, i, obj));
  }

  ghost predicate Untouched(chain: Chain, now: map<Uuid, Obj>, loaded: map<Uuid, Obj>, from: nat) {
    now.Keys == loaded.Keys
    && forall j :: from <= j < |chain.links| && chain.links[j].uuid in loaded ==>
         now[chain.links[j].uuid] == loaded[chain.links[j].uuid]
  }

  lemma StillUntouched(chain: Chain, now: map<Uuid, Obj>, next: map<Uuid, Obj>, loaded: map<Uuid, Obj>, i: nat)
    requires DistinctUuids(chain.links) && i < |chain.links| && Untouched(chain, now, loaded, i)
    requires next.Keys == now.Keys && forall id <- now :: id != chain.links[i].uuid ==> next[id] == now[id]
    ensures Untouched(chain, next, loaded, i + 1)
  {
  }

  lemma AllFitSnoc(chain: Chain, i: nat, xsks: seq<Fd>)
    requires i < |chain.links|
    ensures AllFit(chain, chain.links[..i + 1], xsks) <==>
      AllFit(chain, chain.links[..i], xsks) && LinkFits(chain, chain.links[i], xsks)
    ensures AllFit(chain, chain.links, xsks) ==> LinkFits(chain, chain.links[i], xsks)
  {
    assert chain.links[..i + 1] == chain.links[..i] + [chain.links[i]];
  }

  lemma StillFresh(chain: Chain, now: map<Uuid, Obj>, loaded: map<Uuid, Obj>, i: nat)
    requires i < |chain.links| && Untouched(chain, now, loaded, i)
    requires forall l <- chain.links :: InKernel(chain, l) ==> IsFresh(chain, loaded, l)
    ensures chain.links[i] in chain.links
    ensures InKernel(chain, chain.links[i]) ==> IsFresh(chain, now, chain.links[i])
  {
  }

  lemma RefusedFirst(chain: Chain, i: nat, xsks: seq<Fd>, e: InstallError)
    requires i < |chain.links| && AllFit(chain, chain.links[..i], xsks) && AllPresent(chain)
    requires LinkRefused(chain, chain.links[i], xsks, e)
    ensures ErrorMeans(e, chain, xsks)
  {
    forall j | 0 <= j < i
      ensures LinkFits(chain, chain.links[j], xsks)
    {
      assert chain.links[j] == chain.links[..i][j];
    }
    assert FirstRefused(chain, i, xsks, e);
  }

  /** Second pass over all links. */
  method PatchLinks(chain: Chain, objs: map<Uuid, Obj>, cores: nat, xsks: seq<Fd>)
    returns (r: Result<ChainState, InstallError>)
    requires DistinctUuids(chain.links) && forall l <- chain.links :: l.uuid in chain.nfs
    requires forall id :: id in objs <==> KernelId(chain, id)
    requires forall l <- chain.links :: InKernel(chain, l) ==> IsFresh(chain, objs, l)
    ensures r.Success? <==> AllFit(chain, chain.links, xsks)
    ensures match r
            case Success(st) =>
              Patched(st, chain, |chain.links|, cores, xsks) && st.progFds == map id <- objs :: objs[id].fd
            case Failure(e) => ErrorMeans(e, chain, xsks)
  {
    var fds := map id <- objs :: objs[id].fd;
    var st := ChainState(objs, fds, map[], map[], 0);
    var i := 0;
    while i < |chain.links|
      invariant i <= |chain.links| && st.progFds == fds
      invariant Patched(st, chain, i, cores, xsks) && Untouched(chain, st.objects, objs, i)
      invariant AllFit(chain, chain.links[..i], xsks)
    {
      var l := chain.links[i];
      AllFitSnoc(chain, i, xsks);
      StillFresh(chain, st.objects, objs, i);
      var patched := PatchLink(chain, st, l, i, cores, xsks);
      if patched.Failure? {
        RefusedFirst(chain, i, xsks, patched.error);
        return Failure(patched.error);
      }
      StillUntouched(chain, st.objects, patched.value.objects, objs, i);
      st := patched.value;
      i := i + 1;
    }
    assert chain.links[..i] == chain.links;
    return Success(st);
  }

  method InstallChain(chain: Chain, cores: nat, xsks: seq<Fd>) returns (r: Result<ChainState, InstallError>)
    requires DistinctUuids(chain.links)
    ensures r.Success? <==> Installable(chain, xsks)
    ensures match r
            case Success(st) => Represents(st, chain, cores, xsks)
            case Failure(e) => ErrorMeans(e, chain, xsks)
  {
    var loaded, root := LoadPrograms(chain);
    if loaded.Failure? { return Failure(loaded.error); }
    var patched := PatchLinks(chain, loaded.value, cores, xsks);
    if patched.Failure? { return Failure(patched.error); }
    var st := patched.value;
    match root {
      case None => return Failure(MissingRootNf);
      case Some(id) =>
        if id !in st.objects { return Failure(RootNotLoaded(id)); }
        var done := st.(attached := id);
        forall j | 0 <= j < |chain.links|
          ensures LinkInstalled(done, chain, j, cores, xsks)
        {
          LinkStaysInstalled(st, done, chain, j, cores, xsks);
        }
        return Success(done);
    }
  }
}
