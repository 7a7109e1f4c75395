/** The rest of the chain compiler: branch counts, table sizes and the compiled functions. */
module Compile {
  import opened Basics
  import opened Protocol
  import opened Chainsmith
  import opened ChainShape

  datatype NfReturnType = Enum(variants: seq<string>) | Empty {
    function Len(): nat { match this case Enum(v) => |v| case Empty => 1 }
  }

  datatype BranchMismatch = BranchMismatch(nf: string, given: nat, needed: nat)

  type Types = map<string, NfReturnType>

  ghost predicate IsPowerOfTwo(n: nat) {
    n == 1 || (n > 1 && n % 2 == 0 && IsPowerOfTwo(n / 2))
  }

  function PowerFrom(p: nat, n: nat): (r: nat)
    requires p > 0 && IsPowerOfTwo(p)
    ensures IsPowerOfTwo(r) && p <= r && n <= r
    ensures r > p ==> r < 2 * n
    decreases n - p
  {
    if n <= p then p else PowerFrom(2 * p, n)
  }

  function NextPowerOfTwo(n: nat): (r: nat)
    ensures IsPowerOfTwo(r) && n <= r
    ensures r > 1 ==> r < 2 * n
  {
    PowerFrom(1, n)
  }

  /** The link a function's branches are checked against: its first. */
  function FirstLink(links: seq<Link>, name: string): Option<Link> {
    if links == [] then None
    else if links[0].from == name then Some(links[0])
    else FirstLink(links[1..], name)
  }

  /** A function's first link is the one before which no other link starts at it. */
  lemma {:induction false} FirstLinkIs(links: seq<Link>, name: string)
    ensures match FirstLink(links, name)
            case Some(l) => exists i: nat :: IsFirstFrom(links, name, i) && links[i] == l
            case None => forall l <- links :: l.from != name
  {
    if links != [] && links[0].from != name {
      FirstLinkIs(links[1..], name);
      match FirstLink(links[1..], name)
      case Some(l) =>
        var i: nat :| IsFirstFrom(links[1..], name, i) && links[1..][i] == l;
        assert IsFirstFrom(links, name, i + 1) by {
          forall j | 0 <= j < i + 1
            ensures links[j].from != name
          {
            if j > 0 { assert links[1..][j - 1] == links[j]; }
          }
        }
      case None =>
        forall l | l in links
          ensures l.from != name
        {
          assert l == links[0] || l in links[1..];
        }
    } else if links != [] {
      assert IsFirstFrom(links, name, 0);
    }
  }

  ghost predicate IsFirstFrom(links: seq<Link>, name: string, i: nat) {
    i < |links| && links[i].from == name && forall j :: 0 <= j < i ==> links[j].from != name
  }

  predicate ArityOk(cfg: Config, types: Types, name: string)
    requires name in types
  {
    match FirstLink(cfg.links, name)
    case None => false
    case Some(l) => types[name].Enum? ==> |types[name].variants| == |l.to|
  }

  /** Checks every function's branch count and sizes its tables. */
  method CheckPrograms(cfg: Config, types: Types) returns (r: Result<map<string, nat>, BranchMismatch>)
    requires types.Keys == cfg.functions.Keys
    ensures r.Success? <==> forall n <- types :: ArityOk(cfg, types, n)
    ensures r.Success? ==> r.value == map n <- types :: NextPowerOfTwo(types[n].Len())
    ensures r.Failure? ==>
      r.error.nf in types && !ArityOk(cfg, types, r.error.nf)
      && r.error.needed == types[r.error.nf].Len()
      && r.error.given == match FirstLink(cfg.links, r.error.nf) case None => 0 case Some(l) => |l.to|
  {
    var slots: map<string, nat> := map[];
    var todo := types.Keys;
    while todo != {}
      invariant todo <= types.Keys
      invariant slots == map n | n in types && n !in todo :: NextPowerOfTwo(types[n].Len())
      invariant forall n :: n in types && n !in todo ==> ArityOk(cfg, types, n)
      decreases todo
    {
      var n :| n in todo;
      match FirstLink(cfg.links, n) {
        case None => return Failure(BranchMismatch(n, 0, types[n].Len()));
        case Some(l) =>
          if types[n].Enum? && |types[n].variants| != |l.to| {
            return Failure(BranchMismatch(n, |l.to|, |types[n].variants|));
          }
      }
      slots := slots[n := NextPowerOfTwo(types[n].Len())];
      todo := todo - {n};
    }
    return Success(slots);
  }

  ghost predicate Injective(fns: FnMap) {
    forall a, b :: a in fns && b in fns && fns[a] == fns[b] ==> a == b
  }

  function Compiled(cfg: Config, slots: map<string, nat>, fns: FnMap, name: string): Function
    requires name in fns && name in cfg.functions && name in slots
  {
    Function(fns[name], true, if cfg.functions[name].disableXdp then None else Some(EbpfFunction(slots[name])))
  }

  /** Builds each function for userland, and for the kernel unless that is disabled. */
  method CompileFunctions(cfg: Config, slots: map<string, nat>, fns: FnMap) returns (nfs: map<Uuid, Function>)
    requires fns.Keys == cfg.functions.Keys == slots.Keys && Injective(fns)
    ensures nfs.Keys == fns.Values
    ensures forall n <- fns :: nfs[fns[n]] == Compiled(cfg, slots, fns, n)
  {
    nfs := map[];
    var todo := fns.Keys;
    while todo != {}
      invariant todo <= fns.Keys
      invariant forall n <- fns :: n !in todo ==> fns[n] in nfs && nfs[fns[n]] == Compiled(cfg, slots, fns, n)
      invariant forall u <- nfs :: exists n <- fns :: n !in todo && fns[n] == u
      decreases todo
    {
      var n :| n in todo;
      nfs := nfs[fns[n] := Compiled(cfg, slots, fns, n)];
      todo := todo - {n};
    }
  }

  /** The chain that pulley receives, described by the configuration alone. */
  ghost predicate CompiledChain(cfg: Config, types: Types, fns: FnMap, names: seq<string>, chain: Chain)
    requires fns.Keys == cfg.functions.Keys == types.Keys
  {
    && Lists(cfg, fns, names, chain.links)
    && chain.nfs.Keys == fns.Values
    && forall n <- fns :: chain.nfs[fns[n]] == Function(fns[n], true,
         if cfg.functions[n].disableXdp then None else Some(EbpfFunction(NextPowerOfTwo(types[n].Len()))))
  }

  datatype CompileError = Branches(e: BranchMismatch) | Build(b: BuildError)

  /** What a branch mismatch reports: a function whose first link has not as many targets as its
      type has variants, or that has no link at all, with both numbers. */
  ghost predicate MismatchIs(cfg: Config, types: Types, e: BranchMismatch) {
    && e.nf in types && e.needed == (match types[e.nf] case Enum(vs) => |vs| case Empty => 1)
    && if exists l <- cfg.links :: l.from == e.nf then
         types[e.nf].Enum? && e.given != e.needed
         && exists i: nat :: IsFirstFrom(cfg.links, e.nf, i) && e.given == |cfg.links[i].to|
       else e.given == 0
  }

  /** What a failed compilation reports: branches first, and then the error the links deserve. */
  ghost predicate CompileErrorIs(cfg: Config, types: Types, fns: FnMap, e: CompileError) {
    match e
    case Branches(m) => MismatchIs(cfg, types, m)
    case Build(b) => (forall n <- types :: ArityOk(cfg, types, n)) && BuildErrorIs(cfg, fns, b)
  }

  lemma MismatchFound(cfg: Config, types: Types, e: BranchMismatch)
    requires e.nf in types && !ArityOk(cfg, types, e.nf) && e.needed == types[e.nf].Len()
    requires e.given == match FirstLink(cfg.links, e.nf) case None => 0 case Some(l) => |l.to|
    ensures MismatchIs(cfg, types, e)
  {
    FirstLinkIs(cfg.links, e.nf);
    match FirstLink(cfg.links, e.nf)
    case Some(l) =>
      var i: nat :| IsFirstFrom(cfg.links, e.nf, i) && cfg.links[i] == l;
      assert l in cfg.links;
    case None =>
  }

  /** Checks, builds and links a configuration. */
  method CompileChain(cfg: Config, types: Types, fns: FnMap)
    returns (r: Result<Chain, CompileError>)
    requires fns.Keys == cfg.functions.Keys == types.Keys && Injective(fns)
    ensures r.Success? <==> (forall n <- types :: ArityOk(cfg, types, n)) && Accepts(cfg, fns)
    ensures r.Success? ==> exists names :: CompiledChain(cfg, types, fns, names, r.value)
    ensures r.Failure? ==> CompileErrorIs(cfg, types, fns, r.error)
    ensures r.Failure? && r.error.Branches? ==> !ArityOk(cfg, types, r.error.e.nf)
  {
    var slots := CheckPrograms(cfg, types);
    if slots.Failure? {
      MismatchFound(cfg, types, slots.error);
      return Failure(Branches(slots.error));
    }
    var nfs := CompileFunctions(cfg, slots.value, fns);
    SucceedsIffAccepts(cfg, fns);
    var links := MakeConcrete(cfg, fns);
    if links.Failure? {
      ReportsTheError(cfg, fns, links.error);
      return Failure(Build(links.error));
    }
    ghost var names :| Lists(cfg, fns, names, links.value);
    assert CompiledChain(cfg, types, fns, names, Chain(links.value, nfs));
    return Success(Chain(links.value, nfs));
  }
}
