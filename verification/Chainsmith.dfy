/** The chain compiler: from the named links of a configuration to concrete links. */
module Chainsmith {
  import opened Basics
  import opened Protocol

  datatype Nf = Nf(disableXdp: bool)

  datatype Link = Link(from: string, to: seq<string>)

  datatype Config = Config(functions: map<string, Nf>, links: seq<Link>)

  datatype BuildError =
    | NoRxHandler
    | TooManyRxHandlers
    | UndefinedSource(link: Link, name: string)
    | UndefinedTarget(link: Link, name: string)

  type FnMap = map<string, Uuid>

  // ---- Name resolution ----------------------------------------------------------

  predicate Forced(name: string) { name != "" && name[0] == '!' }

  function Bare(name: string): string { if Forced(name) then name[1..] else name }

  function Special(name: string): Option<LinkAction> {
    if name == "tx" then Some(Tx)
    else if name == "drop" then Some(Drop)
    else if name == "pass" then Some(Pass)
    else if name == "abort" then Some(Abort)
    else None
  }

  /** The action a target name stands for; functions take precedence over special names. */
  function Resolve(cfg: Config, fns: FnMap, name: string): Option<LinkAction>
    requires fns.Keys <= cfg.functions.Keys
  {
    var bare := Bare(name);
    if bare in fns then
      Some(if Forced(name) || cfg.functions[bare].disableXdp then Upcall(fns[bare]) else Tailcall(fns[bare]))
    else Special(name)
  }

  predicate IsTailLink(l: Link) { l.to == ["tx"] }

  /** First target that resolves to nothing. */
  function FirstBadTarget(cfg: Config, fns: FnMap, to: seq<string>): Option<string>
    requires fns.Keys <= cfg.functions.Keys
  {
    if to == [] then None
    else if Resolve(cfg, fns, to[0]).None? then Some(to[0])
    else FirstBadTarget(cfg, fns, to[1..])
  }

  function FirstNonFunction(fns: FnMap, to: seq<string>): Option<string> {
    if to == [] then None
    else if to[0] !in fns then Some(to[0])
    else FirstNonFunction(fns, to[1..])
  }

  /** What is wrong with one link taken alone. */
  function Fault(cfg: Config, fns: FnMap, l: Link): Option<BuildError>
    requires fns.Keys <= cfg.functions.Keys
  {
    if l.from == "rx" then
      match FirstNonFunction(fns, l.to)
      case Some(dest) => Some(UndefinedTarget(l, dest))
      case None => None
    else
      match if IsTailLink(l) then None else FirstBadTarget(cfg, fns, l.to)
      case Some(dest) => Some(UndefinedTarget(l, dest))
      case None => if l.from !in fns then Some(UndefinedSource(l, l.from)) else None
  }

  // ---- Independent description of the outcome -----------------------------------

  /** Number of destinations of `rx`, over all links. */
  function RxCount(links: seq<Link>): nat {
    if links == [] then 0
    else
      var l := links[|links| - 1];
      RxCount(links[..|links| - 1]) + if l.from == "rx" then |l.to| else 0
  }

  predicate Accepts(cfg: Config, fns: FnMap)
    requires fns.Keys <= cfg.functions.Keys
  {
    (forall l <- cfg.links :: Fault(cfg, fns, l).None?) && RxCount(cfg.links) == 1
  }

  predicate FedByRx(links: seq<Link>, name: string) {
    exists l <- links :: l.from == "rx" && name in l.to
  }

  predicate HasTailLink(links: seq<Link>, name: string) {
    exists l <- links :: l.from == name && IsTailLink(l)
  }

  function LastLink(links: seq<Link>, name: string): Option<Link> {
    if links == [] then None
    else
      var l := links[|links| - 1];
      if l.from == name then Some(l) else LastLink(links[..|links| - 1], name)
  }

  function Dests(cfg: Config, fns: FnMap, to: seq<string>): seq<LinkAction>
    requires fns.Keys <= cfg.functions.Keys
  {
    seq(|to|, i requires 0 <= i < |to| =>
      match Resolve(cfg, fns, to[i]) case Some(a) => a case None => Drop)
  }

  /** Tail if any link of the NF is exactly to `tx`, else the targets of its last link. */
  function StateOf(cfg: Config, fns: FnMap, links: seq<Link>, name: string): XdpLinkState
    requires fns.Keys <= cfg.functions.Keys
  {
    if name == "rx" then Body([])
    else if HasTailLink(links, name) then Tail
    else match LastLink(links, name)
      case Some(l) => Body(Dests(cfg, fns, l.to))
      case None => Body([])
  }

  function Concrete(cfg: Config, fns: FnMap, links: seq<Link>, name: string): XdpLink
    requires fns.Keys <= cfg.functions.Keys && name in fns
  {
    XdpLink(fns[name], StateOf(cfg, fns, links, name), FedByRx(links, name), cfg.functions[name].disableXdp)
  }

  /** `links` lists the concrete link of every function once, in the order of `names`. */
  ghost predicate Lists(cfg: Config, fns: FnMap, names: seq<string>, links: seq<XdpLink>)
    requires fns.Keys <= cfg.functions.Keys
  {
    && |names| == |links| && Distinct(names) && Elements(names) == fns.Keys
    && forall i :: 0 <= i < |names| ==> links[i] == Concrete(cfg, fns, cfg.links, names[i])
  }

  // ---- The compiler -------------------------------------------------------------

  /** The error of the first link, from link `k` on, at which the scan stops. */
  function ScanFrom(cfg: Config, fns: FnMap, k: nat, count: nat): Option<BuildError>
    requires fns.Keys <= cfg.functions.Keys && k <= |cfg.links|
    decreases |cfg.links| - k
  {
    if k == |cfg.links| then
      if count == 0 then Some(NoRxHandler) else None
    else
      var l := cfg.links[k];
      match Fault(cfg, fns, l)
      case Some(e) => Some(e)
      case None =>
        var count' := count + if l.from == "rx" then |l.to| else 0;
        if count' > 1 then Some(TooManyRxHandlers) else ScanFrom(cfg, fns, k + 1, count')
  }

  /** The table being built resolves a name as the configuration does. */
  lemma TableResolves(cfg: Config, newFns: map<string, XdpLink>, fns: FnMap, name: string)
    requires fns.Keys <= cfg.functions.Keys && newFns.Keys == fns.Keys
    requires forall n <- fns :: newFns[n].uuid == fns[n] && newFns[n].disableXdp == cfg.functions[n].disableXdp
    ensures Resolve(cfg, fns, name) ==
      if Bare(name) in newFns then
        var target := newFns[Bare(name)];
        Some(if Forced(name) || target.disableXdp then Upcall(target.uuid) else Tailcall(target.uuid))
      else Special(name)
  {
  }

  lemma BadTargetFrom(cfg: Config, fns: FnMap, to: seq<string>, i: nat)
    requires fns.Keys <= cfg.functions.Keys && i < |to|
    ensures FirstBadTarget(cfg, fns, to[i..]) ==
      if Resolve(cfg, fns, to[i]).None? then Some(to[i]) else FirstBadTarget(cfg, fns, to[i + 1..])
  {
    assert to[i..][0] == to[i] && to[i..][1..] == to[i + 1..];
  }

  /** One target, looked up in the table as it is at the time. */
  method ResolveTarget(cfg: Config, newFns: map<string, XdpLink>, fns: FnMap, name: string)
    returns (r: Option<LinkAction>)
    requires fns.Keys <= cfg.functions.Keys && newFns.Keys == fns.Keys
    requires forall n <- fns :: newFns[n].uuid == fns[n] && newFns[n].disableXdp == cfg.functions[n].disableXdp
    ensures r == Resolve(cfg, fns, name)
  {
    TableResolves(cfg, newFns, fns, name);
    if Bare(name) in newFns {
      var target := newFns[Bare(name)];
      return Some(if Forced(name) || target.disableXdp then Upcall(target.uuid) else Tailcall(target.uuid));
    }
    return Special(name);
  }

  /** Collects the resolved targets of one link, or the first that fails. */
  method ResolveTargets(cfg: Config, newFns: map<string, XdpLink>, fns: FnMap, l: Link)
    returns (r: Result<seq<LinkAction>, BuildError>)
    requires fns.Keys <= cfg.functions.Keys && newFns.Keys == fns.Keys
    requires forall n <- fns :: newFns[n].uuid == fns[n] && newFns[n].disableXdp == cfg.functions[n].disableXdp
    ensures match FirstBadTarget(cfg, fns, l.to)
            case Some(name) => r == Failure(UndefinedTarget(l, name))
            case None => r == Success(Dests(cfg, fns, l.to))
  {
    var dests := [];
    var i := 0;
    while i < |l.to|
      invariant i <= |l.to| && |dests| == i
      invariant FirstBadTarget(cfg, fns, l.to) == FirstBadTarget(cfg, fns, l.to[i..])
      invariant forall j :: 0 <= j < i ==> Resolve(cfg, fns, l.to[j]) == Some(dests[j])
    {
      BadTargetFrom(cfg, fns, l.to, i);
      var act := ResolveTarget(cfg, newFns, fns, l.to[i]);
      if act.None? { return Failure(UndefinedTarget(l, l.to[i])); }
      dests := dests + [act.value];
      i := i + 1;
    }
    assert dests == Dests(cfg, fns, l.to);
    return Success(dests);
  }

  /** The table with every function named in `to` marked as root. */
  function Marked(newFns: map<string, XdpLink>, to: seq<string>): map<string, XdpLink> {
    map n <- newFns :: newFns[n].(root := newFns[n].root || n in to)
  }

  lemma MarkedSnoc(newFns: map<string, XdpLink>, to: seq<string>, name: string)
    requires name in newFns
    ensures Marked(newFns, to + [name]) == Marked(newFns, to)[name := newFns[name].(root := true)]
  {
  }

  /** Marks every destination of an `rx` link as root. */
  method MarkRoots(newFns: map<string, XdpLink>, l: Link) returns (r: Result<map<string, XdpLink>, BuildError>)
    ensures match FirstNonFunction(map n <- newFns :: newFns[n].uuid, l.to)
            case Some(name) => r == Failure(UndefinedTarget(l, name))
            case None => r == Success(Marked(newFns, l.to))
  {
    ghost var ids := map n <- newFns :: newFns[n].uuid;
    var marked := newFns;
    var i := 0;
    while i < |l.to|
      invariant i <= |l.to|
      invariant FirstNonFunction(ids, l.to) == FirstNonFunction(ids, l.to[i..])
      invariant marked == Marked(newFns, l.to[..i])
    {
      assert l.to[i..][0] == l.to[i] && l.to[i..][1..] == l.to[i + 1..];
      assert l.to[..i + 1] == l.to[..i] + [l.to[i]];
      if l.to[i] !in marked {
        return Failure(UndefinedTarget(l, l.to[i]));
      }
      MarkedSnoc(newFns, l.to[..i], l.to[i]);
      marked := marked[l.to[i] := marked[l.to[i]].(root := true)];
      i := i + 1;
    }
    assert l.to[..|l.to|] == l.to;
    return Success(marked);
  }

  function Concretes(cfg: Config, fns: FnMap, links: seq<Link>): map<string, XdpLink>
    requires fns.Keys <= cfg.functions.Keys
  {
    map n <- fns :: Concrete(cfg, fns, links, n)
  }

  /** State of a function after one more of its own links. */
  function Relink(cfg: Config, fns: FnMap, old_: XdpLinkState, l: Link): XdpLinkState
    requires fns.Keys <= cfg.functions.Keys
  {
    if IsTailLink(l) then Tail else if old_.Body? then Body(Dests(cfg, fns, l.to)) else old_
  }

  lemma StateOfSnoc(cfg: Config, fns: FnMap, links: seq<Link>, l: Link, name: string)
    requires fns.Keys <= cfg.functions.Keys
    ensures StateOf(cfg, fns, links + [l], name)
         == if l.from == name && name != "rx" then Relink(cfg, fns, StateOf(cfg, fns, links, name), l)
            else StateOf(cfg, fns, links, name)
    ensures FedByRx(links + [l], name) == (FedByRx(links, name) || (l.from == "rx" && name in l.to))
    ensures RxCount(links + [l]) == RxCount(links) + if l.from == "rx" then |l.to| else 0
  {
    var all := links + [l];
    assert all[..|all| - 1] == links && all[|all| - 1] == l;
    assert HasTailLink(all, name) == (HasTailLink(links, name) || (l.from == name && IsTailLink(l)));
  }

  /** One more link changes the table of concrete links exactly as the loop body does. */
  lemma ConcretesSnoc(cfg: Config, fns: FnMap, links: seq<Link>, l: Link)
    requires fns.Keys <= cfg.functions.Keys
    ensures var before := Concretes(cfg, fns, links);
      var after := Concretes(cfg, fns, links + [l]);
      if l.from == "rx" then after == Marked(before, l.to)
      else if l.from in fns then
        after == before[l.from := before[l.from].(state := Relink(cfg, fns, before[l.from].state, l))]
      else after == before
  {
    forall n | n in fns
      ensures Concrete(cfg, fns, links + [l], n)
           == var c := Concrete(cfg, fns, links, n);
              if l.from == "rx" then c.(root := c.root || n in l.to)
              else if n == l.from then c.(state := Relink(cfg, fns, c.state, l))
              else c
    {
      StateOfSnoc(cfg, fns, links, l, n);
    }
  }

  /** `links` lists the values of `table` once each, those of the keys `names` in order. */
  ghost predicate Tabulates(table: map<string, XdpLink>, names: seq<string>, links: seq<XdpLink>) {
    && |names| == |links| && Distinct(names) && Elements(names) == table.Keys
    && forall i :: 0 <= i < |names| ==> names[i] in table && links[i] == table[names[i]]
  }

  /** Lists a table in an arbitrary order, as collecting the values of a hash map does. */
  method CollectValues(table: map<string, XdpLink>) returns (links: seq<XdpLink>)
    ensures exists names :: Tabulates(table, names, links)
  {
    ghost var names: seq<string> := [];
    links := [];
    var todo := table.Keys;
    while todo != {}
      invariant |names| == |links| && Distinct(names)
      invariant todo <= table.Keys && Elements(names) == table.Keys - todo
      invariant forall i :: 0 <= i < |names| ==> names[i] in table && links[i] == table[names[i]]
      decreases todo
    {
      var n :| n in todo;
      assert n !in Elements(names) && Elements(names + [n]) == Elements(names) + {n};
      links, names, todo := links + [table[n]], names + [n], todo - {n};
    }
    assert Tabulates(table, names, links);
  }

  /** Loop body of the compiler: checks link `l` and enters it into the table. */
  method AddLink(cfg: Config, fns: FnMap, newFns: map<string, XdpLink>, l: Link, ghost done: seq<Link>)
    returns (r: Result<map<string, XdpLink>, BuildError>)
    requires fns.Keys <= cfg.functions.Keys && newFns == Concretes(cfg, fns, done)
    ensures match Fault(cfg, fns, l)
            case Some(e) => r == Failure(e)
            case None => r == Success(Concretes(cfg, fns, done + [l]))
  {
    ConcretesSnoc(cfg, fns, done, l);
    if l.from == "rx" {
      assert (map n <- newFns :: newFns[n].uuid) == fns;
      var marked := MarkRoots(newFns, l);
      return marked;
    }
    var dests := [];
    if !IsTailLink(l) {
      var resolved := ResolveTargets(cfg, newFns, fns, l);
      if resolved.Failure? { return Failure(resolved.error); }
      dests := resolved.value;
    }
    if l.from !in newFns { return Failure(UndefinedSource(l, l.from)); }
    var source := newFns[l.from];
    if IsTailLink(l) {
      return Success(newFns[l.from := source.(state := Tail)]);
    } else if source.state.Body? {
      return Success(newFns[l.from := source.(state := Body(dests))]);
    }
    assert newFns == newFns[l.from := source];
    return Success(newFns);
  }

  lemma NoLinksYet(cfg: Config, fns: FnMap)
    requires fns.Keys <= cfg.functions.Keys
    ensures Concretes(cfg, fns, []) == map n <- fns :: XdpLink(fns[n], Body([]), false, cfg.functions[n].disableXdp)
  {
  }

  /** The whole compiler: enters the links one by one, then lists the table. */
  method MakeConcrete(cfg: Config, fns: FnMap)
    returns (r: Result<seq<XdpLink>, BuildError>)
    requires fns.Keys <= cfg.functions.Keys
    ensures match ScanFrom(cfg, fns, 0, 0)
            case Some(e) => r == Failure(e)
            case None => r.Success? && exists names :: Lists(cfg, fns, names, r.value)
  {
    ghost var outcome, done := ScanFrom(cfg, fns, 0, 0), cfg.links[..0];
    var newFns := map n <- fns :: XdpLink(fns[n], Body([]), false, cfg.functions[n].disableXdp);
    NoLinksYet(cfg, fns);
    var rxCount: nat := 0;
    var i := 0;
    while i < |cfg.links|
      invariant i <= |cfg.links| && done == cfg.links[..i] && newFns == Concretes(cfg, fns, done)
      invariant outcome == ScanFrom(cfg, fns, i, rxCount)
    {
      var l := cfg.links[i];
      var added := AddLink(cfg, fns, newFns, l, done);
      if added.Failure? { return Failure(added.error); }
      newFns := added.value;
      if l.from == "rx" { rxCount := rxCount + |l.to|; }
      if rxCount > 1 { return Failure(TooManyRxHandlers); }
      done := done + [l];
      i := i + 1;
    }
    assert done == cfg.links;
    if rxCount == 0 { return Failure(NoRxHandler); }
    var links := CollectValues(newFns);
    ghost var names :| Tabulates(newFns, names, links);
    assert Lists(cfg, fns, names, links);
    return Success(links);
  }
}
