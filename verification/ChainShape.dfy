/** What an accepted configuration looks like after `MakeConcrete`, and what does not matter to it. */
module ChainShape {
  import opened Basics
  import opened Protocol
  import opened Chainsmith

  // ---- Acceptance ---------------------------------------------------------------

  lemma RxCountSplit(links: seq<Link>, k: nat)
    requires k < |links|
    ensures RxCount(links[..k + 1]) == RxCount(links[..k]) + if links[k].from == "rx" then |links[k].to| else 0
  {
    assert links[..k + 1][..k] == links[..k];
  }

  lemma {:induction false} RxCountGrows(links: seq<Link>, k: nat)
    requires k <= |links|
    ensures RxCount(links[..k]) <= RxCount(links)
    decreases |links| - k
  {
    if k == |links| {
      assert links[..k] == links;
    } else {
      RxCountSplit(links, k);
      RxCountGrows(links, k + 1);
    }
  }

  lemma {:induction false} NoBadTarget(cfg: Config, fns: FnMap, to: seq<string>)
    requires fns.Keys <= cfg.functions.Keys
    ensures FirstBadTarget(cfg, fns, to).None? <==> forall name <- to :: Resolve(cfg, fns, name).Some?
  {
    if to != [] {
      NoBadTarget(cfg, fns, to[1..]);
      assert forall name <- to :: name == to[0] || name in to[1..];
    }
  }

  lemma {:induction false} NoStrayRoot(fns: FnMap, to: seq<string>)
    ensures FirstNonFunction(fns, to).None? <==> forall name <- to :: name in fns
  {
    if to != [] {
      NoStrayRoot(fns, to[1..]);
      assert forall name <- to :: name == to[0] || name in to[1..];
    }
  }

  /** A link is faultless exactly when its ends resolve. */
  lemma FaultlessIff(cfg: Config, fns: FnMap, l: Link)
    requires fns.Keys <= cfg.functions.Keys
    ensures Fault(cfg, fns, l).None? <==>
      if l.from == "rx" then forall name <- l.to :: name in fns
      else l.from in fns && (IsTailLink(l) || forall name <- l.to :: Resolve(cfg, fns, name).Some?)
  {
    NoBadTarget(cfg, fns, l.to);
    NoStrayRoot(fns, l.to);
  }

  // ---- Which error is meant -------------------------------------------------------

  /** A target that stands for nothing, as the configuration spells it. */
  predicate Dangling(fns: FnMap, l: Link, name: string) {
    if l.from == "rx" then name !in fns
    else
      && (if name != "" && name[0] == '!' then name[1..] !in fns else name !in fns)
      && name != "tx" && name != "drop" && name != "abort" && name != "pass"
  }

  predicate Sound(fns: FnMap, l: Link) {
    && (l.from == "rx" || l.from in fns) && forall name <- l.to :: !Dangling(fns, l, name)
  }

  /** The first `k` links are in order: their ends exist, and `rx` has one destination at most. */
  ghost predicate SoundTo(cfg: Config, fns: FnMap, k: nat) {
    k <= |cfg.links| && (forall i :: 0 <= i < k ==> Sound(fns, cfg.links[i])) && RxCount(cfg.links[..k]) <= 1
  }

  /** `name` is the first of the link's targets that stands for nothing. */
  ghost predicate FirstDangling(fns: FnMap, l: Link, name: string) {
    exists i: nat :: i < |l.to| && l.to[i] == name && Dangling(fns, l, name)
      && forall j :: 0 <= j < i ==> !Dangling(fns, l, l.to[j])
  }

  /** What is wrong with link `k`, the first that is not in order: a target, then the source, and
      if both exist, one destination of `rx` too many. */
  ghost predicate BreaksAt(cfg: Config, fns: FnMap, k: nat, e: BuildError) {
    && k < |cfg.links| && SoundTo(cfg, fns, k)
    && var l := cfg.links[k];
       match e
       case UndefinedTarget(l', name) => l' == l && FirstDangling(fns, l, name)
       case UndefinedSource(l', name) =>
         l' == l && name == l.from && name != "rx" && name !in fns && forall t <- l.to :: !Dangling(fns, l, t)
       case TooManyRxHandlers => Sound(fns, l) && RxCount(cfg.links[..k + 1]) > 1
       case NoRxHandler => false
  }

  /** The error that a configuration deserves: that of its first bad link, or else that nothing
      is fed by `rx`. */
  ghost predicate BuildErrorIs(cfg: Config, fns: FnMap, e: BuildError) {
    if e.NoRxHandler? then SoundTo(cfg, fns, |cfg.links|) && RxCount(cfg.links) == 0
    else exists k: nat :: BreaksAt(cfg, fns, k, e)
  }

  lemma DanglingIff(cfg: Config, fns: FnMap, l: Link, name: string)
    requires fns.Keys <= cfg.functions.Keys
    ensures Dangling(fns, l, name) <==> if l.from == "rx" then name !in fns else Resolve(cfg, fns, name).None?
  {
  }

  lemma {:induction false} BadTargetIsFirst(cfg: Config, fns: FnMap, l: Link, i: nat)
    requires fns.Keys <= cfg.functions.Keys && i <= |l.to|
    requires forall j :: 0 <= j < i ==> !Dangling(fns, l, l.to[j])
    ensures match if l.from == "rx" then FirstNonFunction(fns, l.to[i..]) else FirstBadTarget(cfg, fns, l.to[i..])
            case Some(name) => FirstDangling(fns, l, name)
            case None => forall name <- l.to :: !Dangling(fns, l, name)
    decreases |l.to| - i
  {
    if i < |l.to| {
      DanglingIff(cfg, fns, l, l.to[i]);
      assert l.to[i..][0] == l.to[i] && l.to[i..][1..] == l.to[i + 1..];
      if !Dangling(fns, l, l.to[i]) { BadTargetIsFirst(cfg, fns, l, i + 1); }
    }
  }

  lemma FaultIs(cfg: Config, fns: FnMap, k: nat)
    requires fns.Keys <= cfg.functions.Keys && k < |cfg.links| && SoundTo(cfg, fns, k)
    ensures match Fault(cfg, fns, cfg.links[k])
            case Some(e) => BreaksAt(cfg, fns, k, e)
            case None => Sound(fns, cfg.links[k])
  {
    var l := cfg.links[k];
    BadTargetIsFirst(cfg, fns, l, 0);
    assert l.to[0..] == l.to;
  }

  /** What a scan has found out once it ends: the error, or that all is in order. */
  ghost predicate FoundOut(cfg: Config, fns: FnMap, found: Option<BuildError>) {
    match found
    case Some(e) => BuildErrorIs(cfg, fns, e)
    case None => SoundTo(cfg, fns, |cfg.links|) && RxCount(cfg.links) == 1
  }

  lemma OneLinkOn(cfg: Config, fns: FnMap, k: nat, next: nat)
    requires fns.Keys <= cfg.functions.Keys && next == k + 1 <= |cfg.links| && SoundTo(cfg, fns, k)
    ensures Fault(cfg, fns, cfg.links[k]).Some? ==> FoundOut(cfg, fns, Fault(cfg, fns, cfg.links[k]))
    ensures Fault(cfg, fns, cfg.links[k]).None? ==>
      if RxCount(cfg.links[..next]) > 1 then FoundOut(cfg, fns, Some(TooManyRxHandlers)) else SoundTo(cfg, fns, next)
  {
    FaultIs(cfg, fns, k);
    match Fault(cfg, fns, cfg.links[k])
    case Some(e) => assert BreaksAt(cfg, fns, k, e) && !e.NoRxHandler?;
    case None =>
      if RxCount(cfg.links[..next]) > 1 { assert BreaksAt(cfg, fns, k, TooManyRxHandlers); }
  }

  lemma ScanEnds(cfg: Config, fns: FnMap, count: nat)
    requires fns.Keys <= cfg.functions.Keys && SoundTo(cfg, fns, |cfg.links|) && count == RxCount(cfg.links) <= 1
    ensures FoundOut(cfg, fns, if count == 0 then Some(NoRxHandler) else None)
  {
  }

  lemma {:induction false} ScanFinds(cfg: Config, fns: FnMap, k: nat, count: nat)
    requires fns.Keys <= cfg.functions.Keys && SoundTo(cfg, fns, k) && count == RxCount(cfg.links[..k])
    ensures FoundOut(cfg, fns, ScanFrom(cfg, fns, k, count))
    decreases |cfg.links| - k
  {
    if k == |cfg.links| {
      assert cfg.links[..k] == cfg.links;
      ScanEnds(cfg, fns, count);
    } else {
      var next := k + 1;
      OneLinkOn(cfg, fns, k, next);
      RxCountSplit(cfg.links, k);
      var count' := RxCount(cfg.links[..next]);
      if Fault(cfg, fns, cfg.links[k]).None? && count' <= 1 { ScanFinds(cfg, fns, next, count'); }
    }
  }

  lemma BreaksOnce(cfg: Config, fns: FnMap, k: nat, k': nat, e: BuildError, e': BuildError)
    requires BreaksAt(cfg, fns, k, e) && BreaksAt(cfg, fns, k', e')
    ensures k == k' && e == e'
  {
    if k < k' {
      BreaksBefore(cfg, fns, k, k', e);
    } else if k' < k {
      BreaksBefore(cfg, fns, k', k, e');
    }
  }

  lemma BreaksBefore(cfg: Config, fns: FnMap, k: nat, k': nat, e: BuildError)
    requires BreaksAt(cfg, fns, k, e) && k < k' <= |cfg.links|
    ensures !SoundTo(cfg, fns, k')
  {
    RxCountGrows(cfg.links[..k'], k + 1);
    assert cfg.links[..k'][..k + 1] == cfg.links[..k + 1];
  }

  /** No configuration deserves two errors, and one that is accepted deserves none. */
  lemma OneError(cfg: Config, fns: FnMap, e: BuildError, e': BuildError)
    requires BuildErrorIs(cfg, fns, e) && BuildErrorIs(cfg, fns, e')
    ensures e == e'
  {
    if e.NoRxHandler? || e'.NoRxHandler? {
      if !e.NoRxHandler? {
        var k: nat :| BreaksAt(cfg, fns, k, e);
        BreaksBefore(cfg, fns, k, |cfg.links|, e);
      }
      if !e'.NoRxHandler? {
        var k: nat :| BreaksAt(cfg, fns, k, e');
        BreaksBefore(cfg, fns, k, |cfg.links|, e');
      }
    } else {
      var k: nat :| BreaksAt(cfg, fns, k, e);
      var k': nat :| BreaksAt(cfg, fns, k', e');
      BreaksOnce(cfg, fns, k, k', e, e');
    }
  }

  lemma AcceptedIsSound(cfg: Config, fns: FnMap)
    requires fns.Keys <= cfg.functions.Keys
    ensures Accepts(cfg, fns) <==> SoundTo(cfg, fns, |cfg.links|) && RxCount(cfg.links) == 1
  {
    assert cfg.links[..|cfg.links|] == cfg.links;
    forall i | 0 <= i < |cfg.links|
      ensures Sound(fns, cfg.links[i]) <==> Fault(cfg, fns, cfg.links[i]).None?
    {
      SoundIff(cfg, fns, cfg.links[i]);
    }
  }

  lemma SoundIff(cfg: Config, fns: FnMap, l: Link)
    requires fns.Keys <= cfg.functions.Keys
    ensures Sound(fns, l) <==> Fault(cfg, fns, l).None?
  {
    FaultlessIff(cfg, fns, l);
    forall name | name in l.to
      ensures Dangling(fns, l, name) <==> if l.from == "rx" then name !in fns else Resolve(cfg, fns, name).None?
    {
      DanglingIff(cfg, fns, l, name);
    }
  }

  /** Compilation succeeds exactly when every link resolves and `rx` has one destination in all. */
  lemma SucceedsIffAccepts(cfg: Config, fns: FnMap)
    requires fns.Keys <= cfg.functions.Keys
    ensures ScanFrom(cfg, fns, 0, 0).None? <==> Accepts(cfg, fns)
  {
    ScanFinds(cfg, fns, 0, 0);
    AcceptedIsSound(cfg, fns);
    match ScanFrom(cfg, fns, 0, 0)
    case None =>
    case Some(e) =>
      if !e.NoRxHandler? {
        var k: nat :| BreaksAt(cfg, fns, k, e);
        BreaksBefore(cfg, fns, k, |cfg.links|, e);
      }
  }

  /** The compiler reports exactly the error that the configuration deserves. */
  lemma ReportsTheError(cfg: Config, fns: FnMap, e: BuildError)
    requires fns.Keys <= cfg.functions.Keys
    ensures ScanFrom(cfg, fns, 0, 0) == Some(e) <==> BuildErrorIs(cfg, fns, e)
  {
    ScanFinds(cfg, fns, 0, 0);
    match ScanFrom(cfg, fns, 0, 0)
    case Some(found) =>
      if BuildErrorIs(cfg, fns, e) { OneError(cfg, fns, e, found); }
    case None =>
      if BuildErrorIs(cfg, fns, e) && !e.NoRxHandler? {
        var k: nat :| BreaksAt(cfg, fns, k, e);
        BreaksBefore(cfg, fns, k, |cfg.links|, e);
      }
  }

  // ---- Shape --------------------------------------------------------------------

  lemma FedSnoc(links: seq<Link>, n: string)
    requires links != []
    ensures var k := |links| - 1;
      FedByRx(links, n) <==> FedByRx(links[..k], n) || (links[k].from == "rx" && n in links[k].to)
  {
    var k := |links| - 1;
    assert links == links[..k] + [links[k]];
  }

  ghost predicate OnlyFed(links: seq<Link>, root: string) {
    FedByRx(links, root) && forall n :: FedByRx(links, n) ==> n == root
  }

  lemma {:induction false} OneRxDestination(links: seq<Link>) returns (root: string)
    requires RxCount(links) == 1
    ensures OnlyFed(links, root)
  {
    var k := |links| - 1;
    var l, front := links[k], links[..k];
    if l.from == "rx" && |l.to| == 1 {
      NoRxDestination(front);
      root := l.to[0];
    } else {
      root := OneRxDestination(front);
    }
    FedSnoc(links, root);
    forall n | FedByRx(links, n)
      ensures n == root
    {
      FedSnoc(links, n);
    }
  }

  lemma {:induction false} NoRxDestination(links: seq<Link>)
    requires RxCount(links) == 0
    ensures forall n :: !FedByRx(links, n)
  {
    if links != [] {
      var k := |links| - 1;
      NoRxDestination(links[..k]);
      forall n
        ensures !FedByRx(links, n)
      {
        FedSnoc(links, n);
      }
    }
  }

  /** An accepted configuration has exactly one root, and it is one of the functions. */
  lemma ExactlyOneRoot(cfg: Config, fns: FnMap) returns (root: string)
    requires fns.Keys <= cfg.functions.Keys && Accepts(cfg, fns)
    ensures root in fns && FedByRx(cfg.links, root)
    ensures forall n :: FedByRx(cfg.links, n) ==> n == root
  {
    root := OneRxDestination(cfg.links);
    var l :| l in cfg.links && l.from == "rx" && root in l.to;
    FaultlessIff(cfg, fns, l);
  }

  lemma {:induction false} LastLinkIs(links: seq<Link>, name: string)
    ensures match LastLink(links, name)
            case Some(l) => l in links && l.from == name
            case None => forall l <- links :: l.from != name
  {
    if links != [] {
      LastLinkIs(links[..|links| - 1], name);
      assert forall l <- links :: l in links[..|links| - 1] || l == links[|links| - 1];
    }
  }

  ghost predicate IsLastFrom(links: seq<Link>, name: string, i: nat) {
    i < |links| && links[i].from == name && forall j :: i < j < |links| ==> links[j].from != name
  }

  /** The link whose targets a function gets is the one after which no other link starts at it. */
  lemma {:induction false} LastLinkIsLast(links: seq<Link>, name: string)
    ensures match LastLink(links, name)
            case Some(l) => exists i: nat :: IsLastFrom(links, name, i) && links[i] == l
            case None => true
  {
    if links != [] {
      var n := |links| - 1;
      if links[n].from == name {
        assert IsLastFrom(links, name, n);
      } else if LastLink(links[..n], name).Some? {
        LastLinkIsLast(links[..n], name);
        var i: nat :| IsLastFrom(links[..n], name, i) && links[..n][i] == LastLink(links, name).value;
        LastFromOn(links, name, i, n);
      }
    }
  }

  lemma LastFromOn(links: seq<Link>, name: string, i: nat, n: nat)
    requires n + 1 == |links| && links[n].from != name && IsLastFrom(links[..n], name, i)
    ensures IsLastFrom(links, name, i)
  {
    forall j | i < j < |links|
      ensures links[j].from != name
    {
      if j < n { assert links[..n][j] == links[j]; }
    }
  }

  /** A function with several links: a chain ends there if any of them is exactly to `tx`, and
      otherwise the targets of the last one count. */
  lemma StateOfManyLinks(cfg: Config, fns: FnMap, links: seq<Link>, name: string)
    requires fns.Keys <= cfg.functions.Keys && name != "rx"
    ensures StateOf(cfg, fns, links, name).Tail? <==> exists l <- links :: l.from == name && l.to == ["tx"]
    ensures forall i: nat :: IsLastFrom(links, name, i) && StateOf(cfg, fns, links, name).Body? ==>
      StateOf(cfg, fns, links, name).acts == Dests(cfg, fns, links[i].to)
    ensures (forall l <- links :: l.from != name) ==> StateOf(cfg, fns, links, name) == Body([])
  {
    LastLinkIs(links, name);
    LastLinkIsLast(links, name);
    forall i: nat | IsLastFrom(links, name, i)
      ensures LastLink(links, name) == Some(links[i])
    {
      assert links[i] in links;
      var j: nat :| IsLastFrom(links, name, j) && links[j] == LastLink(links, name).value;
      assert i == j;
    }
  }

  /** The kind of every action: an NF target is an upcall when forced or barred from the
      kernel and a tailcall otherwise, and its id belongs to the chain. */
  lemma ActionsOfAcceptedChain(cfg: Config, fns: FnMap, name: string, i: nat)
    requires fns.Keys <= cfg.functions.Keys && Accepts(cfg, fns) && name in fns
    requires var st := StateOf(cfg, fns, cfg.links, name); st.Body? && i < |st.acts|
    ensures exists l <- cfg.links ::
      && l.from == name && i < |l.to|
      && var act := StateOf(cfg, fns, cfg.links, name).acts[i];
         var target := Bare(l.to[i]);
         if target in fns then
           act == if Forced(l.to[i]) || cfg.functions[target].disableXdp
                   then Upcall(fns[target]) else Tailcall(fns[target])
         else act.NextNf().None? && Some(act) == Special(l.to[i])
  {
    LastLinkIs(cfg.links, name);
    var l := LastLink(cfg.links, name).value;
    FaultlessIff(cfg, fns, l);
    assert !IsTailLink(l);
    assert Resolve(cfg, fns, l.to[i]).Some?;
  }

  // ---- Order of links -----------------------------------------------------------

  /** No function is the source of two links (links from `rx` are not restricted). */
  ghost predicate OneLinkPerSource(links: seq<Link>) {
    forall i, j :: 0 <= i < j < |links| && links[i].from == links[j].from ==> links[i].from == "rx"
  }

  lemma RxCountSnoc(links: seq<Link>, l: Link)
    ensures RxCount(links + [l]) == RxCount(links) + if l.from == "rx" then |l.to| else 0
  {
    RxCountSplit(links + [l], |links|);
    assert (links + [l])[..|links| + 1] == links + [l] && (links + [l])[..|links|] == links;
  }

  function Without<T>(xs: seq<T>, k: nat): (r: seq<T>)
    requires k < |xs|
    ensures |r| == |xs| - 1
  {
    xs[..k] + xs[k + 1..]
  }

  lemma WithoutSnoc<T>(xs: seq<T>, k: nat, n: nat)
    requires k < n && n + 1 == |xs|
    ensures xs[..n][k] == xs[k] && Without(xs, k) == Without(xs[..n], k) + [xs[n]]
  {
  }

  lemma {:induction false} RxCountRemove(links: seq<Link>, k: nat)
    requires k < |links|
    ensures RxCount(links) == RxCount(Without(links, k)) + if links[k].from == "rx" then |links[k].to| else 0
    decreases |links|
  {
    var n := |links| - 1;
    if k == n {
      assert Without(links, k) == links[..n];
    } else {
      RxCountRemove(links[..n], k);
      RxCountSnoc(Without(links[..n], k), links[n]);
      WithoutSnoc(links, k, n);
    }
  }

  lemma RemovedOne<T>(xs: seq<T>, k: nat)
    requires k < |xs|
    ensures multiset(xs) == multiset(Without(xs, k)) + multiset{xs[k]}
  {
    assert xs == xs[..k] + [xs[k]] + xs[k + 1..];
  }

  /** Where the last element of one order sits in the other, and what is left without it. */
  lemma LastInOther<T>(a: seq<T>, b: seq<T>) returns (k: nat)
    requires multiset(a) == multiset(b) && a != []
    ensures k < |b| && b[k] == a[|a| - 1]
    ensures multiset(a[..|a| - 1]) == multiset(Without(b, k))
  {
    var n := |a| - 1;
    assert a[n] in multiset(b);
    k :| 0 <= k < |b| && b[k] == a[n];
    RemovedOne(b, k);
    assert a == a[..n] + [a[n]];
    assert multiset(a[..n]) == multiset(a) - multiset{a[n]};
    assert multiset(Without(b, k)) == multiset(b) - multiset{b[k]};
  }

  lemma {:induction false} RxCountPermutes(a: seq<Link>, b: seq<Link>)
    requires multiset(a) == multiset(b)
    ensures RxCount(a) == RxCount(b)
    decreases |a|
  {
    if a == [] {
      assert |multiset(b)| == 0;
    } else {
      var k := LastInOther(a, b);
      RxCountPermutes(a[..|a| - 1], Without(b, k));
      RxCountRemove(b, k);
    }
  }

  /** Whether every source has one link does not depend on the order of the links. */
  lemma {:induction false} OneLinkPermutes(a: seq<Link>, b: seq<Link>)
    requires multiset(a) == multiset(b) && OneLinkPerSource(a)
    ensures OneLinkPerSource(b)
    decreases |a|
  {
    if a == [] {
      assert |multiset(b)| == 0;
    } else {
      var n := |a| - 1;
      var k := LastInOther(a, b);
      OneLinkPermutes(a[..n], Without(b, k));
      forall l | l in Without(b, k)
        ensures l.from == b[k].from ==> l.from == "rx"
      {
        assert l in multiset(a[..n]);
      }
      forall i, j | 0 <= i < j < |b| && b[i].from == b[j].from
        ensures b[i].from == "rx"
      {
        SameSourceIsRx(b, k, i, j);
      }
    }
  }

  lemma SameSourceIsRx(b: seq<Link>, k: nat, i: nat, j: nat)
    requires k < |b| && i < j < |b| && b[i].from == b[j].from
    requires OneLinkPerSource(Without(b, k))
    requires forall l <- Without(b, k) :: l.from == b[k].from ==> l.from == "rx"
    ensures b[i].from == "rx"
  {
    var rest := Without(b, k);
    if i == k {
      assert rest[j - 1] == b[j];
    } else if j == k {
      assert rest[i] == b[i];
    } else {
      var i', j' := if i < k then i else i - 1, if j < k then j else j - 1;
      assert rest[i'] == b[i] && rest[j'] == b[j];
    }
  }

  lemma UniqueLink(links: seq<Link>, name: string, l: Link)
    requires OneLinkPerSource(links) && name != "rx" && l in links && l.from == name
    ensures LastLink(links, name) == Some(l)
  {
    LastLinkIs(links, name);
  }

  lemma SameLinks(a: seq<Link>, b: seq<Link>, l: Link)
    requires multiset(a) == multiset(b)
    ensures l in a <==> l in b
  {
    assert l in a <==> l in multiset(a);
    assert l in b <==> l in multiset(b);
  }

  lemma SameStates(cfg: Config, cfg': Config, fns: FnMap, name: string)
    requires fns.Keys <= cfg.functions.Keys && cfg'.functions == cfg.functions
    requires forall l :: l in cfg.links <==> l in cfg'.links
    requires OneLinkPerSource(cfg.links) && OneLinkPerSource(cfg'.links)
    ensures StateOf(cfg', fns, cfg'.links, name) == StateOf(cfg, fns, cfg.links, name)
  {
    if name != "rx" {
      assert HasTailLink(cfg'.links, name) == HasTailLink(cfg.links, name);
      LastLinkIs(cfg.links, name);
      LastLinkIs(cfg'.links, name);
      match LastLink(cfg.links, name)
      case Some(l) =>
        UniqueLink(cfg'.links, name, l);
        assert Dests(cfg', fns, l.to) == Dests(cfg, fns, l.to);
      case None =>
        assert LastLink(cfg'.links, name).None?;
    }
  }

  /** With one link per function, the order of the links is irrelevant: both orders are
      refused, or both give every function the same concrete link. */
  lemma OrderIsIrrelevant(cfg: Config, cfg': Config, fns: FnMap, name: string)
    requires fns.Keys <= cfg.functions.Keys && cfg'.functions == cfg.functions
    requires multiset(cfg'.links) == multiset(cfg.links)
    requires OneLinkPerSource(cfg.links)
    ensures Accepts(cfg', fns) <==> Accepts(cfg, fns)
    ensures name in fns ==> Concrete(cfg', fns, cfg'.links, name) == Concrete(cfg, fns, cfg.links, name)
  {
    OneLinkPermutes(cfg.links, cfg'.links);
    forall l
      ensures l in cfg.links <==> l in cfg'.links
    {
      SameLinks(cfg.links, cfg'.links, l);
    }
    assert forall n: string :: Resolve(cfg', fns, n) == Resolve(cfg, fns, n);
    forall l | l in cfg.links
      ensures Fault(cfg', fns, l).None? <==> Fault(cfg, fns, l).None?
    {
      FaultlessIff(cfg, fns, l);
      FaultlessIff(cfg', fns, l);
    }
    RxCountPermutes(cfg.links, cfg'.links);
    SameStates(cfg, cfg', fns, name);
    assert FedByRx(cfg'.links, name) == FedByRx(cfg.links, name);
  }
}
