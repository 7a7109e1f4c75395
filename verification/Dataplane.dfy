/**
  One pass of a dataplane thread over the packets it received: each packet is walked through
  the rest of its chain, and the scratch array is split in place into the frames to send and
  the frames to recycle.
*/
module Dataplane {
  import opened Basics
  import opened Protocol
  import opened Handoff
  import opened Execution
  import opened FrameProtocol

  // ---- The userland walk of one packet --------------------------------------------

  function UserStep<P>(rt: Runtime, nf: (Uuid, P) -> (P, nat), id: Uuid, p: P): (Pos, P) {
    if id !in rt.dylibs then (Stuck, p)
    else
      var (p', out) := nf(id, p);
      (AfterUser(rt, id, out), p')
  }

  /** The walk after at most `n` NF executions in userland. */
  function After<P>(rt: Runtime, nf: (Uuid, P) -> (P, nat), pos: Pos, p: P, n: nat): (Pos, P)
    decreases n
  {
    if n == 0 || !pos.User? then (pos, p)
    else
      var (pos', p') := UserStep(rt, nf, pos.id, p);
      After(rt, nf, pos', p', n - 1)
  }

  ghost predicate Halts<P>(rt: Runtime, nf: (Uuid, P) -> (P, nat), pos: Pos, p: P) {
    exists n :: After(rt, nf, pos, p, n).0.UDone?
  }

  ghost function Outcome<P>(rt: Runtime, nf: (Uuid, P) -> (P, nat), pos: Pos, p: P): (Pos, P)
    requires Halts(rt, nf, pos, p)
  {
    var n :| After(rt, nf, pos, p, n).0.UDone?;
    After(rt, nf, pos, p, n)
  }

  lemma {:induction false} HaltedOnce<P>(rt: Runtime, nf: (Uuid, P) -> (P, nat), pos: Pos, p: P, n: nat, m: nat)
    requires After(rt, nf, pos, p, n).0.UDone? && After(rt, nf, pos, p, m).0.UDone?
    ensures After(rt, nf, pos, p, n) == After(rt, nf, pos, p, m)
    decreases n
  {
    if pos.User? {
      assert n > 0 && m > 0;
      var (pos', p') := UserStep(rt, nf, pos.id, p);
      HaltedOnce(rt, nf, pos', p', n - 1, m - 1);
    }
  }

  lemma OutcomeIs<P>(rt: Runtime, nf: (Uuid, P) -> (P, nat), pos: Pos, p: P, n: nat)
    requires After(rt, nf, pos, p, n).0.UDone?
    ensures Halts(rt, nf, pos, p) && Outcome(rt, nf, pos, p) == After(rt, nf, pos, p, n)
  {
    var m :| After(rt, nf, pos, p, m).0.UDone? && Outcome(rt, nf, pos, p) == After(rt, nf, pos, p, m);
    HaltedOnce(rt, nf, pos, p, n, m);
  }

  /** The inner loop: follow the chain from `start` until the packet is decided. */
  method WalkChain<P>(rt: Runtime, nf: (Uuid, P) -> (P, nat), start: Uuid, p0: P) returns (sent: bool, p: P)
    requires Halts(rt, nf, User(start), p0)
    ensures (UDone(sent), p) == Outcome(rt, nf, User(start), p0)
  {
    ghost var n: nat :| After(rt, nf, User(start), p0, n).0.UDone?;
    OutcomeIs(rt, nf, User(start), p0, n);
    var curr := start;
    p := p0;
    while true
      invariant After(rt, nf, User(curr), p, n) == Outcome(rt, nf, User(start), p0)
      invariant After(rt, nf, User(curr), p, n).0.UDone?
      decreases n
    {
      assert curr in rt.dylibs;
      var (p', out) := nf(curr, p);
      p := p';
      match rt.st.linkStates[curr].Act(out).value {
        case Tailcall(id) => curr := id;
        case Upcall(id) => curr := id;
        case Tx => return true, p;
        case _ => return false, p;
      }
      n := n - 1;
    }
  }

  // ---- What a pass does, on values ------------------------------------------------

  /** A received frame: the bytes in front of the packet, and the packet. */
  datatype Buffer<K> = Buffer(headroom: seq<Byte>, body: K)

  /** NFs over packets of type K and common state of type S. */
  type NfOver<!K, !S> = (Uuid, (K, S)) -> ((K, S), nat)

  datatype Decision<K, S> = Decision(sent: bool, buf: Buffer<K>, world: S)

  /** Userland can decide a packet: its metadata is malformed, or names a branch of a loaded
      link from which the walk ends. */
  ghost predicate Decidable<K(!new), S(!new)>(rt: Runtime, nf: NfOver<K, S>, buf: Buffer<K>, world: S) {
    var pos := Resume(rt, buf.headroom);
    pos == UDone(false) || (pos.User? && Halts(rt, nf, pos, (buf.body, world)))
  }

  /** Malformed metadata rejects the packet unprocessed; otherwise its walk decides. */
  ghost function Decide<K(!new), S(!new)>(rt: Runtime, nf: NfOver<K, S>, buf: Buffer<K>, world: S): (d: Decision<K, S>)
    requires Decidable(rt, nf, buf, world)
    ensures d.buf.headroom == buf.headroom
  {
    var pos := Resume(rt, buf.headroom);
    if pos.User? then
      var (end, p) := Outcome(rt, nf, pos, (buf.body, world));
      Decision(end == UDone(true), buf.(body := p.0), p.1)
    else Decision(false, buf, world)
  }

  type Memory<K> = map<Frame, Buffer<K>>

  datatype Processed<K, S> = Processed(kept: seq<Frame>, dropped: seq<Frame>, mem: Memory<K>, world: S)

  /** What is left to do once the first frame is decided: a rejected frame is replaced by the last. */
  function Remaining(q: seq<Frame>, sent: bool): (rest: seq<Frame>)
    requires q != []
    ensures |rest| == |q| - 1
  {
    var n := |q| - 1;
    if sent || n == 0 then q[1..] else [q[n]] + q[1..n]
  }

  /** Every packet can be decided when its turn comes. */
  ghost predicate Smooth<K(!new), S(!new)>(rt: Runtime, nf: NfOver<K, S>, q: seq<Frame>, mem: Memory<K>, world: S)
    decreases |q|
  {
    q == []
    || (q[0] in mem && Decidable(rt, nf, mem[q[0]], world)
        && var d := Decide(rt, nf, mem[q[0]], world);
           Smooth(rt, nf, Remaining(q, d.sent), mem[q[0] := d.buf], d.world))
  }

  /** The pass in processing order: kept frames, then rejected ones in the order of rejection. */
  ghost function Process<K(!new), S(!new)>(rt: Runtime, nf: NfOver<K, S>, q: seq<Frame>, mem: Memory<K>,
                                           world: S): Processed<K, S>
    requires Smooth(rt, nf, q, mem, world)
    decreases |q|
  {
    if q == [] then Processed([], [], mem, world)
    else
      var d := Decide(rt, nf, mem[q[0]], world);
      var r := Process(rt, nf, Remaining(q, d.sent), mem[q[0] := d.buf], d.world);
      if d.sent then r.(kept := [q[0]] + r.kept) else r.(dropped := [q[0]] + r.dropped)
  }

  // ---- The pass itself, in place --------------------------------------------------

  class XskData {
    const frames: array<Frame>
    const txCap: nat
    var rx: seq<Frame>
    var tx: seq<Frame>

    constructor (descs: seq<Frame>, txCap: nat)
      ensures fresh(frames) && frames[..] == descs && this.txCap == txCap && rx == [] && tx == []
    {
      frames := new Frame[|descs|](i requires 0 <= i < |descs| => descs[i]);
      this.txCap := txCap;
      rx, tx := [], [];
    }

    /** Takes `k` descriptors off the receive queue into the front of the scratch array. */
    method Consume(k: nat)
      requires k <= |rx| && k <= frames.Length
      modifies this`rx, frames
      ensures frames[..k] == old(rx)[..k] && frames[k..] == old(frames[k..]) && rx == old(rx)[k..]
    {
      var i := 0;
      while i < k
        invariant i <= k && rx == old(rx)
        invariant frames[..i] == rx[..i] && frames[i..] == old(frames[i..])
      {
        frames[i] := rx[i];
        i := i + 1;
      }
      rx := rx[k..];
    }

    /** Puts descriptors on the tx queue if all of them fit. */
    method Produce(descs: seq<Frame>) returns (n: nat)
      modifies this`tx
      ensures if |old(tx)| + |descs| <= txCap then n == |descs| && tx == old(tx) + descs else n == 0 && tx == old(tx)
    {
      if |tx| + |descs| <= txCap {
        tx := tx + descs;
        return |descs|;
      }
      return 0;
    }
  }

  /** Packet memory shared by all sockets, and the state that the NFs keep. */
  class Host<K, S> {
    var mem: Memory<K>
    var world: S

    constructor (mem: Memory<K>, world: S)
      ensures this.mem == mem && this.world == world
    {
      this.mem, this.world := mem, world;
    }
  }

  /** Decides one buffer: reads its metadata, then walks it. */
  method DecideBuffer<K(!new), S(!new)>(rt: Runtime, nf: NfOver<K, S>, buf: Buffer<K>,
                                        world: S) returns (d: Decision<K, S>)
    requires Decidable(rt, nf, buf, world)
    ensures d == Decide(rt, nf, buf, world)
  {
    match ReadMeta(rt.endian, buf.headroom) {
      case None => return Decision(false, buf, world);
      case Some((progId, act)) =>
        var next := rt.st.linkStates[rt.st.instanceIds[progId]].Act(act).value.NextNf().value;
        var sent, p := WalkChain(rt, nf, next, (buf.body, world));
        return Decision(sent, buf.(body := p.0), p.1);
    }
  }

  /** A whole pass whose first part kept `done` and rejected `out`, and whose rest is `now`. */
  ghost predicate Splits<K, S>(whole: Processed<K, S>, done: seq<Frame>, out: seq<Frame>, now: Processed<K, S>) {
    && whole.kept == done + now.kept && whole.dropped == Reverse(out) + now.dropped
    && whole.mem == now.mem && whole.world == now.world
  }

  /** Where a pass stands: `done` is kept, `out` rejected, and processing `q` completes it. */
  ghost predicate Midway<K(!new), S(!new)>(rt: Runtime, nf: NfOver<K, S>, whole: Processed<K, S>, mem: Memory<K>,
                                           world: S, done: seq<Frame>, q: seq<Frame>, out: seq<Frame>) {
    Smooth(rt, nf, q, mem, world) && Splits(whole, done, out, Process(rt, nf, q, mem, world))
  }

  lemma SplitsOnward<K, S>(whole: Processed<K, S>, done: seq<Frame>, out: seq<Frame>, now: Processed<K, S>,
                           f: Frame, sent: bool, next: Processed<K, S>)
    requires Splits(whole, done, out, now)
    requires now == if sent then next.(kept := [f] + next.kept) else next.(dropped := [f] + next.dropped)
    ensures Splits(whole, if sent then done + [f] else done, if sent then out else [f] + out, next)
  {
    if sent {
      assert done + ([f] + next.kept) == (done + [f]) + next.kept;
    } else {
      assert ([f] + out)[1..] == out;
      assert Reverse(out) + ([f] + next.dropped) == Reverse([f] + out) + next.dropped;
    }
  }

  /** Deciding the first undecided frame leads from one midway point to the next. */
  lemma OnePacket<K(!new), S(!new)>(rt: Runtime, nf: NfOver<K, S>, whole: Processed<K, S>, mem: Memory<K>, world: S,
                                    done: seq<Frame>, q: seq<Frame>, out: seq<Frame>, d: Decision<K, S>)
    requires q != [] && Midway(rt, nf, whole, mem, world, done, q, out)
    requires d == Decide(rt, nf, mem[q[0]], world)
    ensures Midway(rt, nf, whole, mem[q[0] := d.buf], d.world, if d.sent then done + [q[0]] else done,
                   Remaining(q, d.sent), if d.sent then out else [q[0]] + out)
  {
    var next := Process(rt, nf, Remaining(q, d.sent), mem[q[0] := d.buf], d.world);
    SplitsOnward(whole, done, out, Process(rt, nf, q, mem, world), q[0], d.sent, next);
  }

  lemma KeepFront(a: seq<Frame>, i: nat, n: nat)
    requires i < n <= |a|
    ensures a[..i + 1] == a[..i] + [a[i]] && a[i + 1..n] == Remaining(a[i..n], true)
  {
  }

  function Swapped(a: seq<Frame>, i: nat, j: nat): seq<Frame>
    requires i < |a| && j < |a|
  {
    a[i := a[j]][j := a[i]]
  }

  /** What is left of `a[i..n]` once its first element gives way to its last. */
  lemma RemainingSlice(a: seq<Frame>, i: nat, n: nat, last: nat)
    requires i <= last && last + 1 == n <= |a|
    ensures Remaining(a[i..n], false) == if i < last then [a[last]] + a[i + 1..last] else []
  {
    var q := a[i..n];
    if i < last {
      SubSlice(a, i, n, 1, last - i);
      assert |q| - 1 == last - i && q[last - i] == a[last];
    }
  }

  /** Swapping the rejected frame with the last undecided one leaves what remains. */
  lemma SwappedMiddle(a: seq<Frame>, i: nat, last: nat, n: nat, b: seq<Frame>)
    requires i <= last && last + 1 == n <= |a| && b == Swapped(a, i, last)
    ensures b[i..last] == Remaining(a[i..n], false)
  {
    RemainingSlice(a, i, n, last);
    if i < last {
      assert b[i + 1..last] == a[i + 1..last];
      assert b[i..last] == [b[i]] + b[i + 1..last];
    }
  }

  lemma SwappedEnds(a: seq<Frame>, i: nat, last: nat, k: nat, b: seq<Frame>)
    requires i <= last < k <= |a| && b == Swapped(a, i, last)
    ensures b[..i] == a[..i] && b[last..k] == [a[i]] + a[last + 1..k] && b[k..] == a[k..]
  {
    assert b[last..k] == [b[last]] + b[last + 1..k];
    assert b[last + 1..k] == a[last + 1..k];
  }

  /** Midway at a point of the scratch array: `a[..i]` is kept, `a[n..k]` rejected. */
  ghost predicate MidwayAt<K(!new), S(!new)>(rt: Runtime, nf: NfOver<K, S>, whole: Processed<K, S>, mem: Memory<K>,
                                             world: S, a: seq<Frame>, i: nat, n: nat, k: nat) {
    i <= n <= k <= |a| && Midway(rt, nf, whole, mem, world, a[..i], a[i..n], a[n..k])
  }

  lemma PassBegins<K(!new), S(!new)>(rt: Runtime, nf: NfOver<K, S>, mem: Memory<K>, world: S, a: seq<Frame>, k: nat)
    requires k <= |a| && Smooth(rt, nf, a[..k], mem, world)
    ensures MidwayAt(rt, nf, Process(rt, nf, a[..k], mem, world), mem, world, a, 0, k, k)
  {
    assert a[..0] == [] && a[0..k] == a[..k] && a[k..k] == [];
    var now := Process(rt, nf, a[..k], mem, world);
    assert [] + now.kept == now.kept && [] + now.dropped == now.dropped;
  }

  lemma PassEnds<K(!new), S(!new)>(rt: Runtime, nf: NfOver<K, S>, whole: Processed<K, S>, mem: Memory<K>, world: S,
                                   a: seq<Frame>, n: nat, k: nat)
    requires MidwayAt(rt, nf, whole, mem, world, a, n, n, k)
    ensures a[..n] == whole.kept && a[n..k] == Reverse(whole.dropped) && mem == whole.mem && world == whole.world
  {
    var done, out := a[..n], a[n..k];
    assert a[n..n] == [] && Reverse(Reverse(out)) == out && Reverse(out) + [] == Reverse(out) && done + [] == done;
  }

  /** Deciding `f`, the first undecided frame, leads to where the array `b` stands. */
  lemma NextStands<K(!new), S(!new)>(
      rt: Runtime, nf: NfOver<K, S>, whole: Processed<K, S>, mem: Memory<K>, world: S, f: Frame, d: Decision<K, S>,
      done: seq<Frame>, q: seq<Frame>, out: seq<Frame>, b: seq<Frame>, i: nat, n: nat, k: nat)
    requires q != [] && f == q[0] && Midway(rt, nf, whole, mem, world, done, q, out)
    requires d == Decide(rt, nf, mem[f], world) && i <= n <= k <= |b|
    requires b[..i] == (if d.sent then done + [f] else done) && b[i..n] == Remaining(q, d.sent)
    requires b[n..k] == if d.sent then out else [f] + out
    ensures MidwayAt(rt, nf, whole, mem[f := d.buf], d.world, b, i, n, k)
  {
    OnePacket(rt, nf, whole, mem, world, done, q, out, d);
  }

  lemma PassNext<K(!new), S(!new)>(rt: Runtime, nf: NfOver<K, S>, whole: Processed<K, S>, mem: Memory<K>, world: S,
                                   a: seq<Frame>, i: nat, n: nat, k: nat)
    requires i < n && MidwayAt(rt, nf, whole, mem, world, a, i, n, k)
    ensures a[i] in mem && Decidable(rt, nf, mem[a[i]], world)
    ensures
      var d := Decide(rt, nf, mem[a[i]], world);
      var mem' := mem[a[i] := d.buf];
      if d.sent then MidwayAt(rt, nf, whole, mem', d.world, a, i + 1, n, k)
      else MidwayAt(rt, nf, whole, mem', d.world, Swapped(a, i, n - 1), i, n - 1, k)
  {
    var f, done, q, out := a[i], a[..i], a[i..n], a[n..k];
    assert f == q[0];
    var d := Decide(rt, nf, mem[f], world);
    if d.sent {
      KeepFront(a, i, n);
      NextStands(rt, nf, whole, mem, world, f, d, done, q, out, a, i + 1, n, k);
    } else {
      var last, b := n - 1, Swapped(a, i, n - 1);
      SwappedMiddle(a, i, last, n, b);
      SwappedEnds(a, i, last, k, b);
      NextStands(rt, nf, whole, mem, world, f, d, done, q, out, b, i, last, k);
    }
  }

  /** Where the array stands once `d` is decided on the first undecided packet. */
  lemma StandsNext<K(!new), S(!new)>(rt: Runtime, nf: NfOver<K, S>, whole: Processed<K, S>, mem: Memory<K>, world: S,
                                     a: seq<Frame>, i: nat, n: nat, k: nat, d: Decision<K, S>,
                                     a': seq<Frame>, i': nat, n': nat)
    requires i < n && MidwayAt(rt, nf, whole, mem, world, a, i, n, k)
    requires a[i] in mem && Decidable(rt, nf, mem[a[i]], world) && d == Decide(rt, nf, mem[a[i]], world)
    requires a' == if d.sent then a else Swapped(a, i, n - 1)
    requires i' == (if d.sent then i + 1 else i) && n' == if d.sent then n else n - 1
    ensures MidwayAt(rt, nf, whole, mem[a[i] := d.buf], d.world, a', i', n', k) && a'[k..] == a[k..]
  {
    PassNext(rt, nf, whole, mem, world, a, i, n, k);
  }

  lemma TurnOf<K(!new), S(!new)>(rt: Runtime, nf: NfOver<K, S>, whole: Processed<K, S>, mem: Memory<K>, world: S,
                                 a: seq<Frame>, i: nat, n: nat, k: nat)
    requires i < n && MidwayAt(rt, nf, whole, mem, world, a, i, n, k)
    ensures n <= k <= |a| && a[i] in mem && Decidable(rt, nf, mem[a[i]], world)
  {
    PassNext(rt, nf, whole, mem, world, a, i, n, k);
  }

  /** A kept frame stays in place, a rejected one changes places with the last undecided. */
  method PutAway(frames: array<Frame>, i: nat, n: nat, sent: bool) returns (i': nat, n': nat)
    requires i < n <= frames.Length
    modifies frames
    ensures frames[..] == if sent then old(frames[..]) else Swapped(old(frames[..]), i, n - 1)
    ensures i' == (if sent then i + 1 else i) && n' == if sent then n else n - 1
  {
    if sent { return i + 1, n; }
    frames[i], frames[n - 1] := frames[n - 1], frames[i];
    return i, n - 1;
  }

  /** Decides the first undecided packet and puts its frame where it belongs. */
  method SettleNext<K(!new), S(!new)>(frames: array<Frame>, host: Host<K, S>, rt: Runtime, nf: NfOver<K, S>,
                                      i: nat, n: nat, k: nat, ghost whole: Processed<K, S>)
    returns (i': nat, n': nat)
    requires i < n && MidwayAt(rt, nf, whole, host.mem, host.world, frames[..], i, n, k)
    modifies frames, host
    ensures n' - i' == n - i - 1 && frames[k..] == old(frames[k..])
    ensures MidwayAt(rt, nf, whole, host.mem, host.world, frames[..], i', n', k)
  {
    ghost var a, mem, world := frames[..], host.mem, host.world;
    TurnOf(rt, nf, whole, mem, world, a, i, n, k);
    var f := frames[i];
    var d := DecideBuffer(rt, nf, host.mem[f], host.world);
    host.mem, host.world := host.mem[f := d.buf], d.world;
    i', n' := PutAway(frames, i, n, d.sent);
    StandsNext(rt, nf, whole, mem, world, a, i, n, k, d, frames[..], i', n');
  }

  /** The partition loop: walk every received packet, swap-remove the rejected ones. */
  method PartitionFrames<K(!new), S(!new)>(frames: array<Frame>, host: Host<K, S>, rt: Runtime, nf: NfOver<K, S>,
                                           k: nat)
    returns (numTx: nat)
    requires k <= frames.Length && Smooth(rt, nf, frames[..k], host.mem, host.world)
    modifies frames, host
    ensures numTx <= k && frames[k..] == old(frames[k..])
    ensures
      var r := Process(rt, nf, old(frames[..k]), old(host.mem), old(host.world));
      && frames[..numTx] == r.kept && frames[numTx..k] == Reverse(r.dropped)
      && host.mem == r.mem && host.world == r.world
  {
    ghost var whole := Process(rt, nf, frames[..k], host.mem, host.world);
    PassBegins(rt, nf, host.mem, host.world, frames[..], k);
    numTx := k;
    var i: nat := 0;
    while i < numTx
      invariant MidwayAt(rt, nf, whole, host.mem, host.world, frames[..], i, numTx, k)
      invariant frames[k..] == old(frames[k..])
      decreases numTx - i
    {
      i, numTx := SettleNext(frames, host, rt, nf, i, numTx, k, whole);
    }
    PassEnds(rt, nf, whole, host.mem, host.world, frames[..], numTx, k);
  }

  /** One pass of a dataplane thread: receive into the scratch array, then partition it. */
  method DataplaneCore<K(!new), S(!new)>(xsk: XskData, host: Host<K, S>, rt: Runtime, nf: NfOver<K, S>, k: nat)
    returns (numTx: nat, recvd: nat)
    requires k <= |xsk.rx| && k <= xsk.frames.Length
    requires Smooth(rt, nf, xsk.rx[..k], host.mem, host.world)
    modifies xsk`rx, xsk.frames, host
    ensures recvd == k && numTx <= k
    ensures xsk.rx == old(xsk.rx)[k..]
    ensures xsk.frames[k..] == old(xsk.frames[k..])
    ensures
      var r := Process(rt, nf, old(xsk.rx)[..k], old(host.mem), old(host.world));
      && xsk.frames[..numTx] == r.kept && xsk.frames[numTx..k] == Reverse(r.dropped)
      && host.mem == r.mem && host.world == r.world
  {
    xsk.Consume(k);
    recvd := k;
    numTx := PartitionFrames(xsk.frames, host, rt, nf, k);
  }

  // ---- What a pass amounts to ---------------------------------------------------

  lemma RemainingKeepsElements(q: seq<Frame>, sent: bool)
    requires q != []
    ensures multiset(q) == multiset{q[0]} + multiset(Remaining(q, sent))
  {
    var n := |q| - 1;
    assert q == [q[0]] + q[1..];
    if n > 0 {
      assert q[1..] == q[1..n] + [q[n]];
    }
  }

  /** Kept and rejected frames together are the received ones. */
  lemma {:induction false} PassPartitions<K(!new), S(!new)>(rt: Runtime, nf: NfOver<K, S>, q: seq<Frame>,
                                                            mem: Memory<K>, world: S)
    requires Smooth(rt, nf, q, mem, world)
    ensures var r := Process(rt, nf, q, mem, world); multiset(r.kept) + multiset(r.dropped) == multiset(q)
    decreases |q|
  {
    if q != [] {
      var d := Decide(rt, nf, mem[q[0]], world);
      PassPartitions(rt, nf, Remaining(q, d.sent), mem[q[0] := d.buf], d.world);
      RemainingKeepsElements(q, d.sent);
    }
  }

  lemma RemainingElements(q: seq<Frame>, sent: bool, f: Frame)
    requires q != []
    ensures f in q <==> f == q[0] || f in Remaining(q, sent)
  {
    RemainingKeepsElements(q, sent);
    assert f in q <==> f in multiset(q);
    assert f in Remaining(q, sent) <==> f in multiset(Remaining(q, sent));
  }

  lemma RemainingDistinct(q: seq<Frame>, sent: bool)
    requires q != [] && Distinct(q)
    ensures Distinct(Remaining(q, sent)) && q[0] !in Remaining(q, sent)
  {
    var n := |q| - 1;
    if sent || n == 0 {
      assert q[0] !in q[1..];
    } else {
      assert q[0] !in q[1..n];
    }
  }

  /** A pass writes to no frame but those it received. */
  lemma {:induction false} OthersUntouched<K(!new), S(!new)>(
      rt: Runtime, nf: NfOver<K, S>, q: seq<Frame>, mem: Memory<K>, world: S, f: Frame)
    requires Smooth(rt, nf, q, mem, world) && f !in q
    ensures var r := Process(rt, nf, q, mem, world);
      (f in r.mem <==> f in mem) && (f in mem ==> r.mem[f] == mem[f]) && f !in r.kept && f !in r.dropped
    decreases |q|
  {
    if q != [] {
      var d := Decide(rt, nf, mem[q[0]], world);
      RemainingElements(q, d.sent, f);
      OthersUntouched(rt, nf, Remaining(q, d.sent), mem[q[0] := d.buf], d.world, f);
    }
  }

  /** The NFs' state when the turn of frame `f` comes. */
  ghost function WorldAt<K(!new), S(!new)>(rt: Runtime, nf: NfOver<K, S>, q: seq<Frame>, mem: Memory<K>, world: S,
                                           f: Frame): S
    requires Smooth(rt, nf, q, mem, world)
    decreases |q|
  {
    if q == [] || q[0] == f then world
    else
      var d := Decide(rt, nf, mem[q[0]], world);
      WorldAt(rt, nf, Remaining(q, d.sent), mem[q[0] := d.buf], d.world, f)
  }

  /** Every received packet is walked once, on the contents it arrived with: its frame is kept
      exactly when that walk ends in `tx`, and afterwards holds what that walk left in it. */
  lemma {:induction false} DecidedOnItsTurn<K(!new), S(!new)>(
      rt: Runtime, nf: NfOver<K, S>, q: seq<Frame>, mem: Memory<K>, world: S, f: Frame)
    requires Smooth(rt, nf, q, mem, world) && Distinct(q) && f in q
    ensures f in mem && Decidable(rt, nf, mem[f], WorldAt(rt, nf, q, mem, world, f))
    ensures
      var r := Process(rt, nf, q, mem, world);
      var d := Decide(rt, nf, mem[f], WorldAt(rt, nf, q, mem, world, f));
      && (f in r.kept <==> d.sent) && (f in r.dropped <==> !d.sent)
      && f in r.mem && r.mem[f] == d.buf
    decreases |q|
  {
    var d := Decide(rt, nf, mem[q[0]], world);
    var rest, mem' := Remaining(q, d.sent), mem[q[0] := d.buf];
    RemainingDistinct(q, d.sent);
    RemainingElements(q, d.sent, f);
    if f == q[0] {
      OthersUntouched(rt, nf, rest, mem', d.world, f);
    } else {
      DecidedOnItsTurn(rt, nf, rest, mem', d.world, f);
    }
  }

  // ---- The order of a pass --------------------------------------------------------

  /** While nothing is rejected, frames are kept in the order in which they arrived. */
  lemma {:induction false} KeptInOrder<K(!new), S(!new)>(
      rt: Runtime, nf: NfOver<K, S>, q: seq<Frame>, mem: Memory<K>, world: S)
    requires Smooth(rt, nf, q, mem, world) && Process(rt, nf, q, mem, world).dropped == []
    ensures Process(rt, nf, q, mem, world).kept == q
    decreases |q|
  {
    if q != [] {
      var d := Decide(rt, nf, mem[q[0]], world);
      KeptInOrder(rt, nf, Remaining(q, d.sent), mem[q[0] := d.buf], d.world);
      assert q == [q[0]] + q[1..];
    }
  }

  /** While nothing is kept, the first frame is rejected first and then the others from the end. */
  lemma {:induction false} RejectedFromTheEnd<K(!new), S(!new)>(
      rt: Runtime, nf: NfOver<K, S>, q: seq<Frame>, mem: Memory<K>, world: S)
    requires q != [] && Smooth(rt, nf, q, mem, world) && Process(rt, nf, q, mem, world).kept == []
    ensures Process(rt, nf, q, mem, world).dropped == [q[0]] + Reverse(q[1..])
    decreases |q|
  {
    var n := |q| - 1;
    var d := Decide(rt, nf, mem[q[0]], world);
    if n > 0 {
      RejectedFromTheEnd(rt, nf, Remaining(q, d.sent), mem[q[0] := d.buf], d.world);
      ReverseSnoc(q[1..n], q[n]);
      assert q[1..] == q[1..n] + [q[n]];
      assert Remaining(q, false)[1..] == q[1..n];
    }
  }

  /** Deciding the packet that arrived in `f` on state `w` leaves state `w'`. */
  ghost predicate Turns<K(!new), S(!new)>(rt: Runtime, nf: NfOver<K, S>, mem: Memory<K>, f: Frame, w: S, w': S) {
    f in mem && Decidable(rt, nf, mem[f], w) && Decide(rt, nf, mem[f], w).world == w'
  }

  /** One packet after the other is decided in this order, each on the state that the one before left. */
  ghost predicate InTurn<K(!new), S(!new)>(rt: Runtime, nf: NfOver<K, S>, mem: Memory<K>,
                                           order: seq<Frame>, worlds: seq<S>) {
    && |worlds| == |order| + 1
    && forall i :: 0 <= i < |order| ==> Turns(rt, nf, mem, order[i], worlds[i], worlds[i + 1])
  }

  lemma InTurnFirst<K(!new), S(!new)>(
      rt: Runtime, nf: NfOver<K, S>, mem: Memory<K>, f: Frame, buf: Buffer<K>, w: S, order: seq<Frame>, worlds: seq<S>)
    requires InTurn(rt, nf, mem[f := buf], order, worlds) && f !in order && Turns(rt, nf, mem, f, w, worlds[0])
    ensures InTurn(rt, nf, mem, [f] + order, [w] + worlds)
  {
    forall i | 0 <= i < |order| + 1
      ensures Turns(rt, nf, mem, ([f] + order)[i], ([w] + worlds)[i], ([w] + worlds)[i + 1])
    {
      if i > 0 { assert Turns(rt, nf, mem[f := buf], order[i - 1], worlds[i - 1], worlds[i]); }
    }
  }

  /** The order and the states in which a pass decides its packets. */
  ghost predicate HandedOn<K(!new), S(!new)>(rt: Runtime, nf: NfOver<K, S>, q: seq<Frame>, mem: Memory<K>, world: S,
                                             order: seq<Frame>, worlds: seq<S>)
    requires Smooth(rt, nf, q, mem, world)
  {
    && multiset(order) == multiset(q) && InTurn(rt, nf, mem, order, worlds)
    && worlds[0] == world && worlds[|order|] == Process(rt, nf, q, mem, world).world
    && forall i :: 0 <= i < |order| ==> worlds[i] == WorldAt(rt, nf, q, mem, world, order[i])
  }

  lemma HandedOnFirst<K(!new), S(!new)>(
      rt: Runtime, nf: NfOver<K, S>, q: seq<Frame>, rest: seq<Frame>, mem: Memory<K>, mem': Memory<K>, world: S,
      d: Decision<K, S>, tail: seq<Frame>, after: seq<S>)
    requires q != [] && Smooth(rt, nf, q, mem, world) && d == Decide(rt, nf, mem[q[0]], world)
    requires rest == Remaining(q, d.sent) && mem' == mem[q[0] := d.buf]
    requires HandedOn(rt, nf, rest, mem', d.world, tail, after) && q[0] !in tail
    requires InTurn(rt, nf, mem, [q[0]] + tail, [world] + after) && multiset(q) == multiset{q[0]} + multiset(rest)
    ensures HandedOn(rt, nf, q, mem, world, [q[0]] + tail, [world] + after)
  {
    var order, worlds := [q[0]] + tail, [world] + after;
    forall i | 0 <= i < |order|
      ensures worlds[i] == WorldAt(rt, nf, q, mem, world, order[i])
    {
      if i > 0 { assert order[i] == tail[i - 1] && worlds[i] == after[i - 1]; }
    }
  }

  /** A pass decides the received packets one after the other, each on the state that the one
      before has left, and ends with the state that the last one leaves. */
  lemma {:induction false} StateIsHandedOn<K(!new), S(!new)>(
      rt: Runtime, nf: NfOver<K, S>, q: seq<Frame>, mem: Memory<K>, world: S)
    returns (order: seq<Frame>, worlds: seq<S>)
    requires Smooth(rt, nf, q, mem, world) && Distinct(q)
    ensures HandedOn(rt, nf, q, mem, world, order, worlds)
    decreases |q|
  {
    if q == [] {
      order, worlds := [], [world];
    } else {
      var f, d := q[0], Decide(rt, nf, mem[q[0]], world);
      var rest, mem' := Remaining(q, d.sent), mem[f := d.buf];
      RemainingDistinct(q, d.sent);
      RemainingKeepsElements(q, d.sent);
      var tail, after := StateIsHandedOn(rt, nf, rest, mem', d.world);
      NotInOrder(tail, rest, f);
      InTurnFirst(rt, nf, mem, f, d.buf, world, tail, after);
      HandedOnFirst(rt, nf, q, rest, mem, mem', world, d, tail, after);
      order, worlds := [f] + tail, [world] + after;
    }
  }

  lemma NotInOrder(order: seq<Frame>, q: seq<Frame>, f: Frame)
    requires multiset(order) == multiset(q) && f !in q
    ensures f !in order
  {
    assert f in order <==> f in multiset(order);
    assert f in q <==> f in multiset(q);
  }

  lemma SplitKeepsElements(b: seq<Frame>, numTx: nat, k: nat, kept: seq<Frame>, dropped: seq<Frame>)
    requires numTx <= k <= |b| && b[..numTx] == kept && b[numTx..k] == Reverse(dropped)
    ensures multiset(b[..k]) == multiset(kept) + multiset(dropped)
  {
    ReverseKeepsElements(dropped);
    assert b[..k] == b[..numTx] + b[numTx..k];
  }

  /** What a pass over `q` leaves in the scratch array is a partition step of the frame protocol. */
  lemma PassIsPartitionStep<K(!new), S(!new)>(
      c: Setup, s: State, t: nat, q: seq<Frame>, b: seq<Frame>, numTx: nat,
      rt: Runtime, nf: NfOver<K, S>, mem: Memory<K>, world: S, r: Processed<K, S>)
    requires Shaped(c, s) && IsWorker(c, t) && s.threads[t].pc == Received(|q|)
    requires Smooth(rt, nf, q, mem, world) && r == Process(rt, nf, q, mem, world)
    requires var th := s.threads[t];
      && numTx <= |q| <= |th.scratch| == |b| && th.scratch[..|q|] == q && b[|q|..] == th.scratch[|q|..]
      && b[..numTx] == r.kept && b[numTx..|q|] == Reverse(r.dropped)
    ensures Enabled(c, s, Partition(t, b, numTx))
  {
    PassPartitions(rt, nf, q, mem, world);
    PermutesIsStep(c, s, t, q, b, numTx, r.kept, r.dropped);
  }

  lemma PermutesIsStep(c: Setup, s: State, t: nat, q: seq<Frame>, b: seq<Frame>, numTx: nat,
                       kept: seq<Frame>, dropped: seq<Frame>)
    requires Shaped(c, s) && IsWorker(c, t) && s.threads[t].pc == Received(|q|)
    requires multiset(kept) + multiset(dropped) == multiset(q)
    requires var th := s.threads[t];
      && numTx <= |q| <= |th.scratch| == |b| && th.scratch[..|q|] == q && b[|q|..] == th.scratch[|q|..]
      && b[..numTx] == kept && b[numTx..|q|] == Reverse(dropped)
    ensures Enabled(c, s, Partition(t, b, numTx))
  {
    SplitKeepsElements(b, numTx, |q|, kept, dropped);
  }
}
