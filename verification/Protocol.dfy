/** The messages chainsmith sends to pulley: links, their actions and the compiled functions. */
module Protocol {
  import opened Basics

  type Uuid = nat

  datatype LinkAction = Tx | Drop | Abort | Upcall(id: Uuid) | Tailcall(id: Uuid) | Pass {
    function ToKind(): nat {
      match this
      case Tx => 0
      case Drop => 1
      case Abort => 2
      case Upcall(_) => 3
      case Tailcall(_) => 4
      case Pass => 5
    }

    function NextNf(): Option<Uuid> {
      match this
      case Upcall(id) => Some(id)
      case Tailcall(id) => Some(id)
      case _ => None
    }
  }

  datatype XdpLinkState = Tail | Body(acts: seq<LinkAction>) {
    /** The action for an NF's output index; `None` stands for the out-of-range panic. */
    function Act(out: nat): Option<LinkAction> {
      match this
      case Tail => Some(Tx)
      case Body(acts) => if out < |acts| then Some(acts[out]) else None
    }
  }

  datatype XdpLink = XdpLink(uuid: Uuid, state: XdpLinkState, root: bool, disableXdp: bool)

  /** A compiled eBPF function; `slots` is the size its action and program tables were built with. */
  datatype EbpfFunction = EbpfFunction(slots: nat)

  datatype Function = Function(uuid: Uuid, hasElf: bool, ebpf: Option<EbpfFunction>)

  datatype Chain = Chain(links: seq<XdpLink>, nfs: map<Uuid, Function>)
}
