/** From the command line to running threads: start-up and deployment together. */
module Launch {
  import opened Basics
  import opened Protocol
  import opened Chainsmith
  import opened Compile
  import opened Install
  import opened Handoff
  import opened Execution
  import opened Refinement
  import opened Deployment
  import opened FrameProtocol
  import opened Roles

  datatype LaunchError = NotStarted(s: StartError) | NotDeployed(d: DeployError)

  /** The sockets that any start-up makes have slots in every program's socket table. */
  lemma SocketsFit(wanted: nat)
    ensures 1 <= Clamp(wanted) <= XSK_SLOTS
  {
  }

  /** The descriptors of `n` sockets. */
  function Fds(n: nat, fdOf: nat -> Fd): (r: seq<Fd>)
    ensures |r| == n && forall t :: 0 <= t < n ==> r[t] == fdOf(t)
  {
    seq(n, t requires 0 <= t < n => fdOf(t))
  }

  /** Creates the sockets, assigns the roles and deploys the chain on the sockets; `fdOf(t)` is the
      descriptor of worker `t`'s. No core count is refused: what can fail is the lack of a shared
      UMEM for several cores, a configuration that does not compile, or a root barred from the kernel. */
  method Launch(cfg: Config, types: Types, fns: FnMap, wanted: nat, shareUmem: bool, mode: Disposal,
                ghost queues: nat, fdOf: nat -> Fd, endian: Endian)
    returns (r: Result<(Plan, Runtime), LaunchError>, ghost chain: Chain)
    requires Conventional(cfg, types, fns)
    ensures r.Success? <==>
      (Clamp(wanted) == 1 || shareUmem) && CompilesOk(cfg, types, fns) && RootInKernel(cfg, fns)
    ensures r.Success? ==> PlanFits(SourceSetup(Clamp(wanted), mode, queues), r.value.0)
    ensures r.Success? ==>
      Deployed(cfg, types, fns, chain, r.value.1, Clamp(wanted), Fds(Clamp(wanted), fdOf))
    ensures r.Failure? ==>
      if Clamp(wanted) > 1 && !shareUmem then r.error == NotStarted(NeedsSharedUmem(Clamp(wanted)))
      else r.error.NotDeployed? && (r.error.d.NotCompiled? <==> !CompilesOk(cfg, types, fns))
  {
    chain := Chain([], map[]);
    var plan, sockets := AssignRoles(wanted, shareUmem, mode, queues);
    if plan.Failure? { return Failure(NotStarted(plan.error)), chain; }
    SocketsFit(wanted);
    var deployed;
    deployed, chain := Deploy(cfg, types, fns, |sockets|, Fds(|sockets|, fdOf), endian);
    if deployed.Failure? { return Failure(NotDeployed(deployed.error)), chain; }
    return Success((plan.value, deployed.value)), chain;
  }
}
