# Galette: frame ownership and split service chains

Galette compiles a named graph of network functions (NFs) into a service chain. One part of
the chain runs as XDP programs in the kernel, the rest in userland threads that exchange
packets with the kernel over AF_XDP sockets. This project models both halves in Dafny and
proves what they keep.

## Frame ownership

A fixed pool of frame descriptors circulates between the kernel, the worker threads, an
optional extra disposal thread and one single-producer single-consumer ring per remote worker.

- `FrameProtocol.dfy` is one machine for all three disposal variants (lone thread, first
  thread, extra thread). Every queue operation of a thread is a step of its own, a ring drain
  is four steps, and a run interleaves the steps of all threads and of the kernel in any order.
- `Ownership.dfy`: in every reachable state every descriptor has exactly one holder, and what
  is recycled from a ring is always a prefix of what was pushed.
- `Capacity.dfy`: no run loses a descriptor **if and only if** the fill and tx queues have
  room for all F frames and each ring for 2F (for F, if ring drains are atomic).
- `Recovery.dfy`: a weighted measure of the frames that are out never grows without new
  arrivals and falls with every step that moves a frame, so frames move only so often.
- `Rounds.dfy`: from every reachable state, six full rounds without arrivals bring every frame
  home, in whatever order threads and kernel take their steps. In a full round every thread
  comes by the head of its loop, every queue is once read as far as it goes, and the mediator
  once visits every ring.
- `Homecoming.dfy`: such rounds can be run from every reachable state, under either schedule.
- `Dataplane.dfy`, `Mediation.dfy`: the real loops as methods on arrays and queue objects. The
  partition loop is proved against a specification of the pass; one uninterrupted pass of each
  loop has exact effects on all queues and is a run of the protocol machine.
- `Sharing.dfy`: the partition loop while others use the same maps and the same packet memory.
  Before every execution of an NF its state may have become anything, and packet memory may
  change everywhere but in the thread's own frames, which `Capacity.WindowsAreExclusive` shows
  to be nobody else's. The pass still partitions as specified, and each frame is settled by its
  own walk on the states that walk finds; what its executions leave is what the maps hold. With
  nobody else at the state it is the pass of `Dataplane.dfy`.
- `Interleaving.dfy`: the passes with interruptions. Each queue operation is one step of the
  machine, and before the next one the other threads and the kernel may take any steps; maps
  and packet memory are shared as in `Sharing.dfy`.
- `Roles.dfy`, `Startup.dfy`: socket creation and thread start-up give every thread its role,
  queues and rings. The objects they make stand for the initial state of the machine, where the
  first pass of every thread can begin; every pass ends where the next one can begin. With that
  the theorems about reachable states are theorems about the loops.

A result worth knowing: with the sizes in the source (2048 frames, 2048 ring slots) the ignored
return value of `push_slice` hides a loss. Between the two `produce` calls of a drain and its
`advance`, recycled frames can come back through the kernel to the same worker and find the
ring still full. `Capacity.SourceSizes` shows that this happens in some run exactly when there
is a ring at all, and never when drains are atomic; `Capacity.RacingRingLoses` builds the run.
`Homecoming.SourceSizesRecover` adds that any state which has lost nothing yet can get all 2048
frames back, if drains are not interrupted from there on.

## The chain compiler and split execution

- `Chainsmith.dfy`, `ChainShape.dfy`, `Compile.dfy`: compiling a configuration, which
  configurations are accepted, and what an accepted chain looks like.
- `Install.dfy`: loading a chain into program, action, jump, socket and id tables.
- `Handoff.dfy`: the eight bytes of metadata between kernel and userland.
- `Execution.dfy`: the generated kernel wrapper, userland continuation, and a direct reading of
  the configuration's named links as an independent reference.
- `Refinement.dfy`, `Deployment.dfy`: a configuration deploys exactly when it compiles and its
  root may run in the kernel, and then, for every packet, NF behaviour and number of steps,
  split execution executes the same NFs with the same outputs as the direct reading.
- `Launch.dfy`: start-up and deployment together, for every core count.
- `Traversal.dfy`: packets are decided within a bounded number of executions if and only if no
  cycle can be reached; proved for the reading of the configuration and for the deployed chain.
- `TailRewrite.dfy`: ending a chain early where the only branch is `tx` changes no run.
- `Delivery.dfy`: what a dataplane thread decides about a redirected packet is the verdict of
  the configuration from the upcall's target, and on an acyclic chain no pass gets stuck.
  `Delivery.SettledAsConfigured` joins both halves of the project: a pass sends a received frame
  exactly when the configuration, read from the branch of the handoff, ends in `tx`.

An NF is any function from an id and a value (packet contents and whatever state the NFs keep)
to a new value and an output index. Hypotheses that the program does not check are stated where
they are needed: no function is called like a special target or begins with `!`, each function
has one link, ids are distinct, NFs return enums. `Deployment.Deploy` shows that these are enough:
it produces a deployed chain from every such configuration that compiles and whose root may run
in the kernel. A root with `disable_xdp` compiles, but reaches an `unreachable!` when the chain is
installed (`Install.RootNotLoaded`); it is the only refusal that a compiled chain can meet
(`Deployment.OnlyTheRootIsRefused`), and `Deployment.DisabledRootIsRefused` exhibits one.

Queues of the kernel and the rings are abstract first-in first-out queues with the behaviour the
code relies on (`XskData`, `UmemMediate` and `DescRing`): `produce` takes all descriptors or none,
`consume` takes any prefix that fits, `push_slice` takes as many as fit, `advance` moves the read
position by what was handled. Packet arrival, completion times, poll results, the random
draw and the success of growing the metadata are parameters.

`dafny verify dfyconfig.toml` checks everything.

## Model

| member | source | states |
|---|---|---|
| `Ownership.ApplyKeepsOk` | pulley/src/main.rs:207-328 | every step keeps windows inside the scratch array and each ring's recycled log a prefix of what was pushed, ahead of the read position only in mid-drain |
| `Ownership.StepConserves` | pulley/src/main.rs:80-328 | every single step moves descriptors between places without creating or destroying one |
| `Ownership.InitTotal` | pulley/src/lib.rs:148-187 | the one initial `fq.produce` puts every descriptor in exactly one place although every scratch array starts as a full copy |
| `Ownership.RunConserves` | pulley/src/main.rs:80-328 | conservation over whole runs, from any well-formed state |
| `Ownership.FrameConservation` | pulley/src/main.rs:80-328 | in every reachable state of every variant each of the F descriptors has exactly one holder and nothing else exists |
| `Ownership.RingHandoffIsPrefix` | pulley/src/main.rs:87-101 | under any interleaving the descriptors recycled from a ring are a prefix of those pushed, and outside a drain exactly those consumed |
| `Ownership.SlicesAreContiguous` | pulley/src/main.rs:92-93 | in the ring's buffer the first slice runs from the read position at most to the end, the second from the start at most back to the read position and only behind a full first, and together they cover what the ring holds |
| `Capacity.WindowsAreExclusive` | pulley/src/main.rs:207-328 | in every reachable state a thread's live window has no duplicate and shares nothing with any other window |
| `Capacity.WindowBesideFill` | pulley/src/main.rs:237-239 | a window and the fill queue together hold at most F descriptors, so handing the window over fits |
| `Capacity.PushLosesNothing` | pulley/src/main.rs:326 | with enough ring slots for the schedule a push takes the whole slice, in every steady state |
| `Capacity.RunLosesNothing` | pulley/src/main.rs:80-328 | with enough room for the schedule no run loses a further descriptor, from any steady state, however much was lost before |
| `Capacity.ReachableIsSteady` | pulley/src/main.rs:80-328 | every state that any interleaving reaches is steady: conserved, and no drain in progress has looked at more than the ring holds |
| `Capacity.SmallFillLoses` | pulley/src/lib.rs:170-175 | a fill queue below F loses descriptors in some run |
| `Capacity.SmallTxLoses` | pulley/src/main.rs:230 | a tx queue below F loses descriptors in some run |
| `Capacity.SmallRingLoses` | pulley/src/main.rs:326 | a ring below F loses descriptors even with atomic drains |
| `Capacity.RacingRingLoses` | pulley/src/main.rs:285-295 | a ring below 2F loses descriptors when a worker pushes between produce and advance |
| `Capacity.LosslessIffRoomy` | pulley/src/main.rs:80-328 | no run loses a descriptor if and only if the fill and tx queues hold F and the rings 2F, or F with atomic drains |
| `Capacity.SourceSizes` | pulley/src/main.rs:61-67 | with 2048 frames and 2048 ring slots: lossless with atomic drains, and in any order exactly for the lone thread |
| `Recovery.StepWeighs` | pulley/src/main.rs:80-328 | a frame-moving step strictly lowers the weighted count, every other step without arrivals leaves it |
| `Recovery.ZeroWeight` | pulley/src/main.rs:80-328 | the measure is zero exactly when no frame is out with any thread, ring, tx or completion queue |
| `Recovery.MovesAreBounded` | pulley/src/main.rs:80-328 | whatever the threads do without arrivals, frames move at most as often as the measure allows |
| `Rounds.RoundAdvances` | pulley/src/main.rs:80-328 | a full round without arrivals completes the next stage of emptying and undoes none, whatever the order of its steps |
| `Rounds.SixRoundsBringAllHome` | pulley/src/main.rs:80-328 | from every reachable state any six or more full rounds without arrivals leave no frame out, every frame that was not lost is with the fill queue or the kernel's receive side, and with room for the schedule none is lost on the way |
| `Homecoming.RoundExists` | pulley/src/main.rs:80-328 | from every steady state a full round without arrivals can be run, with interleaved or atomic drains |
| `Homecoming.Recovers` | pulley/src/main.rs:80-328 | from every state that any interleaving reaches some continuation without arrivals, of either schedule, brings all frames home, losing none if there is room for that schedule |
| `Homecoming.Lighten` | pulley/src/main.rs:80-328 | while a frame is out, some continuation without arrivals, of either schedule, lowers the measure |
| `Homecoming.SourceSizesRecover` | pulley/src/main.rs:61-67 | at the sizes of the source and for all variants: from any interleaved state that has lost nothing, all 2048 frames can come back one by one under atomic drains |
| `Roles.CreateUpcallSockets` | pulley/src/lib.rs:135-190 | which sockets hold the fill and completion queues, offer the descriptors and share a UMEM, for every count and sharing mode |
| `Roles.Clamp` | pulley/src/main.rs:29-37 | the core count is the number from one to eight nearest to the one asked for |
| `Roles.AssignRoles` | pulley/src/main.rs:36-189 | start-up fails exactly for several cores without sharing, no `expect` fires, and each thread gets the role the frame protocol gives it |
| `Roles.RingHasOneSender` | pulley/src/main.rs:142-146 | every ring is given to exactly one sending thread |
| `Roles.OneMediatorManySenders` | pulley/src/main.rs:69-189 | exactly one thread mediates, it reads every ring, and every ring has exactly one of the others as its writer |
| `Startup.StartUp` | pulley/src/main.rs:36-189 | start-up makes distinct sockets, queues and rings that stand for the initial state of the frame protocol, with the roles the protocol gives; it fails exactly for several cores without sharing |
| `Startup.PassesCanBegin` | pulley/src/main.rs:69-189 | what the first pass of each thread asks for holds after start-up, every remote worker with the ring its role names |
| `Dataplane.HaltedOnce` | pulley/src/main.rs:414-436 | a walk that ends has one outcome, however long it is observed |
| `Dataplane.WalkChain` | pulley/src/main.rs:403-436 | the inner loop ends with the outcome of following the link states, and none of its lookups fails |
| `Dataplane.XskData.Consume` | pulley/src/main.rs:342-346 | receiving overwrites exactly a prefix of the scratch array |
| `Dataplane.DecideBuffer` | pulley/src/main.rs:355-436 | one packet's decision: malformed metadata rejects it untouched, otherwise its walk decides |
| `Dataplane.SettleNext` | pulley/src/main.rs:355-445 | one iteration decides one packet, shortens the undecided block by one and keeps the pass on course |
| `Dataplane.PartitionFrames` | pulley/src/main.rs:352-448 | on exit the kept frames are in front, the rejected ones behind in reverse order of rejection, and the tail is untouched |
| `Dataplane.DataplaneCore` | pulley/src/main.rs:333-448 | a whole pass on the receive queue, the scratch array, the packet memory and the NF state |
| `Dataplane.PassPartitions` | pulley/src/main.rs:352-448 | kept and rejected frames together are a permutation of the received ones |
| `Dataplane.OthersUntouched` | pulley/src/main.rs:352-448 | a pass writes to no frame that it did not receive |
| `Dataplane.DecidedOnItsTurn` | pulley/src/main.rs:352-448 | each received packet is walked once on the contents it arrived with, kept exactly if that walk ends in Tx, and holds what the walk left |
| `Dataplane.StateIsHandedOn` | pulley/src/main.rs:354-448 | a pass decides the received packets one after the other, each on the NF state that the one before left, and ends with the state of the last |
| `Dataplane.KeptInOrder` | pulley/src/main.rs:438-440 | while nothing is rejected, frames are kept in the order in which they arrived |
| `Dataplane.RejectedFromTheEnd` | pulley/src/main.rs:441-445 | while nothing is kept, the first frame is rejected first and then the others from the end |
| `Dataplane.PassIsPartitionStep` | pulley/src/main.rs:352-448 | what a pass leaves in the scratch array is a partition step of the frame protocol |
| `Mediation.UmemMediate.Consume` | pulley/src/main.rs:236 | completions are written behind the window and nowhere else |
| `Mediation.DescRing.AsSlices` | pulley/src/main.rs:285-286 | the two slices are the occupied region in order |
| `Mediation.CoreIsTwoSteps` | pulley/src/main.rs:225 | receiving and partitioning are two steps of the frame protocol |
| `Mediation.ReceiveAndSend` | pulley/src/main.rs:225-230 | the common head of every worker loop, as a run of the frame protocol |
| `Mediation.HandBackIsTwoSteps` | pulley/src/main.rs:236-239 | collecting completions and refilling are two steps of the frame protocol, in both disposal modes |
| `Mediation.HandBack` | pulley/src/main.rs:236-239 | exactly the rejected and the completed descriptors go back to the fill queue |
| `Mediation.DrainIsARun` | pulley/src/main.rs:280-295 | draining a ring is a run of the frame protocol that empties it |
| `Mediation.DrainRing` | pulley/src/main.rs:280-295 | one ring is emptied into the fill queue by its two slices, other rings and threads untouched |
| `Mediation.DrainRings` | pulley/src/main.rs:279-296 | all rings are emptied in order |
| `Mediation.DrainKeepsAll` | pulley/src/main.rs:87-104 | with room, draining appends to the fill queue exactly what the rings hold, in order |
| `Mediation.SendAndHandBack` | pulley/src/main.rs:255-277 | what both mediating workers do, on the queues and as a run of the frame protocol |
| `Mediation.SoloPass` | pulley/src/main.rs:207-242 | one pass of the lone worker: exact new queues, and a run of the frame protocol back to the loop head |
| `Mediation.SelfMediatePass` | pulley/src/main.rs:245-297 | one pass of the first of several workers: exact new queues, all rings empty, and a run of the frame protocol |
| `Mediation.OtherMediatePass` | pulley/src/main.rs:300-328 | one pass of any other worker: what it rejected goes to its ring as far as there is room |
| `Mediation.ExtraThreadPass` | pulley/src/main.rs:83-109 | one pass of the extra thread: rings emptied, then completions recycled |
| `FrameProtocol.LeadsToReachable` | pulley/src/main.rs:80-328 | what a pass, interrupted or not, leads to from a reachable state is reachable, so conservation holds after it |
| `Mediation.NothingStaleEscapes` | pulley/src/main.rs:230-239 | if what a pass received and collected are different descriptors, what it sends and hands back has no duplicate and is exactly those |
| `Mediation.ReceivedAreDistinct` | pulley/src/main.rs:225-239 | in every reachable state what a thread can receive and what can be collected are different descriptors, none in the fill queue, a window or a ring |
| `Mediation.PassHandsOutItsOwn` | pulley/src/main.rs:225-239 | hence from every reachable state a pass hands out exactly what it received and collected, each once, and nothing that anybody else owns |
| `Interleaving.OthersLeaveAlone` | pulley/src/main.rs:80-328 | whatever steps the others and the kernel take, they keep a thread's scratch array and place and its ends of the rings, and only extend the queues it reads |
| `Interleaving.LedIsARun` | pulley/src/main.rs:80-328 | an interrupted pass is a run of the frame protocol |
| `Interleaving.Receive` | pulley/src/main.rs:342-346 | receiving on the objects is the one step of the protocol |
| `Interleaving.Partition` | pulley/src/main.rs:352-448 | the partition loop is one step of the protocol, with the outcome of the specified pass, although others change NF state before every execution and frames that are not the thread's; its own frames hold what the pass left in them, and the maps what its last execution left |
| `Interleaving.SendKept` | pulley/src/main.rs:230 | sending is one step, which offers exactly the kept frames |
| `Interleaving.PushDropped` | pulley/src/main.rs:326 | pushing is one step, which offers exactly the rejected frames to the worker's ring |
| `Interleaving.Collect` | pulley/src/main.rs:236 | collecting is one step, which writes completions behind the window and nowhere else |
| `Interleaving.MediatorCollect` | pulley/src/main.rs:236 | as many completions are collected as there are and as fit behind the window, in their order |
| `Interleaving.CompletionsWait` | pulley/src/main.rs:80-328 | until the mediator itself collects them, completions wait in their order, whatever others do |
| `Interleaving.GiveBack` | pulley/src/main.rs:237-239 | refilling is one step, which offers exactly the rejected and the completed |
| `Interleaving.LookAt` | pulley/src/main.rs:280-286 | looking at a ring is one step and gives what the ring holds then |
| `Interleaving.GiveBackSlice` | pulley/src/main.rs:287-291 | each slice of a ring goes to the fill queue in one step while it is still in the ring |
| `Interleaving.AdvanceRing` | pulley/src/main.rs:293 | advancing is one step, which frees exactly the slots handled |
| `Interleaving.OtherMediateAmongOthers` | pulley/src/main.rs:300-328 | a remote worker's pass with anything in between, to queues, NF state and packet memory: its own steps are exactly receive, partition, transmit and push, and it partitions as specified on what its NFs find |
| `Interleaving.HandBackAmongOthers` | pulley/src/main.rs:255-277 | the common part of both mediating workers with anything in between, to queues, NF state and packet memory; everything completed before the pass that fits behind the window is collected |
| `Interleaving.SoloAmongOthers` | pulley/src/main.rs:207-242 | the lone worker's pass with any kernel steps, NF state and foreign frames in between, back to the loop head; it collects all that was completed before and fits |
| `Interleaving.SelfMediateAmongOthers` | pulley/src/main.rs:245-297 | the first worker's pass with anything in between, to queues, NF state and packet memory: its own steps are listed, one visit for each ring; it collects all that was completed before and fits |
| `Interleaving.ExtraThreadAmongOthers` | pulley/src/main.rs:83-109 | the extra thread's pass with anything in between: its own steps are listed, one visit for each ring; it collects all that was completed before and fits |
| `Chainsmith.ResolveTargets` | chainsmith/src/chain.rs:707-735 | the targets of a link resolve to actions in order, or the first that does not is reported |
| `Chainsmith.MarkRoots` | chainsmith/src/chain.rs:692-701 | exactly the destinations of `rx` become roots, or the first unknown one is reported |
| `Chainsmith.AddLink` | chainsmith/src/chain.rs:691-747 | the loop body enters one link as the independent description says, or reports its fault |
| `Chainsmith.CollectValues` | chainsmith/src/chain.rs:758 | every concrete link is listed once, in an arbitrary order |
| `Chainsmith.MakeConcrete` | chainsmith/src/chain.rs:670-759 | the outcome is the error that ChainShape.ReportsTheError describes, or one link per function: Tail if any of its links is exactly to `tx`, else the targets of its last link |
| `ChainShape.SucceedsIffAccepts` | chainsmith/src/chain.rs:691-756 | compilation succeeds if and only if every link resolves and `rx` has one destination in all |
| `ChainShape.FaultlessIff` | chainsmith/src/chain.rs:692-740 | a link is faultless exactly when its ends resolve |
| `ChainShape.ReportsTheError` | chainsmith/src/chain.rs:690-756 | the compiler reports an error exactly if the configuration deserves it: that of its first bad link, where an unknown target comes before an unknown source and before one destination of `rx` too many, or else that `rx` has none |
| `ChainShape.OneError` | chainsmith/src/chain.rs:690-756 | no configuration deserves two errors |
| `ChainShape.StateOfManyLinks` | chainsmith/src/chain.rs:703-746 | a function with several links ends the chain if any of them is exactly to `tx`, otherwise the targets of the last one count |
| `ChainShape.ExactlyOneRoot` | chainsmith/src/chain.rs:692-701 | an accepted configuration has exactly one root, one of its functions |
| `ChainShape.ActionsOfAcceptedChain` | chainsmith/src/chain.rs:710-732 | forced or kernel-barred targets are upcalls, other functions tailcalls, and every id belongs to the chain |
| `ChainShape.OneLinkPermutes` | chainsmith/src/chain.rs:691 | having one link per source does not depend on the order of the links |
| `ChainShape.OrderIsIrrelevant` | chainsmith/src/chain.rs:691-758 | with one link per function, any permutation of the links is refused alike or gives every function the same concrete link |
| `Compile.NextPowerOfTwo` | chainsmith/src/chain.rs:327 | the table size is the least power of two that holds all outputs |
| `Compile.CheckPrograms` | chainsmith/src/chain.rs:327-350 | passes if and only if every function's branch count fits its return type, and sizes its tables |
| `Compile.FirstLinkIs` | chainsmith/src/chain.rs:329-338 | branches are checked against the first link that starts at the function |
| `Compile.CompileFunctions` | chainsmith/src/chain.rs:519-559 | every function has a userland build, and a kernel build if and only if that is not disabled |
| `Compile.CompileChain` | chainsmith/src/chain.rs:481-759 | a configuration compiles if and only if its branches fit and its links are accepted; the result is described by the configuration alone; a failure is a wrong branch count with both numbers, or else the error that the links deserve |
| `Install.LoadPrograms` | pulley/src/lib.rs:225-273 | programs are loaded exactly for the links with a kernel build, under distinct descriptors, and the last root is found |
| `Install.FillSockets` | pulley/src/lib.rs:344-358 | up to eight sockets get their slots, more are refused |
| `Install.PatchProgram` | pulley/src/lib.rs:309-404 | one program's id, action, jump and socket tables hold exactly what its link calls for; success if and only if they fit, otherwise the error of the first entry that does not |
| `Install.PatchLink` | pulley/src/lib.rs:302-404 | entering one link disturbs no other; a refusal is that of its first entry that does not fit |
| `Install.PatchLinks` | pulley/src/lib.rs:302-404 | all links are entered if and only if each fits its tables |
| `Install.InstallChain` | pulley/src/lib.rs:204-430 | succeeds if and only if the chain is installable, and then the tables represent the chain; otherwise the error is that of the first link without a function, or else of the first link that does not fit, or else of the root |
| `Refinement.LastRootIs` | pulley/src/lib.rs:232-234 | the root that is attached is the last one marked |
| `Handoff.WordRoundTrip` | pulley/src/main.rs:373-374 | a 32-bit number survives the native byte order, whichever it is; the low byte comes first or last |
| `Handoff.MetaRoundTrip` | chainsmith/include/xdp_wrapper_chain.in.rs:74-75 | what the kernel program writes in front of the packet, eight bytes with the program's id first, is what userland reads |
| `Execution.XdpContext.XdpSockProg` | chainsmith/include/xdp_wrapper_chain.in.rs:35-100 | the wrapper runs the NF on the packet, acts on the output by its tables, and writes the metadata at an upcall before it looks for the socket of the core that the draw gives |
| `Refinement.LinkOf` | chainsmith/src/chain.rs:329-348 | the link that branches are checked against is the one that is compiled, with one target per variant |
| `Refinement.ActionAgrees` | chainsmith/src/chain.rs:710-732 | each compiled action means what its target name means |
| `Refinement.InKernelIff` | chainsmith/src/chain.rs:522-549 | a program is installed exactly for the functions not barred from the kernel, a library for all |
| `Refinement.UpcallRedirects` | chainsmith/include/xdp_wrapper_chain.in.rs:49-86 | an upcall branch redirects to the core that the draw gives modulo the number of cores, which has a filled socket slot |
| `Refinement.UpcallReachesEveryCore` | chainsmith/include/xdp_wrapper_chain.in.rs:68-80 | every core is the one that some draw chooses |
| `Refinement.UpcallDrawTurns` | chainsmith/include/xdp_wrapper_chain.in.rs:68-72 | draws that differ by the number of cores choose the same core |
| `Refinement.HandoffResumes` | pulley/src/main.rs:370-412 | the metadata of an upcall leads userland to exactly the branch's function, and nothing unwrapped on that path is missing |
| `Refinement.KernelStepMatches` | chainsmith/include/xdp_wrapper_chain.in.rs:41-99 | kernel dispatch by tables goes where the configuration says; only a refused handoff gives the packet up |
| `Refinement.UserStepMatches` | pulley/src/main.rs:427-435 | userland continuation goes where the configuration says |
| `Refinement.KernelByName` | chainsmith/include/xdp_wrapper_chain.in.rs:41-99 | a deployed program does what the names of its targets say, in literal terms: the four special verdicts, a jump to a function that may run in the kernel, a redirect that userland continues for every other and for `!`; an output that the NF's type lacks sends the packet or is out of bounds |
| `Refinement.UserByName` | pulley/src/main.rs:427-435 | userland does what the names of its targets say: on to a function, out for the special names, sent only for `tx`; an output out of range panics |
| `Refinement.RootIsAttached` | pulley/src/lib.rs:408-418 | the attached program is that of the function fed by `rx` |
| `Refinement.SplitFollowsConfig` | pulley/src/main.rs:403-436 | for every deployed chain, packet, NF behaviour and step count, split execution and the configuration run the same NFs with the same outputs on the same packet and stand at the same place |
| `Refinement.TransmitsAsConfigured` | pulley/src/main.rs:427-435 | without a refused handoff a packet is sent exactly when the configuration says `tx`, kernel verdicts are exact, and no lookup fails |
| `Deployment.JumpsFindPrograms` | pulley/src/lib.rs:384-389 | a jump of a compiled chain always finds its program: a bad link never occurs |
| `Deployment.InstallsIffRootInKernel` | pulley/src/lib.rs:408-422 | a compiled chain installs if and only if its root may run in the kernel |
| `Deployment.Deploy` | pulley/src/lib.rs:204-430 | compile and install: succeeds if and only if the configuration compiles and its root may run in the kernel, and yields a deployed chain; otherwise the error is the one deserved |
| `Deployment.OnlyTheRootIsRefused` | pulley/src/lib.rs:408-422 | of all refusals a compiled chain can meet only that its root has no kernel program |
| `Deployment.DisabledRootIsRefused` | pulley/src/lib.rs:408-422 | a configuration that compiles but whose chain is refused for any sockets |
| `Launch.SocketsFit` | pulley/src/main.rs:29-37 | the sockets of any start-up fit into the socket tables |
| `Launch.Launch` | pulley/src/main.rs:29-189 | start-up and deployment together: no core count is refused; it succeeds if and only if several cores share a UMEM, the configuration compiles and its root may run in the kernel |
| `Traversal.RunExecutes` | pulley/src/main.rs:414-436 | the configuration's reading is a chain of executions: each on the packet that the one before made of it, at the function its output led to, as many as asked for unless the run ends |
| `Traversal.AcyclicRunsEnd` | pulley/src/main.rs:414-436 | without a reachable cycle every NF runs at most once and the run ends within the number of functions |
| `Traversal.CyclesRunForever` | pulley/src/main.rs:414-436 | if a cycle can be reached, some well-behaved NFs keep a packet going for ever |
| `Traversal.BoundedIffAcyclic` | pulley/src/main.rs:414-436 | all packets are decided within the number of functions if and only if no cycle can be reached |
| `Traversal.PacketsAreDecided` | chainsmith/include/xdp_wrapper_chain.in.rs:88-94 | the same bound for kernel and userland executions counted together, across the handoff, also when the handoff is refused |
| `Traversal.CyclesKeepRunning` | pulley/src/main.rs:414-436 | on a deployed chain a reachable cycle keeps some packet on its way for ever, for every random draw |
| `Traversal.DecidedIffAcyclic` | pulley/src/main.rs:414-436 | on a deployed chain all packets are decided within the number of functions if and only if no cycle can be reached |
| `TailRewrite.TailRewriteKeepsRuns` | protocol/src/chain.rs:24-29 | replacing any set of links whose only branch is `tx` by Tail changes no packet, NF execution or verdict of any run |
| `Delivery.UserlandFollows` | pulley/src/main.rs:414-436 | from any function, userland executes what the configuration says, step by step |
| `Delivery.HaltsIffEnds` | pulley/src/main.rs:414-436 | the inner loop ends if and only if the configuration's reading ends |
| `Delivery.RedirectLeadsOn` | pulley/src/main.rs:403-412 | a redirect happens at an upcall branch only, and its metadata leads to that branch's function |
| `Delivery.RedirectsArrive` | chainsmith/include/xdp_wrapper_chain.in.rs:74-86 | whatever packet the kernel redirects on its way from the root, its metadata is as the passes take it for granted |
| `Delivery.DecidesAsConfigured` | pulley/src/main.rs:403-445 | a redirected packet is kept for sending exactly when the configuration, from the upcall's target, ends in `tx`, with that reading's contents and NF state |
| `Delivery.SmoothIfFollowable` | pulley/src/main.rs:354-448 | if each packet can be decided on its own, the whole pass completes in every processing order |
| `Delivery.PassesComplete` | pulley/src/main.rs:354-448 | on an acyclic deployed chain no pass over arriving packets panics or runs on for ever |
| `Delivery.SettledAsConfigured` | pulley/src/main.rs:333-448 | on an acyclic deployed chain a pass over arriving packets keeps a frame exactly if the configuration, read from the branch where the kernel handed it over, ends in `tx`, recycles it for every other verdict, and leaves in it what that reading made of the packet |
| `Delivery.MalformedIsRecycled` | pulley/src/main.rs:372-393 | a frame without the kernel's metadata is recycled with its contents unchanged |
| `Sharing.WalkAmid` | pulley/src/main.rs:403-436 | the inner loop, with the state of its NFs changed by others before every execution, ends as the walk on the states found; what the last execution left is in the maps, and others leave the thread's frames alone |
| `Sharing.PartitionAmid` | pulley/src/main.rs:352-448 | the partition loop among others: exactly the specified split; its frames hold what that pass leaves in them, and the maps what its last execution left |
| `Sharing.AloneAsSpecified` | pulley/src/main.rs:352-448 | if every execution finds what the one before it left, the pass among others is the pass alone: the same frames kept and rejected in the same order, with the same contents and the same state in the end |
| `Sharing.SettledAmidOthers` | pulley/src/main.rs:333-448 | whatever others do to NF state, no pass over arriving packets gets stuck, and each frame is settled by its own reading of the configuration on the states its executions find |
| `Sharing.StatelessSettles` | pulley/src/main.rs:333-448 | if NFs do not depend on their state, neither other threads nor the order of processing have a say in what a pass does with a packet |

## Left out

- Refinement.SplitFollowsConfig: after an upcall the code folds `pass`, `drop` and `abort` into "not transmitted"; the theorem states exactly that and no more.
- Execution.SplitRun: the kernel's limit on tail-call depth and failures of a redirect or tail call whose table slot is filled are not modelled.
- Compile.CheckPrograms: which of several functions with a wrong branch count is reported is left open; `Empty` return types pass the check as in the code and are excluded where runs are considered.
- Chainsmith.MakeConcrete: the order of the resulting links is arbitrary, as it is for values of a hash map.
- Install.InstallChain: refusals by libbpf (unreadable objects, missing maps, failed attach) and interface lookup are taken to succeed; map names and contents are not modelled.
- Handoff.MetaRoundTrip: ids and outputs are below 2^32, the width of the fields; table keys, which the code writes in little-endian order, are modelled as numbers.
- Mediation.SoloPass: one pass without kernel steps in between, for its exact effects; with interruptions it is Interleaving.SoloAmongOthers. The kill signal, poll timeouts and wake-ups are not modelled.
- Mediation.SelfMediatePass: one pass without other threads in between; with interruptions it is Interleaving.SelfMediateAmongOthers.
- Mediation.OtherMediatePass: one pass without other threads in between; with interruptions it is Interleaving.OtherMediateAmongOthers.
- Mediation.ExtraThreadPass: one pass without other threads in between; with interruptions it is Interleaving.ExtraThreadAmongOthers.
- Sharing.WalkAmid: one execution of an NF finds one state and leaves one; changes by others in the middle of an execution are not modelled.
- Dataplane.DataplaneCore: packet memory is a map from descriptors to buffers; raw pointers and lengths other than that of the metadata are not modelled. How many packets arrive is a parameter.
- Roles.AssignRoles: the estimate of available cores is a parameter; core affinity and spawning itself are not modelled.
- xsk-rs and ringbuf: queues are abstract; their memory layout and atomics are not part of this model.
- Network functions: their kernel and userland builds are the same function by assumption; the shipped examples are not modelled.
- Maps of network functions, the load-balance likelihood and hard-coded map entries.
- Source analysis and code generation, compiler invocation, dynamic loading: text and process work; every function with a userland build counts as loaded.
- TLS, certificates, key stores, websockets and serialisation between client and server.
