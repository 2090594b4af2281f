# Verified model of a cycle-level network-on-chip simulator

The simulator models wormhole routers cycle by cycle: virtual channels, credit-based flow control, two-stage switch
arbitration, wires with latency, network interfaces, several topologies with their routing functions, value tables for
data compression, and the switching activity of encoded buses. This project models that logic in Dafny and proves what
its assertions, its comments and its purpose promise, for all configurations, inputs and runs. Nothing was executed.

`dafny verify dfyconfig.toml` checks the whole project.

## How it is built

**Routers and flow control.** `Protocol` is a state machine over a whole network of routers on arbitrary wiring: one
function for each thing a stage does to a port, a request or a credit. `Stages` folds them, in the order of the
program, into one call of `router_sim`. The routing function and the verdicts on output VCs are parameters, and the
grants of the switch arbiter are any that fit the state. `Invariant` says what every reachable state satisfies,
`ControlProofs`, `StreamProofs`, `CreditProofs`, `LinkProofs`, `StepProofs`, `StageProofs` and `Runs` prove that every
action keeps it, and `Theorems` reads off the results. `Assertions` shows that every assertion of the stages holds
where it is made. `Changes` turns this into an induction principle: what every small change keeps holds in every
state, also for runs that are lawful under a given routing function. `CreditOrder` applies it to the order of the
credits, `RoutedPackets` to what the routing function has given each packet.

**The program's form.** `Routers.Router`, `FlitQs.FlitQ`, `VCArbs.VCArbFCFS` and `SwArb.SwArb2Stage` are classes with
the program's fields, loops and assertions; each stage is proved to take the objects of a network from one state of
the state machine to the next, and `Routers.Network.Cycle` runs whole cycles. The histories that the theorems speak of
(what was sent and received on a channel, who holds an output) are ghost fields. The switch arbiter is proved against
the two-stage specification of `Arbiter`, whose priority vectors `Priorities` keeps by least recent selection or by
round robin, as configured.

**Topologies.** `Torus`, `Mesh` and `FatTree` give the wiring as the program computes it and prove it a valid network
for the state machine; routing, path length and deadlock freedom are proved over that wiring. `Deadlock` states once
what a deadlock of wormhole packets is: packets that wait for held channels, or behind flits of other packets.
`Progress` proves of the running network that it does not come to a standstill where the channels can be ranked, and
`TorusProgress`, `MeshProgress` and `FatTreeProgress` that this is so of the three topologies under their own routing
functions; `Writers`, `Crowding` and `SharedBuffers` settle what becomes of that where virtual channels share a
buffer, and `Moving` how soon what can move does.

**Runs that exist.** For what holds in all runs the state machine may do less in a cycle than the program. Where a run
is shown to exist it is an exact run of `Timing`, which puts nothing off. `Folds` says what the loops of the stages
come to; `Crowds` and `Crowding` bring a network with shared buffers to a standstill; `Travels`, `Cycles` and
`Timetables` take two flits through a network, from which `CreditDelays` and `FatTreeCredits` get credits out of order.

**Network interfaces.** `NIInputs` has the queue, its readers and their events, and the choice of a virtual channel;
`ReaderTurns` says over whole runs whom a packet wakes and who holds which channel.

**Tables and encoders.** `CAMEncoder` relinks a doubly linked list and a map in place and is proved against the
recency order of `Recency`; `EncoderLFU` and `DecoderTable` do the frequency-counting tables on arrays and maps;
`DecoderRuns` says over whole runs what its counters come to and which values it gives up, with the counts of `Usage`;
`BusInvert` and `Hamming` do the bit-level loops, and `HammingWords` links their Hamming distances.

## Where code and comments differ, and what turned out false

- `src/Router.h:243-244` says the deposited credits are in clock order. They are in the order of deposit
  (`CreditOrder.DepositsInOrder`), which is clock order wherever the wires of a router are equally long
  (`CreditOrder.OrderedByClock`), as on every torus and mesh; then `incCredit` takes exactly the credits that are due.
  A fat tree keeps the order if and only if it has two levels (`FatTreeCredits.FatTreeInClockOrderIff`): on larger
  ones two flits that come by the same router of level 1, where the random choice of up ports may take them, break it,
  and `incCredit` may leave a credit that is due (`CreditOrder.LeavesDueIff`).
- `router_num_rsv_credit` is taken off the usable credits with separate buffers too; the conservation law counts it.
- Two-stage arbitration does not serve every requester, although each LRS stage on its own does. Over rounds in which
  the requesters of an output port have output VCs of their own, as in every router (`Theorems.RoundsHoused`), it does
  if and only if there is one port or one VC (`Fairness.TwoStageFairIff`). With three VCs or more the rivals that
  starve a requester by LRS may stay the same; with two they take turns from one round to the next.
- With one reading process for each of several VCs a packet may lie in the queue of a network interface while readers
  sleep: an event is set only when the queue was empty before. Some reader is awake for every packet if and only if the
  queue has room for one (`NIInputs.NeverForgottenIff`); none sleeps if and only if there is a single reader as well
  (`NIInputs.NobodyWaitsIff`).
- Shared buffers (`ROUTER_BUFFER_DAMQ_P`) with one writing process for each of several VCs, which is the default, can
  bring a network to a standstill that its routing function excludes otherwise, with every process and every router
  doing all it can in every cycle (`Crowding.ComesToStandstill`): the reserve protects the VCs of a wire, but not those
  of an injection port. `SharedBuffers.TorusGoesOnIff`, `MeshGoesOnIff` and `FatTreeGoesOnIff` give the exact condition.
- The P:1 round robin calls `RR_ORDER` with a wrap-around one port short. The last port loses every round in which
  port 0 asks (`Priorities.LastPortYields`); every other port is served in turn, and only they
  (`Priorities.PortRoundRobinFairIff`).
- On the mesh one VC is not enough: a packet to the north is admitted to no VC of a row (`Mesh.SomeVCIff`,
  `Mesh.MeshDeadlockFreeIff` give the exact conditions).
- `Topology2DMesh::getNextConn` only checks that the id is in range, so the east port of the last column leads to the
  next row, and the west port of the first to the one before. `Mesh.ConnectedIff` says exactly where connection and
  `link.m_valid` disagree; minimal routing never uses such a port (`Mesh.MeshRoutable`).
- An LRU table of one entry follows a null pointer on a miss (`TailPrev`), so `AccessByLRU` asks for two entries or a
  hit.
- Source bits in the decoder table outlive the value they were set for, so that a source may hit on a value it never
  sent (`DecoderTable.StaleSources`). `DecoderTable.HonestIff` says exactly which accesses bring that about; none does
  while no valid entry of the shared table is given up (`DecoderTable.HonestRun`).
- Bus-invert coding needs a group width that divides the data width, as its comment says (`BusInvert.GroupsFitIff`).
- Counters respect their saturation limits only from limits of 1 and 2 on (`DecoderTable.MissNeedsOne`,
  `DecoderTable.MoveNeedsTwo`, `EncoderLFU.MissNeedsTwo`).
- A fat tree of one level looks up routers that do not exist; two levels are what it takes (`FatTree.TwoLevelsIff`).

## Conventions

Time is an integer and `simtime()` is a parameter. A map entry that is missing stands for the value the constructor
sets. `pow` on doubles is exact integer power. All routers have the same number of VCs and the same buffer depth, as
the program's credit counters assume. Within one round of `stageST` the upstream deposit is made after the crossbar is
released rather than before; the two touch different routers or different fields. The routing parameter answers None
while a head flit is in its first cycle in a router, which is the test on `m_clk_enter_router`.

A CSIM event is set or not: `wait()` on a set event clears it and goes on, `set()` lets one waiting process go on and
otherwise leaves the event set. In `NIInputs` each reader waits for an event of its own. A router that sleeps is woken
up by flits only; in `Routers.Network.Cycle` it stays undetermined when a router goes to sleep and which routers with
an empty inside still run.

In `Changes` a routing function is a relation: where a packet may be, which output ports it may be given there, and
which output VCs are admitted. Costs and up ports picked at random are thereby arbitrary. A run is lawful if the
answers given to the routers are related.

An exact run (`Timing`) is a sequence of events from the constructed network with its arbiters. In every cycle every
router that has flits inside or credits on their way runs once: every head flit in front of an idle input VC is given
a port of the routing function unless it entered in this cycle, the VC arbiter admits exactly what the routing
function admits, and the grants are those of the two-stage arbiter, whose priority vectors turn with them. Every
process of a network interface that has begun a packet has one turn in every cycle, in which it writes its next flit
unless the buffer is full; it may begin another packet, with a new number, when it has written the last. In what order
routers and processes take their turns in a cycle is open; in the run to a standstill it is the same in every cycle.

## Model

| member | source | states |
|---|---|---|
| Theorems.CreditConservation | src/Router.C:848-976 | In every reachable network state, for every wired output VC: usable and reserved credits, the flit waiting in the crossbar, the flits on the wire, the flits in the downstream buffer and the credits on their way back add up to the buffer depth. Reserved credits stay within 0..router_num_rsv_credit; under SAMQ the counter stays within 0 and its initial value; under DAMQ_P the sum over a port never goes negative. |
| Theorems.PortConservation | src/Router.C:863-949 | Under shared credits the total over a port is always num_vc times the depth. |
| Theorems.OneVCTakesAll | src/Router.C:861-883 | For every VC of a port that no router has drawn on, and every n up to the shared credits of the port: n credits taken for that VC bring exactly its own counter down by n, below zero where n exceeds its share, while the sum over the port stays at what is left. |
| Theorems.NoOverflow | src/Router.C:349-370 | The flit at the end of a wire always finds room downstream, so the assertion before FlitQ::write never fires. |
| Theorems.ExclusiveOutputVC | src/VCArbFCFS.C:72-125 | An output VC is in OUT_MOD_V if and only if an input VC in state V or S maps to it, and never two do. |
| Theorems.ExclusiveCrossbar | src/Router.C:607-638 | Whatever waits in the crossbar is a flit in front of its buffer on an input VC in state S, its output port is marked taken, and no two input ports wait for the same output port. |
| Theorems.RequestsAgree | src/Router.C:575-600 | A pending switch request agrees with the mapping of its input VC, is for a flit that is there, is not already in the crossbar, and is for a head flit exactly when the input VC is in state V. |
| Theorems.QueueHoldsRequests | src/Router.C:784-790 | m_reqQ holds exactly the input VCs in IN_MOD_R, each once. |
| Theorems.LosslessChannel | src/Router.C:363-370 | What has been sent on an output VC is what was read from the input VC it feeds, then what waits there, then what is on the wire: nothing is lost, repeated or reordered. |
| Theorems.WholePackets | src/Router.C:536-545 | The flits sent on any output VC, ejection included, are whole packets in id order, never interleaved. |
| Theorems.IntegrityHolds | src/RouterDebug.C:186-212 | checkBufferIntegrity holds of the flit stageST reads next from any input VC. |
| Theorems.WireLatency | src/Router.C:303-323 | When router_sim serves a wire, its oldest flit is due if and only if exactly the latency has passed since it was stored; a wire holds at most that many flits, with strictly increasing store clocks. |
| Theorems.FlitsInsideExact | src/Router.C:387-393 | m_num_flits_inside equals the buffered flits plus the flits on outgoing wires. |
| Runs.StepGood | src/Router.C:227-275 | Every action (one call of router_sim on any router, a network interface reserving a VC or writing a flit, a clock tick) keeps the whole invariant: control, streams, credits, wires, counts. |
| Runs.SimGood | src/Router.C:227-275 | router_sim on one router, with any routing answers and any grants its arbiter may give, keeps the invariant. |
| Runs.InitGood | src/Router.C:16-118 | The state the constructors set up satisfies the invariant. |
| Runs.RunGood | src/sim_process.C:216-242 | The invariant holds after every run, by induction over its actions. |
| Runs.TickReachable | src/sim_process.C:230-237 | When every router that has not run in this cycle has nothing inside, the clock may move on: no flit misses its cycle while a router sleeps. |
| Changes.Invariance | src/Router.C:227-275 | Whatever every small change of a stage keeps, in states that satisfy the invariant and for changes the routing function allows, holds in every state the network comes to. |
| RoutedPackets.AlwaysLegal | src/Router.C:733-790 | For any routing function closed under its own hops: in every state it leads to, each flit in a buffer, on a wire or still to be injected belongs to a packet that may be there, and every input VC has an output port and an output VC allowed for the packet that holds it. |
| Progress.AlwaysSparing | src/Router.C:926-950 | In every reachable state the counter of a wired output VC is at most the buffer depth less the reserve, so that credits beyond it are in the reserve. |
| Progress.EmptyHasCredit | src/Router.C:978-1008 | When nothing is under way, an output VC whose buffer downstream is empty has a credit, whatever the other VCs of the port have taken. |
| Progress.TailMoves | src/Router.C:530-545 | When nothing is under way, and an input VC has read all that came of a packet but not its tail, then further back a flit can move or the network interface can write the next one: a worm never stretches over empty buffers only. |
| Progress.StuckBehindCrowded | src/Router.C:227-275 | For any network and any routing function whose hops rise in rank and that always admits some output VC: in every state it comes to with a flit in a buffer, something is under way, or some flit can move, or a network interface can write, or else a packet has been crowded out of the buffer of its injection port. |
| Progress.NeverStuck | src/Router.C:227-275 | Where the VCs of a port do not share a buffer, or there is only one, or one process writes one packet after the other, such a network always goes on: in every state with a flit in a buffer, something is under way, or some flit can move, or a network interface can write. |
| Writers.AlwaysRoomy | src/NIInput.C:228-241 | With shared buffers and one process for each port, in every state the network comes to: at most one packet at a time is written into an injection port, and the other VCs of the port leave room for its next flit. |
| Writers.NeverCrowdedOut | src/FlitQ.C:75-90 | Under the condition of NeverStuck no packet that is being written is left without a flit in a buffer that is full. |
| Timing.ComesLawful | src/Router.C:227-275 | Every moment of an exact run (see Conventions) is a state of a lawful run of the state machine, so what holds in those holds at every moment. |
| Moving.LosesPick | src/SwArb2Stage.C:59-341 | A router with nothing under way into which nothing has come in this cycle runs, with the choices of the program, and no input module changes its state and nothing takes the crossbar, though some flit in it can move. Then that flit has its output VC and asks for the switch, and the V:1 stage has picked another VC of its input port. |
| Moving.MovesSoon | src/SwArb2Stage.C:132-136 | So what can move does: successive calls in which nothing moves though a given flit can are no more than VCs stand in front of its own in the V:1 priority vector of its port, and fewer than the port has VCs, by LRS and by round robin. |
| Crowds.Calls | src/Router.C:227-275 | One call of router_sim, with the choices of the program, at a router whose injection ports packets crowd: at most one of their flits leaves, every packet goes on to the same next stage, and a flit of those that hold an output VC takes the crossbar if there is one. |
| Crowding.ComesToStandstill | src/NIInput.C:242-300 | With shared buffers, several VCs and a process for each of them, wherever a router has two network interfaces, for all arbiter policies: an exact run, in which no router and no process puts anything off, comes to a moment at which flits are buffered, nothing is under way, no flit can move and no network interface can write. On two injection ports packets hold every output VC of an ejection port; on each of the two another packet, whose process comes next after the router, takes every place that becomes free. |
| Crowding.GoesOnIff | src/NIInput.C:228-300 | So the condition of NeverStuck is exact: it holds if and only if the network goes on in every state of its lawful runs, and if and only if it goes on at every moment of its exact runs. |
| SharedBuffers.TorusGoesOnIff | src/RoutingTorusStatic.C:21-97 | A torus of at least two VCs, with at least two network interfaces at a router, goes on at every moment of every exact run, whatever its packets and its arbiter policies are, if and only if its buffers are separate or one process writes into each port. |
| SharedBuffers.MeshGoesOnIff | src/RoutingMeshMinAdaptive.C:28-146 | The same for every mesh on which a VC is always admitted, whatever the costs are, with the case of a single VC besides. |
| SharedBuffers.FatTreeGoesOnIff | src/RoutingFatTree.C:35-112 | The same for every fat tree, whichever up ports are picked. |
| StepProofs.LTInv | src/Router.C:303-393 | One port of stageLT keeps the invariant of the whole network, both routers included. |
| StepProofs.STInv | src/Router.C:445-545 | One port of stageST, with the credit it gives back to another router, keeps the invariant of the whole network. |
| StepProofs.TakeInv | src/Router.C:601-638 | Taking one grant (credit, crossbar ports, state change) keeps the invariant. |
| StepProofs.AllocateInv | src/VCArbFCFS.C:105-125 | Granting one output VC keeps the invariant. |
| StepProofs.RouteInv | src/Router.C:774-790 | Routing one head flit keeps the invariant. |
| StepProofs.InjectInv | src/NIInput.C:276-300 | Writing one injected flit into a buffer that is not full keeps the invariant. |
| CreditProofs.RoomDownstream | src/Router.C:358-364 | Credit conservation leaves room for the flit at the end of a wire, with separate and with shared buffers. |
| CreditProofs.DecCreditOk | src/Router.C:848-883 | After hasCredit succeeds, decCredit keeps every counter and the sum of a port within their bounds. |
| CreditProofs.AddCreditOk | src/Router.C:926-950 | incCredit keeps reserved credits within their bound and never lowers the sum of a port. |
| CreditProofs.SharedFirst | src/Router.C:861-883 | Under shared credits decCredit takes one credit of those the port has in all, from the reserve of the VC exactly when no shared one is left; no other VC is touched. |
| CreditProofs.ReserveFirst | src/Router.C:930-950 | Under shared credits those that come back fill the reserve of their VC, within its bound, and only what is over joins the shared ones; none is lost. |
| LinkProofs.ExactLatency | src/Router.C:316-323 | A flit on a wire that was served in every cycle is due exactly when its latency has passed. |
| LinkProofs.WireHasRoom | src/Router.C:514-518 | When stageST pushes a flit the wire holds fewer flits than its latency. |
| LinkProofs.BusyWireKeepsRouterAwake | src/sim_process.C:230-233 | A router with a flit on an outgoing wire has flits inside, so it does not sleep. |
| Assertions.IncAllFits | src/Router.C:924-960 | In every round of incCredit the assertion that a counter does not exceed the buffer depth holds. |
| Assertions.LTFinds | src/Router.C:358-364 | In every round of stageLT the wire leads to a router, whose buffer is not full. |
| Assertions.STFinds | src/Router.C:453-543 | In every round of stageST: the flit is there, the input VC is in state S, the output port is wired or ejects, the wire has room, the crossbar output is taken, and a tail flit finds its output VC in OUT_MOD_V. |
| Assertions.AskFinds | src/Router.C:575-600 | The requests stageSA adds are not there yet and are for ports that exist. |
| Assertions.GrantsFind | src/Router.C:607-638 | In every round over the grants: the flit is there, input and output port of the crossbar are free, a credit is left, and a head flit finds state V; the speculative stage only sees head flits. |
| Assertions.VAFinds | src/VCArbFCFS.C:78-117 | The assertions of VCArbFCFS::grant hold for every request in the queue. |
| Assertions.GrantedFresh | src/Router.C:648-660 | The input VCs granted by the VC arbiter are distinct and none has a switch request yet. |
| Routers.Router.constructor | src/Router.C:16-118 | A new router with its buffers and arbiters is in the first state of the state machine. |
| Routers.Router.HasCredit | src/Router.C:978-1008 | Returns whether a credit is left, by the counter or by the shared sum and the reserve; the assertion on the sum holds. |
| Routers.Router.DecCredit | src/Router.C:848-883 | Takes one credit from the counter, the shared pool or the reserve as the state machine does, nothing for ejection ports; its assertions hold. |
| Routers.Router.AddCredit | src/Router.C:930-950 | Gives credits back, to the reserve first under shared credits. |
| Routers.Router.IncCredit | src/Router.C:914-976 | All deposited credits up to the first one not yet due become usable, and the others stay. |
| Routers.Router.DepositCredit | src/Router.C:842-846 | The credit is appended to the deposits. |
| CreditOrder.DepositsInOrder | src/Router.C:842-846 | In every reachable state the deposits of a router are in the order in which they were made, each due one latency of its own wire after that. |
| CreditOrder.OrderedByClock | src/Router.h:243-244 | In every reachable state the deposits of a router whose wires are equally long are in clock order. |
| CreditOrder.IncAllTakes | src/Router.C:914-976 | incCredit takes the deposits up to the first that is not due and adds exactly their worth to what is usable of every output VC. |
| CreditOrder.LeavesDueIff | src/Router.C:924-925 | It leaves a deposit that is due if and only if one stands behind another that is not. |
| CreditOrder.TakesExactlyTheDue | src/Router.C:914-976 | In every reachable state of a router whose wires are equally long it takes exactly the deposits that are due. |
| CreditDelays.TorusInClockOrder | src/Router.h:243-244 | On every torus the deposits are in clock order in every reachable state. |
| CreditDelays.MeshInClockOrder | src/Router.h:243-244 | On every mesh as well. |
| CreditDelays.BreaksOrder | src/Router.C:842-846 | Wherever two trips come over equally long wires to a router from which one goes on over a wire longer by more than one cycle, for all arbiter policies: an exact run, in which both flits are routed, allocated and granted in the first cycle they can be, comes to a moment at which the deposits of that router are out of order. The second flit is injected so much later that the credit for it is deposited one cycle after that for the first, and falls due earlier. |
| Timetables.TokNext | src/Router.C:227-275 | A flit that nobody holds up is in each router for two to four cycles, as look-ahead and speculation are configured, and on each wire for its latency: its position by this timetable is what one cycle of the network makes of the position before. |
| Timetables.SteadyAt | src/Router.C:303-323 | Two flits that come by such a router, one so much later, do not get in each other's way until the first has left its last router: in no cycle are both due on wires of one router, or cross in one, or both have a later stage to pass in one. |
| Travels.RunTravels | src/Router.C:227-275 | One call of router_sim with two such flits in the network: there are choices that are the routing function's, the arbiter's grants and no refusal; with them every flit in that router makes its next step and nothing else moves, and the credit goes to the router behind. |
| Cycles.Day | src/sim_process.C:216-242 | From the beginning of a cycle an exact run goes on to the beginning of the next: all routers that are awake have run, both flits are where they should be, and the router in the middle has been given exactly the credits it is owed. |
| FatTreeCredits.TreeBreaksOrder | src/TopologyFatTree.C:139-166 | Every fat tree of three levels or more comes to such a moment under its own up/down routing, with two packets, one up and one down at a router of level 1. Their up ports are those a random choice may pick. |
| FatTreeCredits.FatTreeInClockOrderIff | src/TopologyFatTree.C:139-166 | On a fat tree the deposits are in clock order if and only if it has two levels: in every reachable state, and at every moment of every exact run, whatever the packets and the arbiter policies are. |
| Routers.Router.LinkPort | src/Router.C:303-393 | One round of stageLT takes the network from one state of the state machine to the next, in both routers it touches. |
| Routers.Router.StageLT | src/Router.C:303-420 | stageLT computes the fold of its rounds, every assertion found true on the way. |
| Routers.Router.XbarPort | src/Router.C:445-545 | One round of stageST takes the network to the next state, in the router, on the wire and in the upstream router. |
| Routers.Router.StageST | src/Router.C:422-573 | stageST computes the fold of its rounds, every assertion found true on the way. |
| Routers.Router.Send | src/Router.C:478-528 | The flit goes to the end of its wire, or leaves through an ejection port, and m_num_flits_inside follows. |
| Routers.Router.Leave | src/Router.C:530-545 | Reading the flit that waits in the crossbar: the flit in front of its input VC goes to the output VC that input VC is mapped to, and the control state afterwards is that of the state machine, in which a tail flit also frees both VCs. |
| Routers.Router.AskForSwitch | src/Router.C:575-600 | Exactly the input VCs without a request whose front flit is not a head and whose state is S get one. |
| Routers.Router.TakePort | src/Router.C:613-638 | A granted flit takes its crossbar ports; a head flit turns its input VC from V to S. |
| Routers.Router.GrantSwitch | src/Router.C:601-638 | The grants of the arbiter fit the state, and taking their credits first and their ports afterwards is the same as taking them one by one. |
| Routers.Router.FindVC | src/VCArbFCFS.C:86-94 | Finds the first output VC that is idle and that the routing function admits, or none. |
| Routers.Router.DecideVCs | src/VCArbFCFS.C:72-125 | Deciding all requests in queue order, with the granted positions collected, agrees with granting them one at a time. |
| Routers.Router.StageVA | src/Router.C:642-660 | stageVA with its deferred deletions and switch requests is first-come-first-served allocation one request at a time. |
| Routers.Router.StageRC | src/Router.C:733-790 | Exactly the idle input VCs with a routed head flit in front get its port and join the queue, in scan order. |
| Routers.Router.BeginPacket | src/NIInput.C:228-273 | A packet is taken for a VC if and only if its buffer is not full. |
| Routers.Router.WriteFlit | src/NIInput.C:276-300 | The next flit is written if and only if the buffer is not full, and is then counted inside. |
| Routers.Router.RouterSim | src/Router.C:227-275 | One call of router_sim on the objects is one step of the state machine, for grants the arbiter may give, with every assertion of its stages found true. |
| Routers.Network.Cycle | src/sim_process.C:216-242 | One simulated cycle leads from a reachable state to a reachable state with the clock one later: whichever routers sleep, in whatever order those awake run, woken ones included; a credit deposited in a sleeping router wakes no one. |
| FlitQs.FlitQ.IsFull | src/FlitQ.C:75-90 | Full by the queue alone, or by the sum over the VCs of the port. |
| FlitQs.FlitQ.Read | src/FlitQ.C:34-45 | Returns and removes the oldest flit of one queue. |
| FlitQs.FlitQ.Write | src/FlitQ.C:47-58 | Appends a flit to one queue that is not full. |
| FlitQs.WriteKeepsBound | src/FlitQ.C:75-90 | isFull holds exactly when one more flit would make the queue, or with shared buffers the port, hold more than its capacity. |
| VCArbs.VCArbFCFS.DelGranted | src/VCArbFCFS.C:133-136 | Erasing the granted positions one by one, each shifted by the erasures before it, leaves exactly the other requests in order. |
| VCArbs.EraseStep | src/VCArbFCFS.C:135-136 | One shifted erasure removes the next granted request and no other. |
| VAStage.DecidedGrant | src/VCArbFCFS.C:108-130 | Recording a grant for later deletion commutes with carrying it out at once. |
| Routers.Router.RouteVC | src/VCArbFCFS.C:31-34 | An idle input VC with a routed head flit in front gets its port and joins the queue of the VC arbiter behind all others, as the state machine says; any other input VC is left alone. |
| Folds.RouteIs | src/Router.C:733-790 | One call of stageRC routes exactly the idle input VCs with a routed head flit in front, to the ports they are given, and changes nothing else but the queue. |
| Folds.QueuedInOrder | src/Router.C:733-790 | Their requests stand behind the older ones, in the order of the input ports and of the VCs of each port, each for the port its input VC was given. |
| VAStage.VAFromIs | src/VCArbFCFS.C:68-136 | VC allocation touches the control state of its router and nothing else. |
| Fcfs.RefusedHasNoVC | src/VCArbFCFS.C:86-101 | A request is refused if and only if every output VC of its port is held by another packet or not admitted for it. |
| Fcfs.NoOvertaking | src/VCArbFCFS.C:72-101 | If an earlier request for a port is refused while a later one gets an output VC of that port, that output VC was not admitted for the earlier one. |
| Fcfs.VAFate | src/VCArbFCFS.C:72-125 | Every request keeps its place with no output VC left for it, or gets one of the port it asked for: every lower one is taken or not admitted for it. |
| SwArb.SwArb2Stage.constructor | src/SwArb2Stage.C:16-53 | Round-robin counters at zero and every LRS vector the identity. |
| SwArb.SwArb2Stage.GetFreeInPorts | src/SwArb.C:41-55 | The input VCs without a request in scan order; when m_num_reqs says all are taken there is none. |
| StageProofs.FreeKeysAre | src/SwArb.C:41-55 | The scan finds exactly the input VCs without a request, in the order of the ports and of the VCs of each port. |
| SwArb.SwArb2Stage.Add | src/SwArb.C:105-119 | One request more; m_num_reqs is the number of live requests. |
| SwArb.SwArb2Stage.Del | src/SwArb.C:75-92 | The request is gone, others stay, and m_num_reqs still is the number of live requests. |
| SwArb.SwArb2Stage.SelectVC | src/SwArb2Stage.C:110-149 | LRS V:1: the asking VC least recently selected, which becomes the last choice. |
| SwArb.SwArb2Stage.SelectVCByRR | src/SwArb2Stage.C:81-108 | Round-robin V:1: the next asking VC from the counter on, which the counter steps over. |
| SwArb.SwArb2Stage.SelectPorts | src/SwArb2Stage.C:179-259 | The port-order scan finds for every output port the competing input port of highest priority, among those with free crossbar ports and a credit, with either configuration. |
| SwArb.SwArb2Stage.Before | src/SwArb2Stage.C:229-255 | The pairwise test of the P:1 stage follows the priority vector, for LRS positions and for RR_ORDER. |
| SwArb.SwArb2Stage.Award | src/SwArb2Stage.C:262-341 | The grants in output port order, and the P:1 priorities turned for exactly the winners. |
| SwArb.SwArb2Stage.GrantGeneric | src/SwArb2Stage.C:59-409 | For LRS and round robin, regular and speculative: the grants are those of the two-stage specification, the priorities of this position turn as it says and those of the other stay, and exactly the granted requests are deleted. |
| SwArb.LrsOrder | src/SwArb2Stage.h:92-118 | The position of an element in a priority vector. |
| SwArb.Shift | src/SwArb2Stage.C:133-136 | Shifting the later elements down moves one element to the end and keeps the order of the others. |
| SwArb.GrantsServe | src/SwArb2Stage.C:333-341 | Every grant is for a live request whose crossbar ports are free and which has a credit; no two share an input or an output port. |
| SwArb.BestIsPick | src/SwArb2Stage.C:179-259 | Scanning the ports in order with pairwise tests finds the first competitor of the priority vector. |
| SwArb.RrCompares | src/SwArb2Stage.C:231-235 | Comparing by RR_ORDER with ties to the port found first is a strict order on the ports. |
| Arbiter.GrantsAre | src/SwArb2Stage.C:59-341 | The grants are exactly the V:1 winners that can be served and win their output port, in output port order. |
| Arbiter.GrantsMatch | src/SwArb2Stage.C:333-341 | Grants match input ports to output ports one to one. |
| Arbiter.NoIdleOutput | src/SwArb2Stage.C:179-259 | Every output port some V:1 winner competes for is granted to someone. |
| Arbiter.RotateValid | src/SwArb2Stage.C:132-136 | All priority vectors stay permutations. |
| SwArb.SwArb2Stage.AlwaysProper | src/SwArb2Stage.C:132-136 | The priority vectors of an arbiter object in any valid state are such as Fairness speaks of: permutations where they are least recently selected, cyclic where a counter keeps them. |
| Fairness.TwoStageFairIff | src/SwArb2Stage.C:59-341 | For each configuration of the two stages and all numbers of ports and VCs, over rounds in which each requester of an output port has an output VC of its own there: some number of rounds suffices to serve any input VC that keeps wanting any output port, from any priorities and whatever the others do, if and only if there is one port or one VC. Where it does not, a new arbiter starves an input VC in every round. |
| Fairness.OneVCServes | src/VCArbFCFS.C:83-117 | With one VC an output port has one requester at most, and an input VC that asks is granted at once, whatever the policies are. |
| Fairness.OnePortServes | src/SwArb2Stage.C:132-136 | With one port an input VC that keeps asking is granted within one round more than VCs are ahead of it, by LRS or round robin. |
| Fairness.StarvesByLRS | src/SwArb2Stage.C:132-136 | With at least two ports and three VCs and LRS in the P:1 stage, a new arbiter never grants VC 1 of port 0 while VC 0 of port 0 and VC 0 of port 1 want the same output: the V:1 vector turns although its winner then loses. |
| Fairness.StarvesByTurns | src/SwArb2Stage.C:132-136 | With two VCs it never grants VC 1 of port 0 while VC 0 of port 0 and VC 0 of port 1 take turns in wanting the same output. |
| Fairness.StarvesByRR | src/SwArb2Stage.C:231-235 | With at least two ports and two VCs and round robin in the P:1 stage, a new arbiter never grants the last port while port 0 wants the same output. |
| Fairness.LosingHelps | src/SwArb2Stage.C:132-136 | In every stage but the P:1 round robin losing a round moves an element that asks nearer to the front. |
| Theorems.RoundsHoused | src/VCArbFCFS.C:83-117 | The requests a switch arbiter sees in any reachable state are such as TwoStageFairIff speaks of: those for one output port have different output VCs of it. |
| Priorities.ToBackOrder | src/SwArb2Stage.h:92-118 | Selecting an element drops it behind all others and moves up by one exactly those behind it. |
| Priorities.BoundedLosses | src/SwArb2Stage.C:132-136 | Under LRS, until it is selected an element loses at most as many rounds as there are elements ahead of it, however the others behave and however it pauses. |
| Priorities.RoundRobinWaits | src/SwArb2Stage.C:271-274 | Under round robin an element that asks in every round is selected within its cyclic distance and one rounds: every VC at the V:1 stage, and every port but the last at the P:1 stage. |
| Priorities.RrTies | src/SwArb2Stage.h:83-90 | With max_val one less than the number of ports, exactly the first and the last port tie, and only when the search does not start at port 0; all other pairs are ordered by cyclic distance. |
| Priorities.LastPortYields | src/SwArb2Stage.C:231-235 | Under P:1 round robin the last port is never selected in any run of rounds in which port 0 asks. |
| Priorities.PortRoundRobinFairIff | src/SwArb2Stage.C:231-274 | P:1 round robin selects a port that always asks within as many rounds as there are ports if and only if it is not the last of several. |
| NIInputs.NIInput.WritePacket | src/NIInput.C:147-191 | The bounded queue and its spill queue together are one unbounded FIFO. A packet that finds the bounded queue empty wakes one reader and no other, or sets its event: that of m_last_free_vc, which steps on to the next VC, or the only one. Any other packet wakes nobody. |
| NIInputs.NIInput.ReadPacket | src/NIInput.C:193-221 | The oldest packet of that FIFO leaves it, or the bounded queue is empty and the reader clears its event or waits for it. |
| NIInputs.NeverForgottenIff | src/NIInput.C:147-221 | In every reachable state of the queue, its readers and their events, every queued packet finds a reader awake, if and only if the bounded queue has room for a packet. |
| NIInputs.NobodyWaitsIff | src/NIInput.C:147-221 | In every reachable state no reader waits while a packet is queued, if and only if there is room for a packet and a single reader; the same condition decides whether, when one waits, another one is ready for the packet. |
| NIInputs.NeglectedPerVC | src/NIInput.C:162-172 | With a reader for each of several VCs: a run after which a packet is queued while readers sleep and none is ready for it. A packet that is written before the reader woken for the one before has taken that one sets no event. |
| NIInputs.ForgottenWithoutRoom | src/NIInput.C:150-160 | Without room in the bounded queue: a run after which a packet is queued and every reader waits. |
| NIInputs.NIInput.PickVC | src/NIInput.C:242-263 | The first VC after the last one taken that is free and not full is reserved, or there is none. |
| ReaderTurns.WakesInTurn | src/NIInput.C:162-172 | Over every run, as long as no VC is picked: the packets that find the queue empty wake the readers in turn, the j-th of them the reader j places after the first, and no other. |
| ReaderTurns.EachOnce | src/NIInput.C:168-171 | So any num_vc of them in a row wake every reader exactly once. |
| ReaderTurns.TurnAfterPick | src/NIInput.C:242-263 | After a VC has been picked the turns go on from the reader of that VC. |
| ReaderTurns.OnlyThese | src/NIInput.C:147-221 | No other step lets a reader go on or sets an event; with one reader for the port every such packet wakes that one. |
| ReaderTurns.SecondLookWaits | src/NIInput.C:193-197 | A reader that finds the queue empty waits unless its event is set; then it comes round once more and waits. The other readers are left alone. |
| ReaderTurns.VCsHeld | src/NIInput.C:228-300 | In every reachable state the VCs that are not free are held, each by exactly one reader, and a reader that waits has no packet in hand and its event is not set. |
| ReaderTurns.NextPick | src/NIInput.C:242-273 | A VC that has been picked is not picked next, and the next pick takes the VC after it if that is free and not full. |
| NIInputs.Pkt2Flit | src/NIInput.C:71-145 | The loop gives the flits of a packet that CutIs speaks of. |
| Flits.CutIs | src/NIInput.C:71-145 | The flits are all of the packet, with consecutive ids from the one it starts at; exactly the first is a head and exactly the last a tail. |
| Flits.CutIsWholePacket | src/NIInput.C:71-145 | The flits of a packet extend any stream of whole packets by a whole packet. |
| Torus.NextConnInvolution | src/Topology2DTorus.C:186-227 | Following a link and its reverse leads back to the same port: downstream and upstream tables name each other, wrap-around included. |
| Torus.TorusNetworkValid | src/Topology2DTorus.C:43-102 | The torus is a network for which the protocol theorems hold, and selectOutPC only gives ports it has. |
| Torus.PortsAre | src/Topology2DTorus.C:43-102 | Exactly the four ports of the links are wired, and exactly the ports behind them eject. |
| Torus.LinkLatency | src/Topology2DTorus.C:53-72 | Every link leads where getNextConn says and takes twice the configured latency, in both directions. |
| Torus.SelectedIs | src/RoutingTorusStatic.C:33-56 | At the destination a packet is ejected. Before that it moves along its row until the column is right, in each dimension straight towards the destination, and round the other way exactly if that is strictly shorter. |
| Torus.MinHopIsDistance | src/Topology2DTorus.C:105-184 | The four-quadrant minimum is the sum of the two ring distances. |
| Torus.NoShorterWalk | src/Topology2DTorus.C:105-184 | No walk over links visits fewer routers than getMinHopCount says. |
| Torus.RouteIsShortest | src/RoutingTorusStatic.C:21-59 | Every route arrives, over links, visiting exactly getMinHopCount routers, and no walk is shorter. |
| Torus.RingStep | src/RoutingTorusStatic.C:33-56 | In its dimension a hop comes nearer by one, keeps its direction and passes to a later channel, the wrap-around being the passage from one class to the other. |
| Torus.AdmitsIff | src/RoutingTorusStatic.C:61-97 | Before the destination an output VC is admitted if and only if it is in the high half exactly when the coordinate of the destination, in the dimension of the selected port, is the greater one. |
| Torus.AdmitsHalf | src/RoutingTorusStatic.C:61-97 | So num_vc/2 VCs are admitted, or num_vc - num_vc/2, by that comparison, and all of them at the destination. |
| Torus.SomeVC | src/RoutingTorusStatic.C:61-97 | With two or more VCs some output VC is always admitted. |
| Torus.HopRises | src/RoutingTorusStatic.C:21-97 | Every hop on an admitted VC leads to channels of strictly higher rank. |
| Torus.TorusDeadlockFree | src/RoutingTorusStatic.C:21-97 | On every torus with at least two VCs no set of packets brought to where they are by the routing can all wait for channels held within the set, queueing behind one another included. |
| TorusProgress.TorusNeverStuck | src/RoutingTorusStatic.C:21-97 | On every torus with at least two VCs the running network with its own routing functions always goes on, unless its VCs share buffers into which several processes write. |
| TorusProgress.FlitsOnLegalPaths | src/RoutingTorusStatic.C:21-97 | In every state the running network comes to, each flit in a buffer has come there from its source on a path such as TorusDeadlockFree speaks of. |
| Deadlock.NoDeadlock | src/RoutingTorusStatic.C:61-97 | Where a rank rises along every path and towards every wanted channel, no set of packets is deadlocked. |
| Mesh.NextConnInvolution | src/Topology2DMesh.C:118-154 | Where a port is connected, following the link and its reverse leads back. |
| Mesh.MeshNetworkValid | src/Topology2DMesh.C:118-154 | The mesh is a network for which the protocol theorems hold. |
| Mesh.ConnectedIff | src/Topology2DMesh.C:54-73 | Every valid link leads to the router beside it. A port is connected although its link is not valid if and only if it is the east port of the last column, but for the last row, or the west port of the first column, but for the first row; it then leads to the other end of the next row or the one before. |
| Mesh.MeshRoutable | src/RoutingMeshMinAdaptive.C:28-82 | For every cost function selectOutPC only gives ports that are connected, or the ejection port. |
| Mesh.PortsAre | src/Topology2DMesh.C:118-154 | Exactly the ports that getNextConn connects are wired, and exactly the ports behind the first four eject. |
| Mesh.LinkLatency | src/Topology2DMesh.C:45-80 | Every link leads where getNextConn says and takes the configured latency, in both directions. |
| Mesh.SelectedTowards | src/RoutingMeshMinAdaptive.C:28-82 | For every cost function the selected port leads towards the destination. |
| Mesh.SelectedIff | src/RoutingMeshMinAdaptive.C:48-78 | For every cost function selectOutPC gives a port if and only if it is the ejection port of a packet that has arrived, or leads towards the destination at the least cost of the ports that do, with ties going to the port in the column. |
| Mesh.RouteIsMinimal | src/RoutingMeshMinAdaptive.C:28-82 | Whatever costs are computed at each hop, the route visits exactly getMinHopCount routers and ends at the destination. |
| Mesh.AdmitsIff | src/RoutingMeshMinAdaptive.C:105-146 | The VCs form two networks: a packet to the south is admitted to exactly the channels of the southbound one, a packet to the north to exactly the others, and a packet along a row to those of the network it was injected into. |
| Mesh.AdmitsHalf | src/RoutingMeshMinAdaptive.C:105-146 | On a hop along a row num_vc/2 or num_vc - num_vc/2 VCs are admitted, by the network of the packet, unless it is injected and stays in its row; otherwise all of them. |
| Mesh.SomeVCIff | src/RoutingMeshMinAdaptive.C:84-146 | Some output VC is admitted for a hop if and only if there are two VCs, or the packet does not go north by way of a row. |
| Mesh.HopRises | src/RoutingMeshMinAdaptive.C:28-146 | Every hop on an admitted VC leads to channels of strictly higher rank. |
| Mesh.MeshDeadlockFree | src/RoutingMeshMinAdaptive.C:28-146 | With two VCs no set of packets is deadlocked, whatever the costs were. |
| Mesh.MeshDeadlockFreeIff | src/RoutingMeshMinAdaptive.C:84-146 | No reachable set of packets is deadlocked if and only if there are two VCs or the mesh is a single row or column. |
| MeshProgress.MeshNeverStuck | src/RoutingMeshMinAdaptive.C:28-146 | The same on every mesh that always admits an output VC, whatever the costs are. |
| MeshProgress.FlitsOnLegalPaths | src/RoutingMeshMinAdaptive.C:28-146 | In every state the running network comes to, each flit in a buffer has come there on a path such as MeshDeadlockFree speaks of. |
| Mesh.StuckPacket | src/RoutingMeshMinAdaptive.C:134-146 | On one VC of any mesh of two dimensions a packet that may never move. |
| Mesh.ComputeCostVC | src/RoutingMeshMinAdaptive.C:176-186 | The cost of a port is the number of its output VCs in use. |
| FatTree.UpIs | src/TopologyFatTree.C:215-228 | An up port turns one digit of the router index to the base way, and stays in the block of its level. |
| FatTree.ChildIs | src/TopologyFatTree.C:236-241 | The j-th child turns the digit of the level below. |
| FatTree.UpDistinct | src/TopologyFatTree.C:245-251 | Different up ports lead to different routers, so the search over the up ports of a child finds one port only. |
| FatTree.UpDown | src/TopologyFatTree.C:215-255 | Up through a port and down through its partner leads back. |
| FatTree.DownUp | src/TopologyFatTree.C:230-255 | Down through a port and up through its partner leads back. |
| FatTree.UpExists | src/TopologyFatTree.C:193-197 | The router computed for an up link exists if and only if the router is below the top level. |
| FatTree.TwoLevelsIff | src/TopologyFatTree.C:182-201 | All up links of the lowest level lead to a router if and only if the tree has two levels or more. |
| FatTree.NextInvolution | src/TopologyFatTree.C:174-302 | For any way and at least two levels, the wiring is an involution on router and port. |
| FatTree.FillDown | src/TopologyFatTree.C:230-255 | The loop that finds the down ports by searching the children fills every down port exactly once, with the child whose up port leads here. |
| FatTree.Build | src/TopologyFatTree.C:174-302 | The loops build exactly the wiring of the specification, for every router and port. |
| FatTree.FatTreeNetworkValid | src/TopologyFatTree.C:133-302 | The fat tree, with its link delays, is a network for which the protocol theorems hold. |
| FatTree.PortsAre | src/TopologyFatTree.C:174-302 | Exactly the ports that the wiring connects are wired, and exactly the ports behind the up ports of the lowest level eject. |
| FatTree.LinkLatency | src/TopologyFatTree.C:133-170 | A link joins neighbouring levels and takes the same time in both directions: the configured latency times two to the power of the higher level. |
| FatTree.LatencyDoubles | src/TopologyFatTree.C:133-170 | The lowest links take twice the configured latency, and the links up from any router twice as long as those up to it. |
| FatTreeRouting.GetCommonAncestorTreeLevel | src/TopologyFatTree.C:321-342 | The least level at which the two routers have the same ancestors; the assertion on it holds. |
| FatTreeRouting.GetMinHopCount | src/TopologyFatTree.C:304-309 | Twice the common ancestor level and one. |
| FatTreeRouting.ExactlyOneChild | src/RoutingFatTree.C:82-98 | Going down from a router above the destination, exactly one child is in the leftmost..rightmost range, and it is above the destination as well. |
| FatTreeRouting.SelectOutPC | src/RoutingFatTree.C:35-112 | Eject at the destination, up until the common ancestor level, then down through the one child; the direction flag is cleared exactly there, and the assertions hold. |
| FatTreeRouting.FindDown | src/RoutingFatTree.C:82-100 | The search over the down ports always ends at the right child. |
| FatTreeRouting.SelectUpOutVC | src/RoutingFatTree.C:140-158 | The first port of least cost. |
| FatTreeRouting.RoutePhase | src/RoutingFatTree.C:35-112 | Whatever up ports are picked, every prefix of a route is on the level its length says, and the destination is reached exactly after getMinHopCount - 1 hops. |
| FatTreeRouting.RouteGoesOn | src/RoutingFatTree.C:35-112 | A route that has not arrived has a next hop, for every up port that may be picked. |
| FatTreeRouting.NoShorterWalk | src/TopologyFatTree.C:304-309 | No walk over the links of the tree is shorter than getMinHopCount says. |
| FatTreeProgress.FatTreeNeverStuck | src/RoutingFatTree.C:35-112 | The same on every fat tree, with one VC as well, whichever up ports are picked. |
| Digits.RotateIs | src/TopologyFatTree.C:222-224 | The wrapped offset changes one digit and no other. |
| Recency.TableIsRecency | src/CAMDataEnPrivate.C:134-230 | After any accesses the table holds the most recently used distinct values in order, and an access hits if and only if its value is among the last num_sets distinct ones. |
| Recency.Inclusion | src/CAMDataEnPrivate.C:134-230 | After the same accesses a table with one entry more holds everything the smaller one holds. |
| Recency.HitsMonotone | src/CAMDataEnPrivate.C:101-131 | Hit counts are monotone in the table size. |
| Recency.IndexStable | src/CAMDataEnPrivate.C:134-230 | From its insertion until its eviction a value has the index it was first given. |
| Recency.TouchIndices | src/CAMDataEnPrivate.C:63-77 | Entries keep distinct indices, and a value stored on a miss gets the index of the entry it evicts. |
| Recency.IndexOfIs | src/CAMDataEnPrivate.C:145-230 | The answer is negative if and only if no entry holds the value; otherwise it is the index of an entry that does. |
| Recency.AnswerIs | src/CAMDataEnPrivate.C:145-230 | After any accesses the answer to an access is negative if and only if its value is not among the last num_sets distinct ones; otherwise an entry with that index holds the value. |
| Recency.FillsFromLast | src/CAMDataEnPrivate.C:63-77 | A new table fills from its last entry: the i-th of up to num_sets distinct values has index num_sets - 1 - i. |
| CAMEncoder.CAMDataEnPrivate.constructor | src/CAMDataEnPrivate.C:48-77 | One doubly linked list through all entries, all empty, the map empty. |
| CAMEncoder.MoveToFront | src/CAMDataEnPrivate.C:188-216 | Unlinking an entry at the tail or in the middle and linking it in at the head leaves one doubly linked list with that entry first and the others in order. |
| CAMEncoder.CAMDataEnPrivate.AccessByLRU | src/CAMDataEnPrivate.C:134-230 | On the linked list and the map: the recency step. The answer is negative if and only if no entry held the value, which is if and only if the value was not among the last num_sets distinct ones accessed; otherwise an entry that held it has that index. One more hit, or one more miss, by the sign of the answer. |
| CAMEncoder.CAMDataEnPrivate.Compress | src/CAMDataEnPrivate.C:101-131 | The status of each value of a block is negative if and only if the value is not among the last num_sets distinct ones before it, or else the index of the entry that holds it then; as many more hits as statuses are not negative, and misses as are. |
| CAMEncoder.CAMDataEnPrivate.MapFinds | src/CAMDataEnPrivate.C:141-145 | A value is in the map if and only if an entry holds it, and the map leads to that entry. |
| CAMEncoder.CAMDataEnPrivate.MapFits | src/CAMDataEnPrivate.C:171-172 | The map never holds more values than the table has entries. |
| CAMEncoder.CAMDataEnPrivate.TailPrev | src/CAMDataEnPrivate.C:147-152 | The predecessor that a miss dereferences is null if and only if the table has one entry. |
| DecoderTable.AccessKeeps | src/CAMDataDeShared.C:171-345 | Whatever the limits are, every access keeps values stored once and in one level only. |
| DecoderTable.AccessBounded | src/CAMDataDeShared.C:219-272 | With limits of at least 1 and 2 every access keeps VLB counters at most their saturation and CAM counters below theirs. |
| DecoderTable.AccessesKeep | src/CAMDataDeShared.C:171-345 | Both over any sequence of accesses. |
| DecoderTable.MapsFit | src/CAMDataDeShared.C:277-277 | Neither map holds more values than its level has entries. |
| DecoderTable.HonestIff | src/CAMDataDeShared.C:261-272 | While every source bit belongs to a source that accessed the value the entry holds, one access keeps it so if and only if it does not move a value onto an entry that names a source which never accessed that value. |
| DecoderTable.HonestRun | src/CAMDataDeShared.C:171-345 | It stays so over every run from the new table that gives up no valid entry of the shared table. |
| DecoderTable.StaleSources | src/CAMDataDeShared.C:261-272 | A run from the new table after which an access hits for a source that never accessed the value: resize does not clear the bit left by the value replaced. |
| DecoderTable.CAMDataDeShared.AccessByLFU | src/CAMDataDeShared.C:171-345 | On arrays and maps, for all limits: one of the four cases of an access, the maps exactly the valid entries afterwards, hit exactly if an entry holds the value and names the source, and hits, misses and replacement messages counted accordingly. For every value in the shared table afterwards its counters have gone up by one exactly if it is the value accessed, halved if a counter came to its limit, and the source has become one of its sources exactly then. |
| DecoderTable.AccessCounts | src/CAMDataDeShared.C:261-340 | The same of every access to the table as a value: a value newly stored starts at one. |
| DecoderTable.ToldIff | src/CAMDataDeShared.C:268-322 | The source is sent a replacement message if and only if the shared table holds the value for it afterwards and did not, in that entry, before. |
| DecoderRuns.CountsUses | src/CAMDataDeShared.C:171-345 | Over every run from the new table, for every value of the shared table: its access count is the number of accesses to it since it was stored, and its counter is that number halved by each halving since. |
| DecoderRuns.CounterIsUses | src/CAMDataDeShared.C:325-340 | Without a halving since it was stored the counter of a value is the number of accesses to it. |
| DecoderRuns.CountsUsesLow | src/CAMDataDeShared.C:219-228 | The counter of a value of the VLB is the number of accesses to it since it was stored there. |
| DecoderRuns.MovesUpIff | src/CAMDataDeShared.C:224-311 | An access to a value of the VLB moves it to the shared table if and only if the accesses to it since it was stored then exceed cam_VLB_LFU_saturation; otherwise it stays where it is. |
| DecoderRuns.GivesUpLeast | src/CAMDataDeShared.C:234-272 | A value leaves the shared table only for one that moves up, when all entries are valid; every value in it has at least the same count of halved accesses, and one in an earlier entry more. |
| DecoderRuns.GivesUpLeastUsed | src/CAMDataDeShared.C:234-272 | Without halvings it is a value accessed least often since it was stored, the first of them. |
| DecoderRuns.GivesUpLeastLow | src/CAMDataDeShared.C:188-221 | A value leaves the VLB upwards, or for a value that is nowhere in the table when all entries are valid, and then it is the first of those accessed least often since they were stored. |
| DecoderRuns.AccessStores | src/CAMDataDeShared.C:171-345 | After every access its value is in the table. |
| DecoderRuns.FirstFree | src/CAMDataDeShared.C:239-250 | A value that moves up goes to the first free entry, if there is one. |
| DecoderRuns.FirstFreeLow | src/CAMDataDeShared.C:194-201 | A value new to the table goes to the first free entry of the VLB, if there is one. |
| DecoderTable.CAMDataDeShared.VlbVictim | src/CAMDataDeShared.C:194-212 | The first invalid entry, or the first one of least count. |
| DecoderTable.CAMDataDeShared.CamVictim | src/CAMDataDeShared.C:239-259 | The first invalid entry, or the first one of least count. |
| DecoderTable.CAMDataDeShared.Halve | src/CAMDataDeShared.C:332-339 | Every counter is halved and nothing else changes. |
| DecoderTable.MissNeedsOne | src/CAMDataDeShared.C:219-221 | Storing a value in the VLB keeps its counters within the saturation if and only if that is at least 1. |
| DecoderTable.MoveNeedsTwo | src/CAMDataDeShared.C:267-272 | Moving a value up keeps the CAM counters below their saturation if and only if that is at least 2. |
| EncoderLFU.LfuTable.AccessByLFU | src/CAMDataEnPrivate.C:234-329 | On the buffer and the map, for all saturations: a hit counts, and halves all counters at saturation; a miss overwrites the first invalid entry or the first of those used least; the map exactly the valid entries; the index of the entry hit, and one more hit or miss. |
| EncoderLFU.LfuTable.FindVictim | src/CAMDataEnPrivate.C:246-266 | The first invalid entry, or the first one of least count. |
| EncoderLFU.AccessKeeps | src/CAMDataEnPrivate.C:234-329 | Every access keeps values stored at most once and, with a saturation of at least 2, counters below it. |
| EncoderLFU.MissNeedsTwo | src/CAMDataEnPrivate.C:273-277 | A stored value keeps the counters below the saturation if and only if that is at least 2. |
| EncoderLFU.Evicts | src/CAMDataEnPrivate.C:234-329 | For all saturations: after an access its value is in the table, and another value has left it only if the access missed, no entry was free and none was used less. |
| EncoderLFU.AccessCounts | src/CAMDataEnPrivate.C:299-329 | Exactly the accesses to a value count for it, and its counter is halved exactly when a counter comes to the saturation; a value newly stored starts at one. |
| EncoderLFU.CountsUses | src/CAMDataEnPrivate.C:234-329 | Over every run from the new table: the access count of an entry is the number of accesses to its value since it was stored, and its counter is that number halved by each halving since. |
| EncoderLFU.GivesUpLeast | src/CAMDataEnPrivate.C:246-282 | A value is given up only for one that is in no entry, when all entries are valid; no value in the table has a lower count of halved accesses, or without halvings of accesses, and it is the first of those with the lowest. |
| EncoderLFU.FirstFree | src/CAMDataEnPrivate.C:250-254 | A new value goes to the first free entry, if there is one. |
| EncoderLFU.Fits | src/CAMDataEnPrivate.C:282-282 | The map never holds more values than the table has entries. |
| BusInvert.GroupSent | orion_src/SIM_power_misc.cpp:209-212 | A group decodes to its data, over the fewer of the changes either polarity needs, and is inverted if and only if that needs no more. |
| BusInvert.RoundTrip | orion_src/SIM_power_misc.cpp:193-218 | The state decodes, group by group, to the data. |
| BusInvert.Transitions | orion_src/SIM_power_misc.cpp:193-218 | The wires that change are exactly min(H, width + 1 - H) summed over the groups, at most half of each group. |
| BusInvert.GroupsFitIff | orion_src/SIM_power_misc.cpp:174-187 | SIM_bus_bitwidth is the data width and a wire for each group; the groups written by SIM_bus_state fit in it if and only if the group width divides the data width. |
| BusInvert.LoopRounds | orion_src/SIM_power_misc.cpp:199-216 | The loop of SIM_bus_state goes round once for each of these groups: with any number of groups behind it, it goes on exactly while there are more. |
| BusInvert.Group | orion_src/SIM_power_misc.cpp:205-212 | One round computes, with masks and complements on numbers, the word that is sent for the group. |
| BusInvert.BusState | orion_src/SIM_power_misc.cpp:193-218 | The loop with its shifts and masks on 64-bit numbers computes the encoding of the low bits, without losing a bit. |
| BusInvert.Bus.Transfer | orion_src/SIM_power_misc.cpp:345-350 | What is put on the wires decodes to the data, and the switch count grows by at most (data_width / grp_width) * ((grp_width + 1) / 2). |
| Words.ValNot | orion_src/SIM_power_misc.cpp:210-210 | Complementing under a mask is subtraction from the mask. |
| Hamming.ReducedCounts | orion_src/SIM_power_util.cpp:35-41 | For every 64-bit word the reduction in six steps is the number of its set bits. |
| Hamming.SlowCounts | orion_src/SIM_power_util.cpp:12-43 | SIM_power_Hamming_slow is the number of bits on which the values differ under the mask, for all 64-bit inputs. |
| Hamming.PowerInit | orion_src/SIM_power_util.cpp:45-55 | The table holds for every byte what the reduction gives for it. |
| Hamming.EntryCounts | orion_src/SIM_power_util.cpp:45-55 | That is the number of set bits of the byte. |
| Hamming.PowerHamming | orion_src/SIM_power_util.cpp:58-78 | Eight look-ups give the number of differing bits under the mask, the same as the reduction. |
| HammingWords.CountIsHamming | orion_src/SIM_power_util.cpp:12-43 | For 64-bit words and a mask of the low bits the masked count is the Hamming distance of bus-invert coding, the number of low bits in which the two numbers differ. |

## Left out

- CSIM processes and `hold`: a cycle runs the routers in any order, waiting loops of the network interfaces are separate actions.
- `ROUTER_BUFFER_DAMQ_R`: its credit pool covers several downstream routers while their buffers count alone, so the code does not decide conservation.
- `stageTN` and router tunneling: unfinished in the source; `router_tunnel` is false here.
- `LINK_DVS` and all power and energy arithmetic: physical constants without a discrete invariant.
- Latency tables, statistics, occupancy, debug output, workloads, `NIOutput` reassembly: they do not act on the routers.
- Progress.NeverStuck: with shared buffers it asks for a reserve of at least one credit for each VC, as src/parse_arg.C:242 sets it. It says that something can move; Moving.MovesSoon says how soon something does, not when a given packet arrives.
- SharedBuffers.TorusGoesOnIff: like MeshGoesOnIff it is for routers with two network interfaces or more; with one, only that the condition suffices is proved (TorusNeverStuck, MeshNeverStuck, FatTreeNeverStuck).
- FatTreeCredits.FatTreeInClockOrderIff: the run that breaks the order picks its up ports as ROUTING_FAT_TREE_RANDOM may; with ROUTING_FAT_TREE_ADAPTIVE, which takes the first port of an idle router, only that two levels suffice is proved.
- Fairness.TwoStageFairIff: each round on its own is one a router may see; that a network brings a router to see those of StarvesByTurns one after the other is not shown.
- Exact runs: the packet queue of a network interface, its readers and their round-robin choice of a VC (module `NIInputs`) are not part of them; packets begin when and where the run says, on VCs that are free.
- `SW_ALLOC_MAXIMAL`: the two-stage arbiter asserts against it.
- Waiting for a free VC in a network interface: PickVC is one search, which the program repeats each cycle until it succeeds. With one process for each port the VC is fixed and only the test remains. Freeing the VC after the last flit is the state machine's empty `pending`.
- The payload of flits, `NIInputCompr`, packet rebuilding and the synchronisation of encoders with shared decoders: the replacement messages are only counted.
- The lists of encoded values that the encoder's `compress` clears and its accesses fill: they feed the shared tables only.
- CAMEncoder.CAMDataEnPrivate.AccessByLRU: does not model a miss in a table of one entry, where the program dereferences null.
- BusInvert.BusState: the identity and transition encodings are single expressions and are left out; its Hamming distance is defined on the bits of a number, and HammingWords.CountIsHamming links it to the 64-bit counters.
- Fat trees whose cores are not a power of `way`: cores are way to the power of the levels; the mapping of cores to ports is left out, as is `log_int` on other numbers.
- Random up-port selection and random costs are arbitrary choices.
- SNUCA, DMesh, hierarchical mesh and flattened butterfly topologies: fixed sizes or incomplete functions.
