# way-netstack session layer, verified

A Dafny model of the session layer of `way-netstack`, a userspace TCP/UDP stack that turns
intercepted IP packets into TCP streams and UDP sessions. The model covers everything the
program keeps behind its single mutex, and the application objects that hold raw handles into it:

- the TCP and UDP session tables and the shared, reference-counted UDP sockets,
- one slot per interface, with its socket set, its ingress queue and its TCP reuse pool,
- the buffer budget,
- the receive queues, the live `WayTcpStream`s and the live `WayUdpSession`s.

Every critical section is one atomic step: queueing an ingress packet, one runner cycle
(pre-pass, engine poll and post-pass under one lock), TCP shutdown and drop, UDP send attempt,
pop and drop. A run is any interleaving of such steps, and the main results hold in every
state of every run.

## How it is organised

| files | content |
|---|---|
| `Types`, `Counting` | the data, and counting over finite maps |
| `Connections` | how the engine and `close()` move a TCP connection through its states |
| `Ops` | each critical section as a function on states |
| `Invariant`, `PreserveAlloc`, `PreserveTcp`, `PreserveUdp` | the agreement between the redundant structures, in parts, kept by every operation |
| `Runs` | the transition system: steps, runs, reachable states |
| `Guarantees`, `Isolation`, `Redistribution`, `Tables`, `PrePassFacts`, `SocketStates`, `Flows`, `Reuse` | what holds in every state, and what every step or cycle does |
| `Fifo`, `Arrivals`, `Lifecycle`, `Traces`, `Losses`, `Permanence`, `Recovery`, `Silence` | what holds over whole runs, and what some future can bring |
| `Memory`, `Holdings`, `Limits`, `GivenLimit` | real memory against the configured limit |
| `Witness`, `Feeding`, `Scenarios` | constructed runs, for the claims that something can happen |
| `Recv` | the `recv` protocol, whose steps run outside the lock |
| `CoreLoops`, `Core` | the mutable netstack: a class whose methods are proved to perform the operations of `Ops` |

What code outside the session layer decides is a parameter of the step (`Types.Choices`): the
clock, whether a listen or a bind succeeds, which unused handle a socket set gives to a new
socket, the slots as the engine's poll leaves them, and the order in which each hash map is
enumerated. The theorems quantify over all of these. About the engine they assume that a poll
adds and removes no sockets, changes no socket's bound or listening endpoint, moves each TCP
connection only along the transitions of section 3.3.2 of RFC 9293 that segments, timeouts and
resets cause, any number of them in one poll, and only appends to UDP receive buffers
(`Runs.EnginePolls`); about `close()`, that it moves a connection as section 3.10.4 of RFC 9293
says, at once (`Connections.AfterClose`); about the socket set, that a new handle is not one in use
(`PreserveAlloc.FreshPicks`). Reachable states, and states that some run leads to, are those of runs
that meet all of these.

`History` counts events over a run. Two of its counts also serve as identities: a new queue is
numbered by the sessions created so far, a new stream by the streams accepted so far. The other
counts are read by no operation. `Times(n, c)` is the product `n * c` by repeated addition.

## Where the code departs from its documentation or from expectation

The model follows the code.

- The buffer limit is documented as a hard cap on all buffer memory (`src/builder.rs:225-231` and
  line 174 of the program's own README). A UDP socket is charged one payload region and 64 bytes per
  packet but allocates two payload regions and two metadata slots per packet
  (`src/runner.rs:303-305`, `src/runner.rs:318-321`); pooled TCP sockets are not charged. The size of
  a metadata slot is a parameter of the results. `Limits.LimitHonouredIff` gives the exact
  configurations whose socket buffers stay within every limit, `GivenLimit.HonouredAtIff` those whose
  socket buffers stay within the limit they have, `Limits.PoolAndFlowBreak`,
  `Limits.TwoInterfacesBreak` and `Limits.LargeSlotsBreak` the ways to break the cap, and
  `Memory.MemoryBounded` the bounds that hold for all.
- A UDP socket that fails to bind keeps its reservation (`src/runner.rs:318-329`), unlike a TCP
  socket that fails to listen (`src/runner.rs:271`). `Guarantees.BudgetConserved` counts these
  charges, and `Scenarios.LeakReachable` reaches states with nothing but such charges.
- A TCP connection whose socket is beyond ESTABLISHED when the post-pass first looks is lost: it is
  accepted only if found established (`src/runner.rs:376-377`), orphaned only by the drop of its
  stream, and removed only if orphaned (`src/runner.rs:407`). A SYN in one cycle, then an ACK and a
  FIN before the next, is enough. `Losses.LostForever` says that it stays for good, and
  `Losses.LostReachable` that any admitted number of such connections is reachable.
- Charges of failed binds and lost connections are never returned
  (`Permanence.ChargesNeverReturned`) and in the end refuse new flows (`Permanence.RefusedForever`,
  `Permanence.StarvedByLoss`). They are all that is beyond recovery: `Recovery.CanBeEmptied`,
  `Recovery.ServedAgainIff`, `Recovery.ConnectsAgainIff`.
- Dropping a UDP session removes whatever entry stands under its 5-tuple
  (`src/stream/udp.rs:159`). `Isolation.DropIsolatedIff` says exactly when that is its own entry,
  and `Scenarios.StaleSessionReachable` that the other case is reachable.
- `recv` can return `None`, or park, over a datagram that is already queued
  (`src/stream/udp.rs:84-94`): `Recv.NoneOverDataIff`, `Recv.ParkedOnNewsIff`.
- SYNs beyond the cap are documented to wait "until one frees" (`src/builder.rs:167-169`), but a TCP
  entry whose handshake is never seen to complete is never removed (`src/runner.rs:376-392`,
  `src/runner.rs:407`): `Permanence.PendingIff`, `Permanence.FullTableForever`; tables full of such
  entries are reachable (`Permanence.FullTableReachable`).
- A UDP session is documented to end after the timeout "with no traffic" (`src/builder.rs:186-187`),
  but only received datagrams count: sending does not touch the activity time
  (`src/stream/udp.rs:127-143`). `Silence.SendingIsNoActivity` says exactly when a session that only
  sends survives.

## Model

| member | source | states |
|---|---|---|
| `Runs.ReachableInv` | src/runner.rs:139-164 | In every state reachable by any interleaving of cycles and application calls, tables, socket sets, reference counts, queues, streams, budget and pools agree, and the configuration is the one built with |
| `Runs.ApplyInv` | src/runner.rs:187-506 | Every single step, whatever the engine and the hash orders do, keeps that agreement, also when it starts from a state no run reaches |
| `Runs.InitInv` | src/builder.rs:278-307 | A freshly built netstack with distinct interface ids satisfies the agreement |
| `Guarantees.SocketsExactlyOwned` | src/runner.rs:275-341 | Each interface's live handles are exactly the disjoint union of its TCP entries' handles, pairwise distinct, and its shared UDP sockets' handles, each of the right kind: nothing leaked, doubly owned or dangling |
| `Guarantees.SharedSocketsCounted` | src/session/manager.rs:112-146 | A destination has a shared socket exactly while some session uses it; its count is the number of those sessions and at least one; they all store its handle; it is the only socket bound there |
| `Guarantees.OpenQueueIffListed` | src/stream/udp.rs:157-175 | A session's queue is open exactly while the table lists that very queue under the session's key, and then with the session's own socket |
| `Guarantees.SendReachesOwnSocket` | src/stream/udp.rs:127-143 | A send by an open session finds a live UDP socket bound to its own destination; if the socket takes the datagram it is appended, addressed to the session's own source, to that transmit buffer and nothing else changes; if not, nothing changes at all; a send by a closed session fails and changes nothing |
| `Guarantees.StreamHandleIsOwn` | src/stream/tcp.rs:74-182 | A live stream's handle names the TCP socket of the entry under its own key, which is exposed and not orphaned; no other entry, stream or shared socket uses that handle, and no two live streams share a key |
| `Guarantees.BudgetConserved` | src/core.rs:68-81 | Charged bytes equal two buffers per TCP entry plus, per shared UDP socket and per failed bind, 64 bytes per packet and one payload region, with a region the larger of the configured size and the MTU and at least one packet; they never exceed the limit |
| `Guarantees.EventsConserved` | src/stream/tcp.rs:186-204 | Over any run, entries created are live or reaped, reaped <= dropped <= accepted <= created, live streams are accepted minus dropped, UDP retains are releases plus live entries, and both tables respect their caps |
| `Guarantees.PoolsBounded` | src/runner.rs:411-425 | Pools respect their cap and hold closed sockets only; live plus pooled sockets of an interface never exceed its historical peak, the connection cap, nor, times their cost, the buffer limit, although pooled sockets are uncharged |
| `Memory.MemoryCounted` | src/runner.rs:254-321 | In every reachable state the buffer memory counted socket by socket over all interfaces is two buffers per live or pooled TCP socket and, per shared UDP socket, two payload regions, each the larger of the configured size and the MTU, and two metadata slots per packet |
| `Memory.MemoryBounded` | src/core.rs:68-76 | With a limit set, and a UDP socket that takes at most c times its charge, socket memory over n interfaces is at most (n + c) times the limit, and at most c times the limit without pooling |
| `Memory.ChargedHalf` | src/runner.rs:303-321 | For metadata slots of up to 64 bytes, c = 2 will do, for every configuration |
| `Limits.LimitHonouredIff` | src/builder.rs:225-231 | For every configuration and metadata slot size: socket memory stays within every limit in every run if and only if there is no interface, or both a UDP charge covers what a UDP socket takes plus a full pool (or UDP sockets take nothing or cannot exist) and there is one interface only or pooled sockets take no memory |
| `Limits.PoolAndFlowBreak` | src/runner.rs:303-425 | If a UDP charge does not cover them, a pool filled by ended connections and then one UDP flow exceed the limit that just admits either |
| `Limits.TwoInterfacesBreak` | src/runner.rs:254-261 | With two interfaces, one pooled socket on the first and one live on the second exceed the limit that admits one socket |
| `Limits.LargeSlotsBreak` | src/runner.rs:303-321 | With metadata slots of 32 bytes or more and any UDP payload, no configuration that admits a UDP session honours every limit |
| `Holdings.TotalBounded` | src/runner.rs:254-261 | In every reachable state the live and pooled TCP sockets of all n interfaces together are at most the connections that cap and limit admit at once plus n - 1 full pools |
| `GivenLimit.MemoryAtMost` | src/core.rs:68-76 | Whatever the run, the connections and shared sockets listed are admitted together, and socket memory is at most a closed formula in their numbers |
| `GivenLimit.MemoryAttained` | src/runner.rs:254-425 | That formula is attained: for all numbers admitted together a run lists exactly so many while socket memory equals it, whatever the limit, interfaces and pools |
| `GivenLimit.HonouredAtIff` | src/builder.rs:225-231 | A configuration with its own limit keeps socket memory within that limit in every run if and only if the formula does for all numbers the caps and the limit admit together |
| `Redistribution.RedistributionIsIdeal` | src/runner.rs:434-478 | Draining all shared sockets and routing gives each session exactly the datagrams of its own destination socket sent from its own source, in arrival order; timestamps change exactly for sessions that got one; closed queues and everything else stay |
| `Redistribution.OwedByOwnSocket` | src/runner.rs:437-461 | What a listed session is owed is what the receive buffer of its own socket holds from its own source, oldest first, truncated datagrams left out |
| `Redistribution.IdealIsUnique` | src/runner.rs:434-478 | That per-session specification, which names no list and no order, determines the result |
| `Redistribution.RedistributionOrderIrrelevant` | src/runner.rs:437-444 | The hash map's enumeration order of destination sockets cannot be observed |
| `Tables.TcpPassEffect` | src/runner.rs:368-430 | A TCP entry is removed exactly if it is orphaned and its socket is closed; every other one advances by its socket's state, whatever the enumeration order |
| `Tables.PostPassSessions` | src/runner.rs:434-503 | A UDP session survives a post-pass exactly if it is owed a datagram or its last activity and the clock are at most the timeout apart, in either direction; its timestamp is refreshed exactly if it got one; its queue gains exactly what it is owed and is closed exactly if it is swept |
| `Tables.SweepEffect` | src/runner.rs:480-503 | The sweep keeps exactly the entries whose last activity and the clock are at most the timeout apart, unchanged, and leaves what the queues hold |
| `PrePassFacts.PrePassIdempotent` | src/runner.rs:187-241 | If listens and binds succeed, a second pre-pass over the packets put back changes nothing at all, with any choices, also for flows refused by a cap or the budget |
| `Witness.PrePassStableIff` | src/runner.rs:187-241 | In a reachable state no pre-pass changes anything, whatever opens, if and only if each queued packet is not a connection attempt, already has its session, or is refused by a cap or the budget |
| `PrePassFacts.PrePassGrows` | src/runner.rs:187-241 | A pre-pass only adds pending TCP entries, UDP entries and empty queues; existing entries, queues, sessions and streams stay as they are and charged bytes only rise |
| `PrePassFacts.PrePassIngress` | src/runner.rs:236-239 | After the pre-pass every interface's ingress queue holds the same packets in the same order, ready for the poll |
| `Arrivals.QueuedInOrder` | src/runner.rs:105-117 | Over any run an interface's ingress queue is what the last poll left in it followed by all packets queued for it since, in order |
| `Arrivals.FirstComeFirstServed` | src/runner.rs:194-235 | Whatever entries, sessions and charges the first packets of a queue bring about, they bring about no matter which packets follow |
| `Arrivals.InterfacesInTurn` | src/runner.rs:187-241 | ... and no matter what is queued on later interfaces |
| `Reuse.AllocDraws` | src/runner.rs:254-273 | A TCP allocation that the budget admits takes the first socket of its own interface's pool if there is one, also if the listen then fails; no other pool changes |
| `Reuse.OldestReusedFirst` | src/runner.rs:254-425 | In every cycle from a reachable state a pool loses sockets at its front only, in the pre-pass, and gains sockets at its end only, in the post-pass |
| `Traces.KeyGoesInRounds` | src/runner.rs:370-416 | Over any run, the events under a TCP key, read off its states, go round: entry inserted, one stream accepted, that same stream dropped, entry removed, with at most the last round unfinished; and the key stands at the end where its last event says |
| `Traces.RemovalEndsRound` | src/runner.rs:407-416 | So every removal is preceded by exactly one insertion, one acceptance and the drop of that very stream |
| `Traces.RoundsHaveOwnStreams` | src/stream/tcp.rs:186-204 | Different rounds of a key have different streams, numbered upwards |
| `Traces.EventMeaning` | src/runner.rs:370-416 | An event belongs to a step if and only if the step does it: a stream appears exactly in the cycle that finds its own pending entry's socket established, with that entry's handle; a drop is the drop of that stream; a removal is of an orphaned entry whose polled socket is closed; an insertion is of a key that was not listed |
| `Traces.AcceptedIff` | src/runner.rs:376-392 | A cycle hands out a stream for a key if and only if it finds the socket of a pending entry under that key established |
| `Lifecycle.EntryLifecycle` | src/runner.rs:370-416 | In one step from a reachable state an entry keeps its handle, advances at most one stage and never back, is orphaned only by the drop of its own stream, and leaves only in a cycle, orphaned, no longer pending and with its socket closed |
| `Losses.LostForever` | src/runner.rs:376-407 | A pending entry whose socket is beyond ESTABLISHED stays listed, unchanged and so, to the end of any run |
| `Losses.LostReachable` | src/runner.rs:376-377 | Any number of such entries that the connection cap and the limit admit is reachable, in a netstack that lists nothing else |
| `Losses.EarlyOrLost` | src/runner.rs:376-392 | In every reachable state a pending entry's socket is not established; it is in the middle of its handshake if and only if the entry is not lost |
| `Permanence.PendingForever` | src/runner.rs:376-392 | An entry no cycle finds established stays listed, unchanged, to the end of any run |
| `Permanence.PendingIff` | src/runner.rs:376-407 | Over any run a pending entry sees no event at all if and only if no cycle finds its socket established |
| `Scenarios.PendingReachable` | src/runner.rs:202-213 | Any number of pending entries that the connection cap and the limit admit is reachable |
| `Permanence.FullTableForever` | src/runner.rs:202-213 | A full table of such entries never changes again, and every later SYN of any connection is a no-op |
| `Permanence.FullTableReachable` | src/runner.rs:202-213 | If the limit admits a full table, a table full of pending entries is reachable, and runs of any length follow in which none is ever established |
| `Lifecycle.QuiescenceLeavesNothing` | src/runner.rs:407-505 | If nothing is pending, all streams and sessions are gone and all TCP sockets are closed, one post-pass empties all tables and socket sets; charged bytes are zero exactly if no bind ever failed |
| `Fifo.PopAnswers` | src/session/manager.rs:43-45 | A pop answers nothing if and only if nothing is queued; its answer followed by what stays queued is what was queued; nothing else changes |
| `Fifo.QueueIsFifo` | src/session/manager.rs:37-45 | Over any run, what the pops of a session answered followed by what is still queued is what was queued at the start followed by all that was routed to it, in order |
| `Fifo.SessionsSeeTheirDatagrams` | src/stream/udp.rs:84-94 | From the start of a netstack, what the pops answered plus what is queued is exactly, in order, what the session's destination socket received from the session's source while it was listed |
| `Fifo.ClosedForever` | src/session/manager.rs:47-54 | Over any run a closed queue stays closed and never gains another datagram, even if its 5-tuple is used again |
| `Isolation.DropIsolatedIff` | src/stream/udp.rs:157-175 | Dropping a session leaves every other session's object, queue, entry and socket untouched if and only if its own queue is open or nobody uses its 5-tuple |
| `Isolation.StreamDropIsolated` | src/stream/tcp.rs:186-204 | Dropping a stream orphans its own entry and closes its own socket: to FIN-WAIT-1 from SYN-RECEIVED or ESTABLISHED, to LAST-ACK from CLOSE-WAIT, to CLOSED from LISTEN or SYN-SENT, otherwise not at all; every other entry, stream, session, socket and the budget stay, and no other connection's state changes |
| `Isolation.ShutdownIsolated` | src/stream/tcp.rs:168-182 | Shutting a stream down from a reachable state closes its own socket in the same way, and every other socket, all tables, streams, queues and the budget stay |
| `Isolation.StaleDropHitsSuccessor` | src/stream/udp.rs:159-160 | In the remaining case the drop removes the successor's entry and closes the successor's open queue |
| `Scenarios.StaleSessionReachable` | src/stream/udp.rs:157-175 | For every UDP flow of every netstack with room for one session and budget for its socket, a run reaches a state in which dropping some session of that flow is not isolated |
| `Witness.CycleAlwaysPossible` | src/runner.rs:139-164 | No reachable state is stuck: at any time of the clock some cycle is possible |
| `Flows.CycleAdmits` | src/runner.rs:294-356 | In every cycle from a reachable state whose binds succeed, every queued UDP packet of a flow without a session gets one that is listed afterwards, last active now, open, and holding exactly its own datagrams; or the session cap or the budget refused it |
| `Flows.CycleExpires` | src/runner.rs:480-503 | In every cycle from a reachable state a listed session stays if and only if it hears something or its last activity and the clock are at most the timeout apart; its object stays in any case, and its queue keeps its contents, gains what is owed and is closed exactly if the session goes |
| `Silence.SendingIsNoActivity` | src/stream/udp.rs:127-143 | Over any run in which a session receives nothing, however much it sends, its entry is listed at the end, unchanged, if and only if no session under its 5-tuple was dropped and every cycle took place at most the timeout before or after its last activity |
| `Scenarios.LeakReachable` | src/runner.rs:318-329 | For every m that the limit admits, m failed binds lead to a reachable state with empty tables and m UDP charges still standing |
| `Permanence.ChargesNeverReturned` | src/runner.rs:318-407 | Whatever happens later in any run, the connections lost and the binds that failed so far stay charged |
| `Permanence.RefusedForever` | src/runner.rs:303-315 | Once lost connections and failed binds leave less than a socket's cost, no destination without a socket gets one in any later state of any run, and the set of shared sockets only shrinks |
| `Recovery.CanBeEmptied` | src/runner.rs:376-505 | From every reachable state some run ends with exactly the lost connections listed, unchanged, no UDP entry, no socket but theirs, and charged bytes equal to their cost plus that of the binds that failed before |
| `Recovery.ServedAgainIff` | src/runner.rs:303-315 | A flow to a destination without a socket gets a session in some future of a reachable state if and only if sessions are allowed at all and lost connections and failed binds leave room for one socket |
| `Recovery.ConnectsAgainIff` | src/runner.rs:202-262 | A TCP key gets a stream in some future of a reachable state if and only if it is not lost itself, lost connections are fewer than the connection cap, and with the failed binds they leave room for one more connection |
| `Recovery.ListedConnectsIff` | src/runner.rs:376-407 | A listed connection of a reachable state has or gets a stream in some future if and only if it is not lost |
| `Permanence.StarvedReachable` | src/runner.rs:318-329 | With a limit set, failing binds alone lead to such a state, with no session and no socket in existence |
| `Permanence.StarvedByLoss` | src/runner.rs:376-407 | So do lost connections alone, with no failed bind and no session, for every number of them that the cap and the limit admit and that leaves less than a UDP socket's cost |
| `Scenarios.PooledReachable` | src/runner.rs:411-425 | Any number of connections that the pool, the connection cap and the limit admit can all end up in the pool, with empty tables and nothing charged |
| `Recv.ReceivedInOrder` | src/stream/udp.rs:84-94 | Whatever pushes and closes fall between the steps of `recv`, the datagrams it returned followed by what is queued are those pushed, in order |
| `Recv.ParkedOnNewsIff` | src/stream/udp.rs:84-94 | In any run, a parked unwoken receiver popped nothing at a last position p, saw the queue open at q and registered at r; data is queued exactly if a push lies between p and r, and the queue is closed exactly if a close lies between q and r |
| `Recv.NewsAfterRegistrationWakes` | src/session/manager.rs:37-50 | Any push or close after registration wakes the receiver; whatever else is pushed or closed between its next steps, its second step returns the oldest datagram if there is one, otherwise its third returns `None` |
| `Recv.NoneOverDataIff` | src/stream/udp.rs:84-94 | A closed-check that sees the close returns `None` over queued data exactly if a push lies after the last, empty pop |
| `Recv.StaleViewsHappen` | src/stream/udp.rs:84-94 | Both stale views occur: parked on a datagram, and `None` over one |
| `PreserveAlloc.PrePassInv` | src/runner.rs:187-241 | The fold of the pre-pass over interfaces and packets keeps the agreement for all listen and bind outcomes and fresh handles |
| `PreserveAlloc.AllocTcpInv` | src/runner.rs:244-287 | So does one TCP allocation, in its refused, failed and successful branches |
| `PreserveAlloc.AllocUdpInv` | src/runner.rs:294-356 | So does one UDP allocation, whether it joins a shared socket, opens one, is refused or fails to bind |
| `PreserveTcp.ReapInv` | src/runner.rs:411-430 | So does reaping, pooled or not |
| `PreserveTcp.DropStreamInv` | src/stream/tcp.rs:186-204 | So does dropping a stream |
| `PreserveUdp.RemoveUdpInv` | src/runner.rs:488-503 | So does removing a UDP entry, with and without freeing its socket |
| `PreserveUdp.DropSessionInv` | src/stream/udp.rs:157-175 | So does dropping a UDP session, stale ones included |
| `PreserveUdp.RedistributeInv` | src/runner.rs:434-478 | So does redistribution, in any order |
| `CoreLoops.CycleReady` | src/runner.rs:187-506 | In every valid state every handle, queue and registration lookup of a coming cycle, stage by stage, finds its object, and what each removal gives back is charged: no socket-set access can panic and no release can saturate |
| `CoreState.Core.constructor` | src/builder.rs:278-307 | Builds a valid netstack that is the initial state of the transition system |
| `CoreState.Core.BuildSlots` | src/builder.rs:396-404 | The slot vector lists one empty slot per interface in order, found by id |
| `CoreState.Core.FindSlot` | src/core.rs:57-63 | The search finds the slot with that id exactly if the interface exists |
| `CoreState.Core.ReserveBuffer` | src/core.rs:68-76 | Charges exactly if the limit allows, otherwise changes nothing |
| `CoreState.Core.ReleaseBuffer` | src/core.rs:79-81 | Gives back, saturating at zero |
| `CoreState.Core.AllocTcp` | src/runner.rs:244-287 | Reserve, take from the pool, listen and register, or give the reservation back: the specified TCP allocation |
| `CoreState.Core.AllocUdp` | src/runner.rs:294-356 | The specified UDP allocation in all four branches; true exactly if a session was created |
| `CoreState.Core.UdpSocketFor` | src/session/manager.rs:112-125 | Returns the registered socket, or registers a new one with count zero if it binds, or nothing |
| `CoreState.Core.UdpSocketRetain` | src/session/manager.rs:128-132 | Adds one reference if the destination is registered |
| `CoreState.Core.UdpSocketRelease` | src/session/manager.rs:137-146 | Drops one reference; true exactly for the last one, which ends the registration |
| `CoreState.Core.PreSlot` | src/runner.rs:187-241 | The in-place loop over one slot's packets, taken out and put back, is the specified one |
| `CoreState.Core.PrePass` | src/runner.rs:187-241 | The in-place loop over the slot vector is the specified pre-pass |
| `CoreState.Core.VisitEntries` | src/runner.rs:368-410 | One loop advances every entry and collects exactly the reapable ones in order |
| `CoreState.Core.ReapEntries` | src/runner.rs:411-430 | Removing the collected entries and adding up their cost is reaping them one by one |
| `CoreState.Core.ReadBuffer` | src/runner.rs:446-461 | Reading until exhausted, skipping truncated datagrams, yields each datagram tagged with its session |
| `CoreState.Core.DrainSlot` | src/runner.rs:437-462 | Empties the receive buffers of exactly the slot's shared sockets and yields their datagrams in order |
| `CoreState.Core.DrainSlots` | src/runner.rs:436-462 | Does so for every slot, keeping each at its position |
| `CoreState.Core.DeliverAll` | src/runner.rs:464-478 | Pushes each datagram to its session's queue, or drops it if there is none, and refreshes activity |
| `CoreState.Core.Redistribute` | src/runner.rs:434-478 | Draining everything before the first delivery is the specified redistribution |
| `CoreState.Core.CollectExpired` | src/runner.rs:480-487 | Collects, in order, exactly the entries whose last activity and the clock are more than the timeout apart |
| `CoreState.Core.TakeUdp` | src/runner.rs:489-499 | Removes an entry, closes its queue, drops its reference and frees the socket with the last one; reports the cost to give back |
| `CoreState.Core.RemoveEntries` | src/runner.rs:488-503 | The sweep's loop with one summed release is removing the entries one by one |
| `CoreState.Core.PostPass` | src/runner.rs:360-506 | All stages with a single release at the end are the specified post-pass; the sum released is charged, so the saturating subtraction is exact |
| `CoreState.Core.PollOnce` | src/runner.rs:139-164 | From a valid state a cycle performs exactly the specified step, without a missed lookup and without a saturating release, and ends valid |
| `CoreState.Core.QueueIngress` | src/runner.rs:107-117 | Appends to the interface's queue, or drops the packet of an unknown interface |
| `CoreState.Core.StreamSocket` | src/stream/tcp.rs:83-90 | The lookup of `poll_read` and `poll_write` finds the stream's own TCP socket |
| `CoreState.Core.StreamShutdown` | src/stream/tcp.rs:168-182 | Closes the stream's own socket if it is open: the specified step, ending valid |
| `CoreState.Core.StreamDrop` | src/stream/tcp.rs:186-204 | Closes and orphans: the specified step, ending valid |
| `CoreState.Core.TrySend` | src/stream/udp.rs:127-143 | The specified send attempt and outcome, ending valid |
| `CoreState.Core.QueuePop` | src/session/manager.rs:43-45 | Answers nothing exactly if nothing is queued, otherwise the oldest datagram, which it takes out, ending valid |
| `CoreState.Core.SessionDrop` | src/stream/udp.rs:157-175 | The specified drop, whose release never saturates, ending valid |

## Left out

- smoltcp itself (handshake, demultiplexing, retransmission, transmit buffers): the engine is a parameter with the assumptions named above. Which packets cause which transition is not modelled, so a constructed run says in which state a poll leaves each connection, not what its peer sent. `is_open` is "neither closed nor time-wait", and the difference of two instants is their distance.
- Packet parsing (`src/runner.rs:510-573`): the pre-pass starts from parsed packets.
- The runner's waiting and timing (`src/runner.rs:65-104`) and the retry loop of `send` (`src/stream/udp.rs:100-123`): no claim about timely wake-ups.
- Egress and accept channels and the netstack handle: a session that cannot be handed over is dropped, which is one of the modelled drop steps.
- TCP payload (`recv_slice`, `send_slice`) and wakers: only the handle lookup of reads and writes is modelled.
- Builder setters, routes and allocator tuning. Interface ids are distinct, as `src/builder.rs:266-269` enforces.
- Logging, formatting, address conversion.
- Machine-word overflow of the byte counter: bytes are natural numbers.
- Queues are kept in a map by identity instead of being shared objects; identities are never reused.
- CoreState.Core.DrainSlots: the slot vector is rebuilt and assigned once instead of being written slot by slot.
- Memory.MemoryCounted: counts what socket buffers allocate, metadata slots included, not datagrams in receive queues, packets in ingress queues (neither is bounded by the limit) or allocator overhead.
- Limits.LimitHonouredIff and GivenLimit.HonouredAtIff: speak of the same memory.
- Recv.NewsAfterRegistrationWakes: says what the receiver does once it is scheduled, not when.
