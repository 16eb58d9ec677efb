# Verification of the SLoRa mesh stack and the flood baselines

SLoRa is a LoRa mesh stack: nodes announce themselves, set up pairwise encrypted links, find multi-hop routes
AODV-style on demand, and send sealed data frames in TSCH slots.  A simulator host runs each node's actions, and
three flood baselines (naive, SNR, MPR) serve as comparison.  This project models the stack, its host and the
baselines in Dafny and proves what they keep to in every run.

Check it with `dafny verify dfyconfig.toml`.

## How the model is laid out

Handlers that update fields in place are methods of classes, one class per concern of a node:

- `StackNode.Node`: link set-up, routing and relaying (`link.zig`, `route.zig`, `relay.zig`);
- `SlotNode.Node` and `HostApp.SloraApp`: the slot driver (`tsch.zig`) and the host's wakeups, tuning and action loop
  (`SloraApp.cc`);
- `Buffers.Node`: action queue, scratch buffer and heap blocks (`slora.zig`);
- `FloodNode.FloodApp`: the flood application (`FloodApp.cc`).

Each method is proved equal to a value-level function (`After...` in `NodeModel`, `SlotModel` and `FloodModel`), loops
included.  What these functions come to is stated apart from how they are put together, branch by branch and with
costs, limits and intervals written out: `RouteHandlers` (links, requests, replies, what a link releases),
`RelayHandlers` (sending, passing on, sealing), `SlotHandlers` (wakeups, beacons, the host) and `FloodHandlers` (packets,
HELLOs, elections).  State machines over the same functions carry the whole-run theorems:

- `Network`: N mesh nodes and everything ever put on the air.  A step lets one node act on any frame ever sent, so loss,
  duplication, delay and reordering are covered without steps of their own.
- `SlotRuns`: stations with their hosts under one simulated clock that never skips a due wakeup.
- `FloodNet`: flood nodes on a channel where a transmission reaches each other node at most once, or never.

Theorems about the mesh: `LoopFreedom`, `Forwarding`, `Trajectories` (routes), `Journeys` and
`DataArrival` (packets), `ReverseTree`, `ReplyProgress`, `ReplyArrival`, `RequestTermination`, `Retries`, `Cascades`, `CheapestCosts` with `Trails` and `TrailSteps` (one
route request), `Links`, `DataFrame`, `Sealing`, `LinkQueues`, `EmptyPayloads` (links), `IdCollision` (runs in which two
requests draw one id).  About slots: `Schedule`, `SlotClock`, `ClockSpread`, `Rendezvous`.  About the baselines: `Mpr`,
`DuplicateCache`, `FloodRuns`, `FloodBound`, `FloodCoverage`, `FloodReach`, `SuppressionLoss` and `ElectedLoss` (runs in
which suppression leaves a node out).  `Types`, `Sums`, `Ownership`, `NodeFacts`, `Effects`, `DataEffects`, `RouteOrder`
and `ReversePaths` hold what these share.

## Hypotheses

The code does not enforce these; the theorems that need one say so in a `requires`.

- Request ids are random 32-bit numbers and `reverse_paths` is keyed by the id alone.  `ConsistentIds` asks that
  requests with one id are for one destination; `CleanRequest` that one id belongs to one originator and destination.
  `IdCollision.CollidingIdsLoop` is a run without this in which a routing loop forms, `CollisionWithoutLoop` one with the
  same requests in which none does.
- Nothing is lost where arrival is claimed: `CheapestCosts.Quiet` for requests, `ReplyArrival.NoReplyLost` for replies,
  `DataArrival.NothingLost` for data, `FloodCoverage.Quiet` for floods.
- Networks have at most twelve nodes where a request is claimed to reach all that are connected: with radius ten it
  is heard at most eleven hops away.
- Link counts stand still where costs are claimed to be those of whole paths (`CheapestCosts.Stretch`), and only there:
  discovery itself sets up links.
- `CleanRequest` bounds link counts: eleven times the largest hop cost fits 16 bits, so costs do not saturate.
  Loop freedom does not need this: an equal (sequence number, cost) entry is never overwritten, so at the ceiling the
  time an entry was written still orders the hops.
- Nodes are honest, addresses are distinct, allocation succeeds, and local time does not run backwards.
- Cryptography is ideal: Ed25519 names the true sender, X25519 yields the unordered pair of key owners, BLAKE2b and
  the address hash are injective (a link key stands for the inputs it is derived from), and
  ChaCha20-Poly1305 opens under exactly the sealing key.
- Cache evictions are excluded (at most 32 different packets) where the reach of a flood and single relaying are
  claimed, and only there.
- The host runs all queued actions after each call, as `SloraApp` does.

## What the code does not do

- A payload of 192 bytes is accepted and queued (`route.max_payload`) but can never be framed (`relay.max_payload` is
  191): it blocks its link for good.  `LinkQueues.TransmitsIffFits`, `QueuedButNeverFramed` and `StuckForGood` say
  exactly when.
- An empty payload is accepted and queued, and trips an assertion of the slot driver
  (`EmptyPayloads.EmptyPayloadWaits`).  `SendLeavesEmptyIff` says exactly which calls let one in, and
  `EmptyHeldIffKept` that in any run there is no other way.
- A relay whose route leads back to a packet's source drops the packet without counting it
  (`RelayHandlers.ForwardDropsReturning`); it counts every other packet it cannot queue.
- Parked payloads that a link releases beyond the 32 its queue holds are lost, and not counted
  (`RouteHandlers.FlushReleases`).
- A flood in the SNR or MPR mode need not reach all that the naive one reaches, even if nothing is lost
  (`SuppressionLoss`, `ElectedLoss`).  `FloodReach.FloodReachesExactly` says which nodes it does reach.
- `schedule.zig` speaks of channels rotating per slot.  A cell keeps one channel for ever, because the slotframe is as
  long as the hop sequence (`Schedule.CellNeverHops`).  The model follows the code.
- The early exit of the relay election is dead code (`Mpr.SomeoneCovers`), and so are the fallback delay of the slot
  scheduler (`SlotClock.ArmsNextSlot`) and the missing-route drop of the relay (`Forwarding.NoPacketLacksARoute`).

## Model

| member | source | states |
|---|---|---|
| LoopFreedom.NoRoutingLoops | src/stack/src/route.zig:82-182 | In every state of every run with consistent ids, next hops for a destination lead from any node that has a route to the destination itself, over distinct nodes, and no walk along next hops repeats a node. |
| LoopFreedom.StepKeepsRouteInv | src/stack/src/route.zig:101-182 | One step of any node keeps: each next hop is the destination or holds a strictly better (sequence number, cost, time written) entry for it, and frames in flight are backed by such entries. |
| LoopFreedom.WalkIsSimple | src/stack/src/route.zig:82-91 | Where every hop improves the entry, a walk along next hops visits no node twice. |
| Trajectories.RoutesEvolve | src/stack/src/route.zig:82-91 | Over any stretch of a run an entry stays or is replaced by a strictly better one; it never disappears. |
| Trajectories.NextHopBeatsRouteUsed | src/stack/src/relay.zig:103-122 | If a node's route led to a next hop at some time, then at any later time that hop is the destination or holds a better entry than the node had. |
| Trajectories.TrajectoryImproves | src/stack/src/relay.zig:103-122 | Along any sequence of nodes and times in which each node's route led to the next node, the entries improve strictly. |
| Trajectories.RevisitNeedsBetterRoute | src/stack/src/relay.zig:103-122 | Such a sequence returns to a node only after that node adopted a route of newer sequence number, or equal and cheaper. |
| Forwarding.StepKeepsForwardInv | src/stack/src/route.zig:184-248 | Every queued item is for its next hop or for a destination that hop has a route to, and every sealed frame can be handled at both ends of its link; one step of any node keeps this. That the route is better than the one used is Journeys.WaitingFollowsRoute. |
| Journeys.TakenAlongRoute | src/stack/src/route.zig:195-239 | In every run an item takes its place on a link only if the link leads to its destination, or to the next hop its node has for it right after the step that queued it. |
| Journeys.WaitingFollowsRoute | src/stack/src/route.zig:195-239 | In every run with consistent ids, whatever waits on a link to a next hop is for that hop, or was sent there by the route its node had in the step that queued it, and the hop's route is by now better than that one. |
| Journeys.SealedFollowsRoute | src/stack/src/tsch.zig:85-94 | The same for every sealed frame on the air, with the step that queued its payload. |
| Journeys.OnePacket | src/stack/src/relay.zig:53-134 | A packet relayed from link to link, traced by its place in each link's traffic, is the same item at every stay. |
| Journeys.RelayKeepsPacket | src/stack/src/relay.zig:74-122 | What a relay queues on hearing a frame is the packet in it, and it goes to the destination or where the relay's route leads at that moment. |
| Journeys.EveryRelayImproves | src/stack/src/relay.zig:103-122 | In every run, under concurrent route updates, of two stays of one packet the later node's route to the destination is better than the route that, when the earlier node queued the packet, led it to the next stay. |
| Journeys.ReturnNeedsBetterRoute | src/stack/src/relay.zig:103-122 | A packet comes back to a node only after that node's route has strictly improved on the one that led it to its next stay. |
| Forwarding.NoPacketLacksARoute | src/stack/src/relay.zig:109-113 | In every run with consistent ids no node ever counts a packet dropped for want of a route. |
| DataArrival.DataArrives | src/stack/src/route.zig:195-248 | In every run with consistent ids that loses nothing (queues run empty, and each frame is at least once opened by its peer which, if it relays, counts no drop and has no route back to the packet's source), every packet a link ever takes, anywhere on its way and under whatever route changes, is handed out at its destination as coming from its source. |
| DataArrival.SubmittedArrives | src/stack/src/route.zig:224-239 | In such a run a payload handed in where a link or a linked next hop has room reaches its destination. |
| DataArrival.ParkedArrives | src/stack/src/route.zig:174-222 | In such a run every payload parked for a destination when a reply comes home, or a link is made, over which that destination is then reached, arrives there, if the queue has room for all that is released. |
| DataArrival.KeptIsTaken | src/stack/src/relay.zig:74-134 | In every run with consistent ids, a relay that counts no drop and whose route does not lead back to the source queues exactly the packet it heard on one of its links. |
| IdCollision.CollidingIdsLoop | src/stack/src/route.zig:115-127 | A concrete run in which two requests draw one id and two nodes end up as each other's next hop: the hypothesis on ids is needed. |
| IdCollision.CollisionWithoutLoop | src/stack/src/route.zig:115-127 | The same colliding requests in a run in which no node ever has a route: sharing an id does not by itself make a loop. |
| ReverseTree.StepKeepsTree | src/stack/src/route.zig:101-182 | One step of any node keeps, for a request: entries cost more than the entry they point to, in-flight requests and replies match entries, costs only fall. |
| ReplyProgress.ReversePathTree | src/stack/src/route.zig:115-125 | In every state previous-hop pointers of a request lead from any entry to the originator, the cost falling strictly at each hop. |
| ReplyProgress.ReverseCostBound | src/stack/src/route.zig:275-279 | Every reverse cost is at most eleven hop costs, and it is 0 exactly at the originator. |
| ReplyProgress.InFlightCostBound | src/stack/src/route.zig:134-139 | A request in flight with radius r has cost at most (10 - r) hop costs. |
| ReplyArrival.ReplyMovesOn | src/stack/src/route.zig:155-182 | In every run, the addressee of a reply that hears it has the reverse entry and is not the destination; it is the originator, or in that step puts the reply on the air for a node of strictly smaller cost. |
| ReplyArrival.ReplyGetsHome | src/stack/src/route.zig:142-182 | In every run in which no reply is lost, each reply put on the air is handed from addressee to addressee and heard at the originator, after at most as many further hops as its first addressee's cost, while entries keep improving. |
| ReplyArrival.RequestIsAnswered | src/stack/src/route.zig:101-182 | If moreover the request reached its destination, the originator hears a reply and has a route to the destination from then on. |
| ReplyArrival.DiscoverySucceeds | src/stack/src/route.zig:101-292 | In a network of at most twelve nodes, whatever links are set up meanwhile: if a request loses nothing and no reply is lost, the originator ends with a route to a destination that radio edges connect it to. |
| RequestTermination.RebroadcastMeansCheaper | src/stack/src/route.zig:117-139 | A new request frame from a relay appears only with a strict drop of that relay's cost, carries that cost, and is the only one of the step. |
| RequestTermination.TakeUpsSpend | src/stack/src/route.zig:115-139 | Over any run, every rebroadcast of an id spends a unit of the total cost left to lose. |
| RequestTermination.FloodTerminates | src/stack/src/route.zig:115-139 | Over any run whatsoever, one id is taken up at most 65536 times per node. |
| Retries.RequestsKeepTheirDistance | src/stack/src/route.zig:268-271 | In every run, of two requests of a node for one destination the later is at least twenty seconds after the earlier. |
| Retries.EventRequests | src/stack/src/route.zig:268-273 | Of all that can happen to a node only a payload for which a request goes out moves the time noted for a destination and the sequence number, and it moves that number by one. |
| CheapestCosts.ChainsNeverRepeat | src/stack/src/route.zig:111-139 | Behind any request frame in any run there is a chain of hearings from the originator to its sender that visits each node once. |
| CheapestCosts.NothingBeyondElevenHops | src/stack/src/route.zig:134-139 | A node that holds a reverse entry is reached by some path of at most eleven hops along which requests were heard. |
| Cascades.CascadesAreShort | src/stack/src/route.zig:111-139 | Every chain of rebroadcasts in any run, each made on hearing the one before, has at most eleven transmissions, all by different nodes. |
| Cascades.CostsAddUp | src/stack/src/route.zig:111-139 | Even while link counts change, each request in flight carries and each node holds the sum, over the nodes on one path from the originator, of 1 plus the number of links each had when it heard the request. |
| CheapestCosts.FloodReachesConnected | src/stack/src/route.zig:101-139 | Link counts changing, at most twelve nodes, nothing lost and all heard: the request has reached every node that a path not relayed through the destination leads to, and no other if it was heard along those edges only. |
| CheapestCosts.CostIsOfRealPath | src/stack/src/route.zig:111-125 | In every run on which link counts stand still, a node's cost is that of a path the request was heard along, not relayed through the destination, each node counting 1 plus the number of its links. |
| CheapestCosts.FloodFindsCheapestCosts | src/stack/src/route.zig:49-139 | Link counts fixed, at most twelve nodes, nothing lost and all heard: a node has an entry if and only if a path not relayed through the destination reaches it, and its cost is the least over all such paths, each node heard at counting 1 plus the number of its links. |
| Links.PairKeyIdentifiesPair | src/stack/src/crypto.zig:19-29 | Two link keys are equal if and only if they belong to the same unordered pair of nodes. |
| Links.StepKeepsLinkInv | src/stack/src/link.zig:65-99 | Both ends of every link hold the key of their pair, through any re-handshakes. |
| Sealing.LittleEndianInjective | src/stack/src/crypto.zig:33 | Equal counter bytes mean equal counters below 2^64. |
| Sealing.NoncesDiffer | src/stack/src/crypto.zig:31-37 | Two nonces of one link differ if the counters or the directions differ. |
| Sealing.NonceUniqueness | src/stack/src/relay.zig:19-37 | Over every run with any number of re-handshakes no two sealed frames share link key and nonce. |
| Sealing.DeliveriesAuthentic | src/stack/src/relay.zig:53-101 | A payload handed out at a node was handed in, unchanged and for that node, by the source named with it. |
| DataFrame.DispatchReadsBuilt | src/stack/src/relay.zig:39-88 | A datagram is framed exactly if header and payload fit 224 bytes, and the other end reads back the same destination, source and payload. |
| DataFrame.BuildsWhatWasRead | src/stack/src/relay.zig:74-88 | A text that is read as a datagram is byte for byte the one that datagram is laid out as. |
| LinkQueues.LinksAreFifo | src/stack/src/relay.zig:124-134 | What a link has sealed, followed by what waits, is a log that only grows at its end in every run: nothing is reordered, lost or repeated, and at most 32 items wait. |
| LinkQueues.TransmitsIffFits | src/stack/src/tsch.zig:85-96 | A transmission takes the head off its queue if and only if it is at most 191 bytes; otherwise nothing changes. |
| LinkQueues.QueuedButNeverFramed | src/stack/src/route.zig:40 | A payload the application may send cannot be framed if and only if it has the full 192 bytes, and it is queued all the same. |
| LinkQueues.StuckForGood | src/stack/src/tsch.zig:88 | In any run, once such a payload heads a queue its link never carries anything again. |
| EmptyPayloads.NothingEmptyWaits | src/stack/src/tsch.zig:86-87 | In every state of every run in which the application hands in no empty payload, no queued payload is empty, so the assertion holds. |
| EmptyPayloads.SendLeavesEmptyIff | src/stack/src/route.zig:224-271 | After a call to send, with nothing empty before, something queued or parked is empty if and only if the payload is, it is not for the node itself, and the link it goes to has room or, without a link, it is the node's own. |
| EmptyPayloads.EmptyHeldIffKept | src/stack/src/tsch.zig:86-87 | Over any run, some node comes to hold an empty payload if and only if in some step an application hands one in and that condition on the call holds. |
| EmptyPayloads.EmptyPayloadWaits | src/stack/src/tsch.zig:86-87 | A run in which an empty payload is handed in and heads a link queue, where the assertion fails. |
| StackNode.Node.TryEstablish | src/stack/src/link.zig:51-63 | In place, the state AfterTryEstablish gives, and success exactly when a link exists or may still be made; when it asks is RouteHandlers.LinkAskedIffDue. |
| StackNode.Node.HandleLinkFrame | src/stack/src/link.zig:65-99 | Installs the key keeping counter and queue, flushes parked payloads, answers a request. |
| StackNode.Node.HandleAnnounce | src/stack/src/announce.zig:41-70 | In place, the state AfterAnnounce gives: the neighbour is learnt, and a target peer asked for a link. |
| StackNode.Node.VerifySig | src/stack/src/route.zig:68-80 | In place, the state Verified gives: an unknown or key-less sender is learnt, nothing else changes. |
| StackNode.Node.UpsertRoute | src/stack/src/route.zig:82-91 | In place, the table Upsert gives; that it only ever improves an entry is RouteOrder.EntriesOnlyImprove. |
| StackNode.Node.HandleRreq | src/stack/src/route.zig:101-140 | In place, the state AfterRreq gives, for each of the cases of RouteHandlers.OwnRequestIgnored, RequestTouches and RequestCosts. |
| StackNode.Node.HandleRrep | src/stack/src/route.zig:155-182 | In place, the state AfterRrep gives, flush loop included, for each of the cases of RouteHandlers.ReplyIgnored, ReplyCosts, ReplyGoesOn and ReplyReleases. |
| StackNode.Node.EnqueueOnLink | src/stack/src/route.zig:184-193 | Appends if fewer than 32 items wait, otherwise changes nothing and says so. |
| StackNode.Node.FlushPendingFor | src/stack/src/route.zig:195-222 | Moves the parked payloads of every matching destination to the link in order, and removes those entries only. |
| StackNode.Node.Send | src/stack/src/route.zig:224-248 | Link, then route, then link requests and route discovery, in this order and under these conditions. |
| StackNode.Node.Initiate | src/stack/src/route.zig:250-292 | In place, the state AfterInitiate gives: the payload is parked, and a request goes out exactly if RelayHandlers.SendAsksIffDue says that one is due. |
| StackNode.Node.BuildDataFrame | src/stack/src/relay.zig:19-51 | Seals the head under the link key and next counter and takes it off the queue; an oversize head stays. |
| RouteHandlers.LinkAskedIffDue | src/stack/src/link.zig:51-63 | A link request is queued and its time noted if and only if there is no link, fewer than eight links, and the last request to that peer was never made, or at time 0, or is five seconds old; else nothing changes. |
| RouteHandlers.LinkFrameInstalls | src/stack/src/link.zig:65-99 | A link frame for the node makes its sender known, installs the key of the pair keeping counter and queue, and releases what is parked for the sender or routed over it; a request is answered and a response is not. |
| RouteHandlers.AnnounceAsksTargets | src/stack/src/announce.zig:56-69 | An announcement makes its sender known, keeping the time of the last link request; exactly a target peer to which a link request is due gets one. |
| RouteHandlers.RequestTouches | src/stack/src/route.zig:108-116 | A request of another node makes its sender known; if it does not lower the cost nothing else changes, and if it does only routes, reverse paths and the queue do. |
| RouteHandlers.RequestCosts | src/stack/src/route.zig:111-139 | A request that lowers the cost sets the reverse path, offers a route and is rebroadcast at what it carried plus 1 plus the number of links, capped at 65535; the destination replies instead, at 1 plus its links, and with no hops left nothing is sent. |
| RouteHandlers.ReplyIgnored | src/stack/src/route.zig:162-167 | A reply of one's own changes nothing; one to an unknown request, or to a request for the node itself, only makes its sender known. |
| RouteHandlers.ReplyCosts | src/stack/src/route.zig:169-172 | Any other reply is offered as a route at what it carried plus 1 plus the number of links, whomever it is addressed to; if that is another node nothing more happens. |
| RouteHandlers.ReplyGoesOn | src/stack/src/route.zig:174-181 | A reply addressed to the node for another originator goes on to the previous hop at the cost it has here, after a link request if one is due, and nothing is released. |
| RouteHandlers.ReplyReleases | src/stack/src/route.zig:174-179 | A reply that is home releases, if its sender is linked, the payloads parked for the sender and for every destination whose route, as it now is, leads there: the queue grows by them in order, destination by destination, as far as 32 allow, and they are no longer parked. |
| RouteHandlers.NothingStaysBehind | src/stack/src/route.zig:199-221 | After a release a destination is still parked if and only if it was and the link does not lead to it, so entries of other destinations stay. |
| RouteHandlers.ParcelsHave | src/stack/src/route.zig:208-211 | Each payload parked for a destination the link leads to is among what is released, with that destination and the node as its source. |
| RouteHandlers.FlushReleases | src/stack/src/route.zig:195-222 | A flush in any order appends what the link leads to as far as 32 allow, unparks exactly that, and touches no other link or table. |
| RouteHandlers.UpsertOffers | src/stack/src/route.zig:82-91 | An offered entry is taken if there was none, if it is newer, or if it is as new and cheaper; no other entry changes. |
| RelayHandlers.SendRefuses | src/stack/src/route.zig:225-226 | A payload over 192 bytes, or for the node itself, changes nothing. |
| RelayHandlers.SendTakesTheWay | src/stack/src/route.zig:228-237 | With a link to the destination, or else to the next hop, the payload joins that queue if fewer than 32 wait, and else only the full-queue counter grows. |
| RelayHandlers.SendSeeks | src/stack/src/route.zig:233-241 | Without one, the next hop is asked for a link if one is due, then a neighbouring destination; a destination that is the next hop is asked once, or twice at time 0. |
| RelayHandlers.SendDropsForeign | src/stack/src/route.zig:243-246 | A payload of another source without a way is dropped and counted, after these link requests. |
| RelayHandlers.SendAsksIffDue | src/stack/src/route.zig:250-292 | The node's own payload without a way is parked, the ninth replacing the oldest; if none was made for the destination, or the last is twenty seconds old, a request goes out with the next sequence number, cost 0 and ten hops, noted with its time and a reverse path that ends here; else nothing more changes. |
| RelayHandlers.RequestQueuedIffDue | src/stack/src/route.zig:268-291 | What such a call queues is the link requests and then, if and only if a request is due, that one request. |
| RelayHandlers.ForwardTakesTheWay | src/stack/src/relay.zig:103-134 | A relay with a link to the destination, or to a next hop that is not the source, appends exactly the packet there and counts one forward if fewer than 32 wait; else it only counts a full queue. |
| RelayHandlers.ForwardDropsReturning | src/stack/src/relay.zig:114 | A packet whose route leads back to its source changes nothing. |
| RelayHandlers.ForwardLacksLink | src/stack/src/relay.zig:120-121 | A next hop without a link is asked for one if that is due, and the drop is counted. |
| RelayHandlers.ForwardLacksRoute | src/stack/src/relay.zig:109-113 | Without link and route a neighbouring destination is asked for a link if that is due, and the drop is counted. |
| RelayHandlers.OpenedHandedOut | src/stack/src/relay.zig:66-88 | A frame that some key opens is handed out at its destination, where nothing else changes, and passed on anywhere else. |
| RelayHandlers.HeadSealedIffFits | src/stack/src/relay.zig:19-51 | The head of a queue is sealed, leaves and uses up one counter if and only if it has at most 191 bytes. |
| RelayHandlers.NonceBytes | src/stack/src/crypto.zig:31-37 | The nonce is the eight counter bytes, least significant first, three zeros, and 128 or 0 as the sender's address is the greater or not. |
| RelayHandlers.FrameLayout | src/stack/src/relay.zig:39-51 | A datagram of at most 191 bytes is laid out as 3, sixteen bytes of destination, sixteen of source, least significant first, and the payload. |
| RouteOrder.EntriesOnlyImprove | src/stack/src/route.zig:82-91 | An offered entry leaves every entry as it was or strictly better by newer sequence number, or the same and lower cost. |
| Effects.RreqHasEffect | src/stack/src/route.zig:111-139 | A useful request sets the reverse entry and offers a route at its summed cost, and queues exactly the destination's reply, or the rebroadcast with one hop less, or nothing when no hops are left. |
| Effects.RrepHasEffect | src/stack/src/route.zig:155-182 | An accepted reply offers a route, leaves reverse paths alone, and queues besides link requests exactly the reply passed on, if it is to be. |
| NodeFacts.TryEstablishQueue | src/stack/src/link.zig:51-63 | At most one link request of the node itself is queued. |
| NodeFacts.InitiateFacts | src/stack/src/route.zig:250-292 | A request is started or only the payload parked; links and counters stay, and nothing is parked but what was and the new payload. |
| NodeFacts.ForwardTables | src/stack/src/relay.zig:103-122 | Tables stay, only link requests are queued, and the missing-route counter moves exactly when there is neither link nor route. |
| Journeys.ForwardedWhere | src/stack/src/relay.zig:103-122 | At most one link queue grows, the direct one or the next hop's, and by exactly the packet. |
| StackNode.Node.HandleEncryptedRx | src/stack/src/relay.zig:53-72 | Trying every link key in any order delivers or forwards exactly if some key opens the frame. |
| StackNode.Node.ForwardToward | src/stack/src/relay.zig:103-122 | In place, the state AfterForward gives, for each of the cases of RelayHandlers.ForwardTakesTheWay, ForwardDropsReturning, ForwardLacksLink and ForwardLacksRoute. |
| StackNode.Node.Enqueue | src/stack/src/relay.zig:124-134 | Appends and counts the forward exactly if there was room. |
| Schedule.HopIsPermutation | src/stack/src/schedule.zig:24 | The hop sequence contains each of the sixteen channels once. |
| Schedule.CellNeverHops | src/stack/src/schedule.zig:24-63 | Whatever the slot number, a sender in a cell's slot uses one and the same frequency for that cell. |
| Schedule.CellsKeepApart | src/stack/src/schedule.zig:38-47 | In one slot two cells share a frequency if and only if they share the channel offset. |
| Schedule.NextBoundary | src/stack/src/tsch.zig:25-27 | The next slot boundary is ahead, at most a slot away, and begins the next slot number. |
| SlotClock.ArmsNextSlot | src/stack/src/tsch.zig:25-34 | The armed delay ends within (now, now + slot] on a boundary of the own clock, for the next slot number; the fallback delay is never used. |
| SlotClock.AssertionHolds | src/stack/src/tsch.zig:19-23 | In every run the adjusted time is never negative. |
| SlotClock.SlotWakeupIsArmed | src/sim/SloraApp.cc:155-164 | In every run a started station holds a slot wakeup due between now and a slot from now, on a slot boundary of its clock, through wakeups and resynchronisations. |
| SlotClock.WakeupsCountOn | src/stack/src/tsch.zig:36-39 | Unless the clock was moved in between, successive slot wakeups are for successive slot numbers. |
| SlotClock.ClocksAgree | src/stack/src/tsch.zig:111-123 | In every run, if beacons arrive within a lag, the slot numbers of any two stations differ at any time by at most the slots that lag and one slot more span. |
| SlotClock.SpreadInSlots | src/sim/SloraApp.cc:174-177 | That bound is at most 1 + ceil(lag / slot). |
| ClockSpread.SpreadIsReached | src/sim/SloraApp.cc:174-177 | For every lag there is a run that brings two started stations exactly that bound apart. |
| Rendezvous.BurstTakesPrefix | src/stack/src/tsch.zig:83-96 | A burst sends the first items of the queue in order under consecutive counters, and stops only at its limit, the end, or an oversize item, leaving exactly the rest. |
| Rendezvous.FirstReadyIsReady | src/stack/src/tsch.zig:74-81 | The link chosen owns the slot and has something to send; none is chosen only if there is no such link. |
| Rendezvous.WakeupSendsToOwner | src/stack/src/tsch.zig:36-100 | Every frame a wakeup transmits is the item of a link whose peer owns the slot, on that peer's one frequency. |
| Rendezvous.SenderAndReceiverMeet | src/stack/src/tsch.zig:50-60 | In every run, the radio of the owner of a slot is on the frequency of any frame sent in that slot, from the owner's own wakeup in it to its next wakeup, even if it transmitted there itself. |
| SlotNode.Node.ScheduleNextSlot | src/stack/src/tsch.zig:25-34 | Queues one slot wakeup for the next boundary. |
| SlotNode.Node.DrainBroadcasts | src/stack/src/tsch.zig:63-69 | Queues the first 32 broadcasts in order and keeps the rest. |
| SlotNode.Node.MaybeTxOnCell | src/stack/src/tsch.zig:71-100 | Serves the first link, in iteration order, whose peer owns the slot, and reports whether there was one. |
| SlotNode.Node.HandleSlotWakeup | src/stack/src/tsch.zig:36-61 | In place, the state AfterWakeup gives, for each of the cases of SlotHandlers.WakeupTransmits and WakeupListens. |
| SlotNode.Node.SyncTimeFromEb | src/stack/src/tsch.zig:111-123 | Only the first source heard moves the clock, and only a changed offset re-arms the slot. |
| SlotHandlers.WakeupTransmits | src/stack/src/tsch.zig:36-100 | In a slot other than 0 with some link ready, in the own slot as in any other: up to 32 broadcasts go out, then up to four items of the first ready link, stopping before one over 191 bytes, each as one frame under its own counter on the owner's frequency; exactly these leave that queue, no other link changes, and tuning to the own cell and the next slot's wakeup follow. |
| SlotHandlers.WakeupListens | src/stack/src/tsch.zig:43-61 | With no link ready, or in slot 0, where a due beacon joins the broadcasts: no data goes out and no link changes, the radio is tuned in the own slot only, and the next slot is armed. |
| SlotHandlers.SourceSetsClock | src/stack/src/tsch.zig:111-123 | A beacon of the first source heard sets the offset to its slot number's time; if that moves the clock, exactly one wakeup a whole slot ahead is armed. |
| SlotHandlers.OtherSourceIgnored | src/stack/src/tsch.zig:114-115 | A beacon of any other source changes nothing. |
| SlotHandlers.CellIs | src/stack/src/schedule.zig:24-63 | A node's slot is 1 plus the first hash word modulo 15; its channel is entry (slot number + second word modulo 16) modulo 16 of the hop list, 1.6 MHz apart from 903.25 MHz up. |
| SlotHandlers.DrainHandsOver | src/sim/SloraApp.cc:285-334 | Whatever actions are queued, the host hands all broadcasts, data frames and payloads among them over, each kind in its order. |
| SlotHandlers.LastArmCounts | src/sim/SloraApp.cc:367-381 | A token's wakeup is due a delay after it was last armed, and none is if it was cancelled last. |
| SlotHandlers.DrainTunes | src/sim/SloraApp.cc:342-365 | The data radio ends as the last transmission or tuning wants it and changes once for each that differs from the one before; without a radio nothing is tuned. |
| SlotHandlers.WakeupReachesRadios | src/sim/SloraApp.cc:157-164 | In the runs of stations, waking with a link ready hands up to 32 broadcasts to one radio and exactly the burst, on the owner's frequency, to the other. |
| HostApp.SloraApp.ScheduleWakeup | src/sim/SloraApp.cc:367-373 | Replaces the token's wakeup; no second message for it stays in flight. |
| HostApp.SloraApp.CancelWakeup | src/sim/SloraApp.cc:375-381 | Removes the token's wakeup and its message, if there is one. |
| HostApp.OneMessagePerToken | src/sim/SloraApp.cc:367-381 | Two messages in flight for one token are the same message. |
| HostApp.SloraApp.TuneDataRadio | src/sim/SloraApp.cc:356-365 | Retunes exactly if there is a radio and frequency or bandwidth differ. |
| HostApp.SloraApp.DeliverTxData | src/sim/SloraApp.cc:342-354 | Tunes to the frame's frequency first, then queues the frame. |
| HostApp.SloraApp.DrainActions | src/sim/SloraApp.cc:285-334 | Pops and performs all the node's queued actions in order until none is left. |
| HostApp.SloraApp.HandleWakeup | src/sim/SloraApp.cc:157-164 | From a due wakeup's message to the last action it queued, host and node together make exactly the move that a wakeup is in the runs of stations. |
| Buffers.Node.NextAction | src/stack/src/slora.zig:199-213 | Pops the first action; the bytes it points at are still those it was built from. With none left, frees the consumed frames and resets the scratch buffer. |
| Buffers.Node.SendHead | src/stack/src/relay.zig:19-37 | Appends the sealed head to the scratch buffer, frees the payload and takes it off; at most 252 bytes are used. |
| Buffers.Node.HandleSlotWakeup | src/stack/src/tsch.zig:36-100 | From idle, a wakeup queues at most 38 actions and at most 1008 scratch bytes, within both capacities. |
| Buffers.Node.Park | src/stack/src/route.zig:250-266 | Parks a fresh copy; the ninth frees and replaces the oldest. |
| Buffers.Node.Flush | src/stack/src/route.zig:205-221 | The payloads the link has room for are copied in order to fresh blocks at its end, every original is freed, all other blocks keep their bytes, and the entry goes. |
| Buffers.Node.Deinit | src/stack/src/slora.zig:129-154 | Frees every block except the frames still in the action queue: exactly those leak. |
| Buffers.Node.Run | src/stack/src/slora.zig:121-213 | Any sequence of calls (start, both wakeups, beacons, frames and payloads received, sends), each followed by the host's loop, and then the end: no block is freed twice or used after it was freed, no capacity is exceeded, and nothing leaks. |
| Ownership.OneOwner | src/stack/src/slora.zig:129-154 | A block in one list is in no other. |
| Mpr.CoverIsSize | src/flood/FloodApp.cc:420-423 | On a list without duplicates the scan's count is the size of the fresh cover. |
| Mpr.SomeoneCovers | src/flood/FloodApp.cc:432 | While a strict two-hop node is uncovered some unpicked neighbour covers it, so the early exit is never taken. |
| Mpr.ElectionIsDetermined | src/flood/FloodApp.cc:424 | Any two complete greedy runs over one neighbour table pick the same relays in the same order. |
| Mpr.ElectionCovers | src/flood/FloodApp.cc:395-440 | The relays are neighbours, cover the strict two-hop set, and each covered something no earlier one did. |
| Mpr.GreedyShrinksGeometrically | src/flood/FloodApp.cc:412-439 | If k neighbours cover the set, after i picks the uncovered part times k^i is at most the whole times (k-1)^i. |
| Mpr.ElectionNearOptimal | src/flood/FloodApp.cc:412-439 | Against any k neighbours that cover the strict two-hop set, at most k times the binary digits of its size are picked. |
| FloodRuns.ElectionsAreNearOptimal | src/flood/FloodApp.cc:340-440 | In every run and for every election, the relay set covers the strict two-hop set and is within that factor of any other covering set, because HELLO lists are duplicate-free. |
| FloodRuns.HealthyThroughout | src/flood/FloodApp.cc:267-302 | In every run and mode: rebroadcasts armed equal those forwarded, suppressed and pending; the cache holds at most 32 keys, none twice; relays are neighbours and a node is not its own neighbour. |
| FloodNode.FloodApp.RecomputeMprSet | src/flood/FloodApp.cc:395-440 | Ends with the relays of the one greedy election, nothing left uncovered. |
| FloodNode.FloodApp.ScanForBest | src/flood/FloodApp.cc:414-431 | Finds the smallest id among the unpicked neighbours of largest positive cover, or that there is none. |
| FloodNode.FloodApp.PruneNeighbours | src/flood/FloodApp.cc:386-393 | Removes exactly the neighbours heard before the cutoff. |
| FloodNode.FloodApp.SendHello | src/flood/FloodApp.cc:340-377 | Sends the neighbours left after pruning and the newly elected relays, each in ascending order. |
| FloodModel.AscendingIsUnique | src/flood/FloodApp.cc:349-362 | There is one way to write a set in ascending order. |
| FloodNode.FloodApp.OnHello | src/flood/FloodApp.cc:160-181 | Replaces the sender's lists, prunes and elects anew; a node ignores itself. |
| FloodNode.FloodApp.ElectedUs | src/flood/FloodApp.cc:442-450 | True exactly if the sender is a neighbour whose relay list names us. |
| FloodNode.FloodApp.RememberPacket | src/flood/FloodApp.cc:457-466 | List and set stay in step; a new key pushes out the oldest of 32. |
| FloodNode.FloodApp.OnPacket | src/flood/FloodApp.cc:183-245 | The whole effect of a packet in the three modes: suppress, count a duplicate, drop as not elected, or deliver and arm a rebroadcast. |
| FloodNode.FloodApp.ScheduleRebroadcast | src/flood/FloodApp.cc:267-280 | One pending entry and one live timer are added for the key. |
| FloodNode.FloodApp.OnRebroadcastTimer | src/flood/FloodApp.cc:282-302 | On a busy channel nothing changes; otherwise entry and timer go and the packet goes out with the timer's hop limit. |
| FloodNode.FloodApp.Originate | src/flood/FloodApp.cc:129-153 | Remembers the new key and broadcasts it with the full hop limit. |
| FloodNode.TimersBiject | src/flood/FloodApp.cc:277-299 | Pending keys and live timers correspond one to one. |
| FloodHandlers.ElectionIsGreedy | src/flood/FloodApp.cc:395-440 | On HELLO lists without duplicates a list is what the election picks if and only if each pick is an unpicked neighbour that lists the most nodes which are neither this node, nor neighbours, nor listed by an earlier pick, the smallest id among equals, and none such is left over. |
| FloodHandlers.CopySilences | src/flood/FloodApp.cc:186-205 | A copy of a packet whose relay is pending cancels and counts it, except in the naive mode, and is remembered; an electing node notes whom it heard. |
| FloodHandlers.KnownIsDropped | src/flood/FloodApp.cc:207-211 | Any other packet in the cache only counts as a duplicate. |
| FloodHandlers.NewIsAccepted | src/flood/FloodApp.cc:213-245 | A new packet is remembered and counted, for this node too if it is; with hops to go and neither from nor for this node it is armed with one hop less, or, if electing and not named by the last hop's HELLO, counted as dropped. |
| FloodHandlers.RelayedIsReceived | src/flood/FloodApp.cc:229-302 | What a relay sends when its timer fires is the packet it received but for the last hop, now itself, and one hop less. |
| FloodHandlers.OriginatedIs | src/flood/FloodApp.cc:129-153 | A packet of one's own carries the next id, which wraps at 2^32, and the hop limit modulo 256, and is remembered. |
| FloodHandlers.HelloIsLearnt | src/flood/FloodApp.cc:160-181 | A HELLO replaces its sender's lists; then exactly the neighbours heard within the timeout are left, and the relays are the newly picked ones. |
| FloodHandlers.AnnouncingPrunes | src/flood/FloodApp.cc:340-393 | The same happens before a node's own HELLO. |
| FloodHandlers.RememberedIs | src/flood/FloodApp.cc:457-466 | A key not in the cache goes to its end and pushes out the oldest of 32. |
| DuplicateCache.CacheIsWindow | src/flood/FloodApp.cc:452-466 | The cache is the last 32 entries of an unbounded log of insertions. |
| DuplicateCache.InsertionsKeepTheirDistance | src/flood/FloodApp.cc:457-466 | Between two insertions of one key more than 32 keys were inserted. |
| DuplicateCache.ForgottenOnlyAfter32Others | src/flood/FloodApp.cc:457-466 | A key is forgotten only after 32 pairwise distinct other keys have been remembered since its insertion. |
| FloodBound.StepKeepsFunded | src/flood/FloodApp.cc:155-302 | One event of any node, in any mode, keeps: transmissions made and still possible number at most one geometric sum per origination. |
| FloodBound.FloodIsFinite | src/flood/FloodApp.cc:229-242 | In every run and mode, evictions and losses included, the transmissions of a packet number at most 1 + m + ... + m^h per origination, for m other nodes and hop limit h. |
| FloodBound.OnePacketOneFlood | src/flood/FloodApp.cc:129-153 | Until a source has used up its 2^32 ids a packet is originated once, so that sum bounds all its transmissions. |
| FloodCoverage.NaiveFloodReachesEverybody | src/flood/FloodApp.cc:191-245 | When a lossless naive flood of at most hop limit + 2 nodes has gone quiet, every node on a path from the source not relayed through the destination has received the packet. |
| FloodNet.RefusesIff | src/flood/FloodApp.cc:191-230 | A node refuses a packet exactly when another copy silences its pending relay, or, electing, it gets it from a sender whose relay it is not. |
| FloodReach.FloodReachesExactly | src/flood/FloodApp.cc:155-302 | In every mode: when a lossless flood of at most hop limit + 2 nodes and 32 different packets has gone quiet, a node has the packet if and only if a path from the source reaches it whose relays are neither its destination nor refused it. |
| SuppressionLoss.SuppressionLosesCoverage | src/flood/FloodApp.cc:198-204 | A concrete SNR run that meets every other hypothesis of naive coverage, goes quiet without loss, and leaves a node two hops from the source without the packet. |
| ElectedLoss.ElectionLosesCoverage | src/flood/FloodApp.cc:198-204 | A concrete run in the electing mode, with the HELLOs its elections rest on, that goes quiet without losing a packet and leaves out a node whose elected relay was silenced. |
| FloodCoverage.StepKeepsCovering | src/flood/FloodApp.cc:191-302 | One event keeps, in every mode: hops used are matched by nodes reached, and who has the packet relayed it, will, refused, is its destination, or came last. |
| FloodCoverage.NobodyRelaysTwice | src/flood/FloodApp.cc:191-214 | In any run with at most 32 different packets, in any mode, every node relays a packet at most once. |

## Left out

- FloodReach.FloodReachesExactly: takes who refused a packet as recorded by the run; which nodes will refuse depends on the timers, whose lengths are left open.
- FloodBound.FloodIsFinite: counts transmissions; how often a busy channel puts a timer off is not bounded, because carrier sensing is not modelled.
- LoopFreedom.NoRoutingLoops: one way only; the same colliding requests end in a loop in one run and in none in another (IdCollision.CollidingIdsLoop, IdCollision.CollisionWithoutLoop).
- SlotClock.ClocksAgree: for beacons stamped by honest hosts from one simulated time, as the simulator does; crystals that drift are not modelled.
- StackNode.Node.HandleAnnounce: the clock synchronisation an announcement triggers is in SlotNode.Node.SyncTimeFromEb.
- StackNode.Node.BuildDataFrame: a sealed frame is its key, nonce and fields, not ciphertext; DataFrame has the plaintext bytes. Transmission counters are unbounded; nonce uniqueness is claimed while they fit 64 bits.
- StackNode.Node.HandleEncryptedRx: a sealed frame is taken as well formed, so the length guards do not appear; a delivered payload is not dispatched on its first byte.
- HostApp.SloraApp.DeliverTxData: ends with the frame queued; when the radio takes it off the queue is left open.
- HostApp.SloraApp.DrainActions: a delivered payload is recorded; the duplicate count and latency the host keeps of it are not.
- Buffers.Node.HandleSlotWakeup: which link owns the slot is a parameter here; SlotNode.Node.MaybeTxOnCell has the choice.
- Network: the broadcast queue is emptied onto the air at once; the real queue only adds delay, which the model allows anyway.
- Echo requests and replies (echo.zig) are an application that receives and sends.
- A link slot is not capped on the receiving side (src/stack/src/link.zig:89-94), as in the code; the eight-link limit holds only for links a node starts itself.
- Hop cost: the cast of the link count to 16 bits, which traps above 65534 links.
- Frame parsing, signature bytes, the C interface, allocation failures, and signal propagation.
- Listen-before-talk, random delays and jitter: the moment a timer fires is left open.
- The unequal-SNR contention window, latency statistics and throughput counters.
- Simulation configuration, topology and study scripts.
