/** Node state as a value, and what each handler of link.zig, route.zig and relay.zig makes of it. */
module NodeModel {
  import opened Types

  datatype RouteEntry = RouteEntry(nextHop: Address, cost: U16, seqNo: U32)

  datatype ReverseEntry = ReverseEntry(dest: Address, prevHop: Address, minCost: U16)

  /** `known` is false while only an address, and no public key, has been learnt. */
  datatype NeighborInfo = NeighborInfo(known: bool, lastLinkReq: nat)

  datatype PendingTx = PendingTx(dest: Address, source: Address, payload: Payload)

  datatype LinkInfo = LinkInfo(key: LinkKey, txCounter: nat, pending: seq<PendingTx>)

  datatype Delivery = Delivery(from: Address, payload: Payload)

  datatype Counters = Counters(forwarded: nat, dropNoRoute: nat, dropNoLink: nat, dropQueueFull: nat)

  datatype State = State(
    addr: Address,
    seqNo: U64,
    neighbors: map<Address, NeighborInfo>,
    links: map<Address, LinkInfo>,
    routes: map<Address, RouteEntry>,
    reversePaths: map<U32, ReverseEntry>,
    pendingRoutes: map<Address, seq<Payload>>,
    lastRreq: map<Address, nat>,
    targetPeers: set<Address>,
    queue: seq<Frame>,
    deliveries: seq<Delivery>,
    counters: Counters)

  function Fresh(addr: Address, targets: set<Address>): State {
    State(addr, 0, map[], map[], map[], map[], map[], map[], targets, [], [], Counters(0, 0, 0, 0))
  }

  function HopCost(s: State): nat { 1 + |s.links| }

  function Queued(s: State, f: Frame): State { s.(queue := s.queue + [f]) }

  // ----- link.zig -----

  function AfterTryEstablish(s: State, peer: Address, now: nat): State {
    if peer == s.addr || peer in s.links || |s.links| >= MAX_LINKS_PER_NODE then s
    else
      var info := if peer in s.neighbors then s.neighbors[peer] else NeighborInfo(false, 0);
      if info.lastLinkReq != 0 && now < info.lastLinkReq + LINK_RETRY_NS then
        s.(neighbors := s.neighbors[peer := info])
      else
        Queued(s.(neighbors := s.neighbors[peer := info.(lastLinkReq := now)]),
               LinkFrame(Request, peer, s.addr, s.addr))
  }

  function AfterLinkFrame(s: State, m: Frame, order: seq<Address>): State
    requires m.LinkFrame?
  {
    if m.to != s.addr || m.from == s.addr then s
    else
      var s1 := s.(neighbors := s.neighbors[m.from := LearntKey(s.neighbors, m.from)],
                   links := s.links[m.from := Keyed(s.links, m.from, DeriveLinkKey(Ecdh(s.addr, m.xchg), s.addr, m.from))]);
      var s2 := AfterFlush(s1, m.from, order);
      if m.op == Request then Queued(s2, LinkFrame(Response, m.from, s.addr, s.addr)) else s2
  }

  function LearntKey(neighbors: map<Address, NeighborInfo>, from: Address): NeighborInfo {
    if from in neighbors then neighbors[from].(known := true) else NeighborInfo(true, 0)
  }

  /** A reinstalled key keeps the counter and the queue. */
  function Keyed(links: map<Address, LinkInfo>, peer: Address, key: LinkKey): LinkInfo {
    if peer in links then links[peer].(key := key) else LinkInfo(key, 0, [])
  }

  function AfterAnnounce(s: State, peer: Address, now: nat): State {
    if peer == s.addr then s
    else
      var s1 := s.(neighbors := s.neighbors[peer := LearntKey(s.neighbors, peer)]);
      if peer in s.targetPeers then AfterTryEstablish(s1, peer, now) else s1
  }

  // ----- route.zig -----

  /** The neighbour-table effect of a signature that verifies. */
  function Verified(s: State, from: Address): State {
    if from in s.neighbors && s.neighbors[from].known then s
    else s.(neighbors := s.neighbors[from := NeighborInfo(true, 0)])
  }

  predicate Improves(cost: U16, seqNo: U32, cur: RouteEntry) {
    seqNo > cur.seqNo || (seqNo == cur.seqNo && cost < cur.cost)
  }

  function Upsert(routes: map<Address, RouteEntry>, dest: Address, e: RouteEntry): map<Address, RouteEntry> {
    if dest in routes && !Improves(e.cost, e.seqNo, routes[dest]) then routes else routes[dest := e]
  }

  predicate RreqUseful(s: State, m: Frame)
    requires m.Rreq?
  {
    && m.from != s.addr
    && m.orig != s.addr
    && (m.id in s.reversePaths ==> SatAdd(m.cost, HopCost(s)) < s.reversePaths[m.id].minCost)
  }

  function AfterRreq(s: State, m: Frame): State
    requires m.Rreq?
  {
    if m.from == s.addr || m.orig == s.addr then s
    else if !RreqUseful(s, m) then Verified(s, m.from)
    else
      var cost := SatAdd(m.cost, HopCost(s));
      var entry := ReverseEntry(if m.id in s.reversePaths then s.reversePaths[m.id].dest else m.dest, m.from, cost);
      var s1 := Verified(s, m.from).(
        reversePaths := s.reversePaths[m.id := entry],
        routes := Upsert(s.routes, m.orig, RouteEntry(m.from, cost, m.origSeq)));
      if m.dest == s.addr then
        Queued(s1, Rrep(m.from, s.addr, m.orig, m.id, Truncate(s.seqNo), SatAdd(0, HopCost(s))))
      else if m.radius == 0 then s1
      else Queued(s1, m.(from := s.addr, cost := cost, radius := m.radius - 1))
  }

  function AfterRrep(s: State, m: Frame, now: nat, order: seq<Address>): State
    requires m.Rrep?
  {
    if m.from == s.addr then s
    else
      var s0 := Verified(s, m.from);
      if m.id !in s.reversePaths || s.reversePaths[m.id].dest == s.addr then s0
      else
        var rev := s.reversePaths[m.id];
        var cost := SatAdd(m.cost, HopCost(s));
        var s1 := s0.(routes := Upsert(s.routes, rev.dest, RouteEntry(m.from, cost, m.dstSeq)));
        if m.to != s.addr then s1 else AfterReply(s1, m, rev.prevHop, cost, now, order)
  }

  /** A reply addressed to this node: a link to its sender, then the end of the way or the next reverse hop. */
  function AfterReply(s: State, m: Frame, prevHop: Address, cost: U16, now: nat, order: seq<Address>): State
    requires m.Rrep?
  {
    var t := AfterTryEstablish(s, m.from, now);
    if m.orig == s.addr then AfterFlush(t, m.from, order)
    else Queued(t, Rrep(prevHop, s.addr, m.orig, m.id, m.dstSeq, cost))
  }

  function Enqueued(pending: seq<PendingTx>, item: PendingTx): seq<PendingTx> {
    if |pending| >= PENDING_TX_MAX then pending else pending + [item]
  }

  function EnqueuedAll(pending: seq<PendingTx>, dest: Address, source: Address, payloads: seq<Payload>): seq<PendingTx>
    decreases |payloads|
  {
    if payloads == [] then pending
    else EnqueuedAll(Enqueued(pending, PendingTx(dest, source, payloads[0])), dest, source, payloads[1..])
  }

  predicate Matches(s: State, dest: Address, peer: Address) {
    dest == peer || (dest in s.routes && s.routes[dest].nextHop == peer)
  }

  /** `order` is the hash-map iteration order of `pendingRoutes`. */
  function AfterFlush(s: State, peer: Address, order: seq<Address>): State
    decreases |order|
  {
    if peer !in s.links || order == [] then s
    else AfterFlush(FlushedOne(s, peer, order[0]), peer, order[1..])
  }

  function FlushedOne(s: State, peer: Address, dest: Address): State
    requires peer in s.links
  {
    if dest !in s.pendingRoutes || !Matches(s, dest, peer) then s
    else
      var info := s.links[peer];
      s.(links := s.links[peer := info.(pending := EnqueuedAll(info.pending, dest, s.addr, s.pendingRoutes[dest]))],
         pendingRoutes := s.pendingRoutes - {dest})
  }

  /** Offers one item to a link queue; a full queue drops it. */
  function Offered(s: State, peer: Address, item: PendingTx): State
    requires peer in s.links
  {
    var info := s.links[peer];
    if |info.pending| >= PENDING_TX_MAX then
      s.(counters := s.counters.(dropQueueFull := s.counters.dropQueueFull + 1))
    else
      s.(links := s.links[peer := info.(pending := info.pending + [item])])
  }

  function AfterSend(s: State, dest: Address, source: Address, payload: Payload, now: nat, id: U32): State {
    if |payload| > ROUTE_MAX_PAYLOAD || dest == s.addr then s
    else if dest in s.links then Offered(s, dest, PendingTx(dest, source, payload))
    else if dest in s.routes && s.routes[dest].nextHop in s.links then
      Offered(s, s.routes[dest].nextHop, PendingTx(dest, source, payload))
    else
      var s1 := if dest in s.routes then AfterTryEstablish(s, s.routes[dest].nextHop, now) else s;
      var s2 := if dest in s1.neighbors then AfterTryEstablish(s1, dest, now) else s1;
      if source != s.addr then s2.(counters := s2.counters.(dropNoLink := s2.counters.dropNoLink + 1))
      else AfterInitiate(s2, dest, payload, now, id)
  }

  function Parked(waiting: seq<Payload>, payload: Payload): seq<Payload> {
    (if |waiting| >= PENDING_PER_DEST_MAX then waiting[1..] else waiting) + [payload]
  }

  function AfterInitiate(s: State, dest: Address, payload: Payload, now: nat, id: U32): State {
    var waiting := if dest in s.pendingRoutes then s.pendingRoutes[dest] else [];
    var s1 := s.(pendingRoutes := s.pendingRoutes[dest := Parked(waiting, payload)]);
    if dest in s.lastRreq && now < s.lastRreq[dest] + RREQ_RETRY_NS then s1
    else
      Queued(s1.(lastRreq := s.lastRreq[dest := now],
                 seqNo := WrapSucc(s.seqNo),
                 reversePaths := s.reversePaths[id := ReverseEntry(dest, s.addr, 0)]),
             Rreq(dest, s.addr, s.addr, id, Truncate(WrapSucc(s.seqNo)), 0, ROUTE_RADIUS))
  }

  // ----- relay.zig -----

  /** Little-endian bytes of `v`, `n` of them. */
  function LittleEndian(v: nat, n: nat): (r: seq<nat>)
    ensures |r| == n
  {
    if n == 0 then [] else [v % 256] + LittleEndian(v / 256, n - 1)
  }

  /** How many values n bytes can take. */
  function Pow256(n: nat): nat {
    if n == 0 then 1 else 256 * Pow256(n - 1)
  }

  /** Eight counter bytes, three zero bytes, and the direction bit on top. */
  function LinkNonce(my: Address, peer: Address, counter: nat): Nonce {
    Nonce(LittleEndian(counter, 8) + [0, 0, 0] + [if my > peer then 0x80 else 0])
  }

  /** The sealed head of a link queue; a payload too long to frame cannot be sealed. */
  function SealHead(my: Address, peer: Address, info: LinkInfo): Option<Sealed>
    requires info.pending != []
  {
    var head := info.pending[0];
    if |head.payload| > RELAY_MAX_PAYLOAD then None
    else Some(Sealed(info.key, LinkNonce(my, peer, info.txCounter), head.dest, head.source, head.payload))
  }

  /** The head of a link queue leaves it once it has been sealed. */
  function HeadSent(info: LinkInfo): LinkInfo
    requires info.pending != []
  {
    info.(txCounter := info.txCounter + 1, pending := info.pending[1..])
  }

  function SealedHead(s: State, peer: Address): Option<Sealed>
    requires peer in s.links && s.links[peer].pending != []
  {
    SealHead(s.addr, peer, s.links[peer])
  }

  function AfterSeal(s: State, peer: Address): State
    requires peer in s.links && s.links[peer].pending != []
  {
    if SealedHead(s, peer).None? then s
    else s.(links := s.links[peer := HeadSent(s.links[peer])])
  }

  predicate Opens(s: State, f: Sealed) {
    exists p :: p in s.links && s.links[p].key == f.key
  }

  function AfterSealed(s: State, f: Sealed, now: nat): State {
    if !Opens(s, f) then s
    else if f.dest == s.addr then s.(deliveries := s.deliveries + [Delivery(f.source, f.payload)])
    else AfterForward(s, f.dest, f.source, f.payload, now)
  }

  function Relayed(s: State, peer: Address, item: PendingTx): State
    requires peer in s.links
  {
    var s1 := Offered(s, peer, item);
    if |s.links[peer].pending| >= PENDING_TX_MAX then s1
    else s1.(counters := s1.counters.(forwarded := s1.counters.forwarded + 1))
  }

  function AfterForward(s: State, dest: Address, source: Address, payload: Payload, now: nat): State {
    if dest in s.links then Relayed(s, dest, PendingTx(dest, source, payload))
    else if dest !in s.routes then
      var s1 := if dest in s.neighbors then AfterTryEstablish(s, dest, now) else s;
      s1.(counters := s1.counters.(dropNoRoute := s1.counters.dropNoRoute + 1))
    else
      var next := s.routes[dest].nextHop;
      if next == source then s
      else if next in s.links then Relayed(s, next, PendingTx(dest, source, payload))
      else
        var s1 := AfterTryEstablish(s, next, now);
        s1.(counters := s1.counters.(dropNoLink := s1.counters.dropNoLink + 1))
  }
}
