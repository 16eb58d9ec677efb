/** What one handler call may change in a node: the summaries the network proofs rest on. */
module NodeFacts {
  import opened Types
  import opened NodeModel

  ghost predicate SameRouting(s: State, t: State) {
    t.addr == s.addr && t.routes == s.routes && t.reversePaths == s.reversePaths
  }

  /** Same peers, same keys, same nonce counters; only the queues may differ. */
  ghost predicate SameLinks(s: State, t: State) {
    && t.links.Keys == s.links.Keys
    && forall h :: h in s.links ==> t.links[h].key == s.links[h].key && t.links[h].txCounter == s.links[h].txCounter
  }

  ghost predicate OwnLinkFrame(s: State, f: Frame) {
    f.LinkFrame? && f.from == f.xchg == s.addr
  }

  /** Every frame queued by the call is a link request or response from this node. */
  ghost predicate OnlyLinkFrames(s: State, t: State) {
    forall f :: f in t.queue ==> f in s.queue || OwnLinkFrame(s, f)
  }

  /** An item the node itself had parked for want of a route. */
  ghost predicate WasParked(s: State, it: PendingTx) {
    it.source == s.addr && it.dest in s.pendingRoutes && it.payload in s.pendingRoutes[it.dest]
  }

  /** Newly queued items follow a direct link or a route, and were parked here or handed in by the call. */
  ghost predicate ItemsAccounted(s: State, t: State, given: set<PendingTx>) {
    forall h, it :: h in t.links && it in t.links[h].pending ==>
      (h in s.links && it in s.links[h].pending) || (Matches(t, it.dest, h) && (WasParked(s, it) || it in given))
  }

  lemma TryEstablishFacts(s: State, peer: Address, now: nat)
    ensures var t := AfterTryEstablish(s, peer, now);
            && SameRouting(s, t) && OnlyLinkFrames(s, t)
            && t.links == s.links && t.pendingRoutes == s.pendingRoutes && t.counters == s.counters
            && t.deliveries == s.deliveries && t.seqNo == s.seqNo
            && forall f :: f in s.queue ==> f in t.queue
  {
    TryEstablishTables(s, peer, now);
    TryEstablishQueue(s, peer, now);
    hide AfterTryEstablish;
  }

  lemma TryEstablishTables(s: State, peer: Address, now: nat)
    ensures var t := AfterTryEstablish(s, peer, now);
            t == s.(neighbors := t.neighbors, queue := t.queue)
  {
  }

  lemma TryEstablishQueue(s: State, peer: Address, now: nat)
    ensures var t := AfterTryEstablish(s, peer, now);
            t.queue == s.queue || t.queue == s.queue + [LinkFrame(Request, peer, s.addr, s.addr)]
  {
  }

  lemma {:induction false} EnqueuedAllFacts(pending: seq<PendingTx>, dest: Address, source: Address, payloads: seq<Payload>)
    ensures forall it :: it in EnqueuedAll(pending, dest, source, payloads) ==>
              it in pending || (it.dest == dest && it.source == source && it.payload in payloads)
    decreases |payloads|
  {
    if payloads != [] {
      EnqueuedAllFacts(Enqueued(pending, PendingTx(dest, source, payloads[0])), dest, source, payloads[1..]);
    }
  }

  /** What a flush leaves alone, and what it may put on the link it flushes. */
  ghost predicate Flushed(s: State, t: State, peer: Address) {
    && SameRouting(s, t) && SameLinks(s, t)
    && t.queue == s.queue && t.counters == s.counters && t.deliveries == s.deliveries
    && (forall d :: d in t.pendingRoutes ==> d in s.pendingRoutes && t.pendingRoutes[d] == s.pendingRoutes[d])
    && (forall h, it :: h in t.links && it in t.links[h].pending ==> FlushedItem(s, peer, h, it))
  }

  ghost predicate FlushedItem(s: State, peer: Address, h: Address, it: PendingTx) {
    (h in s.links && it in s.links[h].pending) || (h == peer && Matches(s, it.dest, h) && WasParked(s, it))
  }

  lemma FlushedOneFacts(s: State, peer: Address, dest: Address)
    requires peer in s.links
    ensures Flushed(s, FlushedOne(s, peer, dest), peer)
  {
    if dest in s.pendingRoutes && Matches(s, dest, peer) {
      EnqueuedAllFacts(s.links[peer].pending, dest, s.addr, s.pendingRoutes[dest]);
    }
  }

  lemma FlushedTransitive(s: State, mid: State, t: State, peer: Address)
    requires Flushed(s, mid, peer) && Flushed(mid, t, peer)
    ensures Flushed(s, t, peer)
  {
    forall h, it | h in t.links && it in t.links[h].pending
      ensures FlushedItem(s, peer, h, it)
    {
      assert FlushedItem(mid, peer, h, it);
    }
  }

  lemma {:induction false} FlushFacts(s: State, peer: Address, order: seq<Address>)
    ensures Flushed(s, AfterFlush(s, peer, order), peer)
    decreases |order|
  {
    if peer in s.links && order != [] {
      var mid := FlushedOne(s, peer, order[0]);
      FlushedOneFacts(s, peer, order[0]);
      FlushFacts(mid, peer, order[1..]);
      FlushedTransitive(s, mid, AfterFlush(mid, peer, order[1..]), peer);
    }
  }

  ghost predicate ParkedShrinks(s: State, t: State) {
    forall d :: d in t.pendingRoutes ==> d in s.pendingRoutes && t.pendingRoutes[d] == s.pendingRoutes[d]
  }

  /** The node with the link to `from` installed, before anything is flushed onto it. */
  function Installed(s: State, from: Address, xchg: Address): State {
    s.(neighbors := s.neighbors[from := LearntKey(s.neighbors, from)],
       links := s.links[from := Keyed(s.links, from, DeriveLinkKey(Ecdh(s.addr, xchg), s.addr, from))])
  }

  /** If the frame is addressed here its sender gets a link under the pair's key; other links stay as they are. */
  ghost predicate LinkInstalled(s: State, t: State, from: Address, xchg: Address) {
    && t.links.Keys == s.links.Keys + {from}
    && t.links[from].key == DeriveLinkKey(Ecdh(s.addr, xchg), s.addr, from)
    && t.links[from].txCounter == (if from in s.links then s.links[from].txCounter else 0)
    && forall h :: h in s.links && h != from ==> t.links[h].key == s.links[h].key && t.links[h].txCounter == s.links[h].txCounter
  }

  /** A link frame touches neither table. */
  lemma LinkFrameTables(s: State, m: Frame, order: seq<Address>)
    requires m.LinkFrame?
    ensures var t := AfterLinkFrame(s, m, order);
            && SameRouting(s, t) && t.counters == s.counters && t.deliveries == s.deliveries && ParkedShrinks(s, t)
            && OnlyLinkFrames(s, t)
  {
    if m.to == s.addr && m.from != s.addr {
      FlushFacts(Installed(s, m.from, m.xchg), m.from, order);
    }
  }

  lemma LinkFrameLinks(s: State, m: Frame, order: seq<Address>)
    requires m.LinkFrame?
    ensures var t := AfterLinkFrame(s, m, order);
            if m.to == s.addr && m.from != s.addr then LinkInstalled(s, t, m.from, m.xchg) else t.links == s.links
  {
    if m.to == s.addr && m.from != s.addr {
      FlushFacts(Installed(s, m.from, m.xchg), m.from, order);
    }
  }

  lemma LinkFrameItems(s: State, m: Frame, order: seq<Address>)
    requires m.LinkFrame?
    ensures ItemsAccounted(s, AfterLinkFrame(s, m, order), {})
  {
    if m.to == s.addr && m.from != s.addr {
      var s1 := Installed(s, m.from, m.xchg);
      FlushFacts(s1, m.from, order);
      hide AfterFlush, ItemsAccounted, Flushed;
      var s2 := AfterFlush(s1, m.from, order);
      FlushedItems(s, s1, s2, m.from);
      SameItems(s, s2, AfterLinkFrame(s, m, order), {});
    }
  }

  lemma SameItems(s: State, u: State, t: State, given: set<PendingTx>)
    requires ItemsAccounted(s, u, given) && t.links == u.links && t.routes == u.routes
    ensures ItemsAccounted(s, t, given)
  {
  }

  lemma FlushedItems(s: State, s1: State, t: State, peer: Address)
    requires Flushed(s1, t, peer)
    requires s1.addr == s.addr && s1.pendingRoutes == s.pendingRoutes
    requires forall h, it :: h in s1.links && it in s1.links[h].pending ==> h in s.links && it in s.links[h].pending
    ensures ItemsAccounted(s, t, {})
  {
  }

  lemma AnnounceFacts(s: State, peer: Address, now: nat)
    ensures var t := AfterAnnounce(s, peer, now);
            && SameRouting(s, t) && OnlyLinkFrames(s, t) && t.links == s.links
            && t.pendingRoutes == s.pendingRoutes && t.counters == s.counters && t.deliveries == s.deliveries
  {
    if peer != s.addr {
      TryEstablishFacts(s.(neighbors := s.neighbors[peer := LearntKey(s.neighbors, peer)]), peer, now);
    }
  }

  /** The frame gets past the guards of handleRrep, so the route table is offered an entry. */
  predicate RrepAccepted(s: State, m: Frame)
    requires m.Rrep?
  {
    m.from != s.addr && m.id in s.reversePaths && s.reversePaths[m.id].dest != s.addr
  }

  predicate RrepForwarded(s: State, m: Frame)
    requires m.Rrep?
  {
    RrepAccepted(s, m) && m.to == s.addr && m.orig != s.addr
  }

  function RrepOnward(s: State, m: Frame): Frame
    requires m.Rrep? && RrepAccepted(s, m)
  {
    Rrep(s.reversePaths[m.id].prevHop, s.addr, m.orig, m.id, m.dstSeq, SatAdd(m.cost, HopCost(s)))
  }

  function RrepRoutes(s: State, m: Frame): map<Address, RouteEntry>
    requires m.Rrep?
  {
    if RrepAccepted(s, m) then
      Upsert(s.routes, s.reversePaths[m.id].dest, RouteEntry(m.from, SatAdd(m.cost, HopCost(s)), m.dstSeq))
    else s.routes
  }

  lemma VerifiedFacts(s: State, from: Address)
    ensures exists ns :: Verified(s, from) == s.(neighbors := ns)
  {
    assert Verified(s, from) == s.(neighbors := Verified(s, from).neighbors);
  }

  /** The node after the route table was offered an entry, before anything is sent. */
  function RrepNoted(s: State, m: Frame): State
    requires m.Rrep?
  {
    Verified(s, m.from).(routes := RrepRoutes(s, m))
  }

  lemma RrepTables(s: State, m: Frame, now: nat, order: seq<Address>)
    requires m.Rrep?
    ensures var t := AfterRrep(s, m, now, order);
            t.addr == s.addr && t.reversePaths == s.reversePaths && t.routes == RrepRoutes(s, m)
  {
    hide AfterTryEstablish, AfterFlush, Verified, Upsert, HopCost, SatAdd;
    VerifiedFacts(s, m.from);
    if RrepAccepted(s, m) {
      var s1 := RrepNoted(s, m);
      TryEstablishFacts(s1, m.from, now);
      FlushFacts(AfterTryEstablish(s1, m.from, now), m.from, order);
    }
  }

  lemma RrepLinks(s: State, m: Frame, now: nat, order: seq<Address>)
    requires m.Rrep?
    ensures SameLinks(s, AfterRrep(s, m, now, order))
  {
    hide AfterTryEstablish, AfterFlush, Verified, Upsert, HopCost, SatAdd;
    VerifiedFacts(s, m.from);
    if RrepAccepted(s, m) {
      var s1 := RrepNoted(s, m);
      TryEstablishFacts(s1, m.from, now);
      FlushFacts(AfterTryEstablish(s1, m.from, now), m.from, order);
    }
  }

  lemma RrepRest(s: State, m: Frame, now: nat, order: seq<Address>)
    requires m.Rrep?
    ensures var t := AfterRrep(s, m, now, order);
            t.counters == s.counters && t.deliveries == s.deliveries && ParkedShrinks(s, t)
  {
    hide AfterTryEstablish, AfterFlush, Verified, Upsert, HopCost, SatAdd;
    VerifiedFacts(s, m.from);
    if RrepAccepted(s, m) {
      var s1 := RrepNoted(s, m);
      TryEstablishFacts(s1, m.from, now);
      FlushFacts(AfterTryEstablish(s1, m.from, now), m.from, order);
    }
  }

  lemma RrepItems(s: State, m: Frame, now: nat, order: seq<Address>)
    requires m.Rrep?
    ensures ItemsAccounted(s, AfterRrep(s, m, now, order), {})
  {
    if RrepAccepted(s, m) {
      var s1 := RrepNoted(s, m);
      var s2 := AfterTryEstablish(s1, m.from, now);
      TryEstablishFacts(s1, m.from, now);
      FlushFacts(s2, m.from, order);
      hide AfterFlush, AfterTryEstablish, Flushed, ItemsAccounted, Upsert, SatAdd;
      var t := AfterFlush(s2, m.from, order);
      FlushedItems(s, s2, t, m.from);
      if m.to == s.addr && m.orig == s.addr {
        SameItems(s, t, AfterRrep(s, m, now, order), {});
      } else {
        NoNewItems(s, AfterRrep(s, m, now, order), {});
      }
    } else {
      NoNewItems(s, AfterRrep(s, m, now, order), {});
    }
  }

  lemma NoNewItems(s: State, t: State, given: set<PendingTx>)
    requires t.links == s.links
    ensures ItemsAccounted(s, t, given)
  {
  }

  lemma RrepFrames(s: State, m: Frame, now: nat, order: seq<Address>)
    requires m.Rrep?
    ensures var t := AfterRrep(s, m, now, order);
            && (forall f :: f in t.queue ==>
                  f in s.queue || OwnLinkFrame(s, f) || (RrepForwarded(s, m) && f == RrepOnward(s, m)))
            && (RrepForwarded(s, m) ==> RrepOnward(s, m) in t.queue)
  {
    hide AfterTryEstablish, AfterFlush, Verified, Upsert, HopCost, SatAdd;
    VerifiedFacts(s, m.from);
    if RrepAccepted(s, m) {
      var s1 := RrepNoted(s, m);
      TryEstablishFacts(s1, m.from, now);
      FlushFacts(AfterTryEstablish(s1, m.from, now), m.from, order);
    }
  }

  /** The call started a route request under `id`. */
  ghost predicate Initiated(s: State, t: State, dest: Address, id: U32) {
    && dest != s.addr
    && t.addr == s.addr && t.routes == s.routes
    && t.reversePaths == s.reversePaths[id := ReverseEntry(dest, s.addr, 0)]
    && var m := Rreq(dest, s.addr, s.addr, id, Truncate(WrapSucc(s.seqNo)), 0, ROUTE_RADIUS);
       && m in t.queue
       && forall f :: f in t.queue ==> f in s.queue || OwnLinkFrame(s, f) || f == m
  }

  /** An offer along a direct link or a route queues at most the item offered. */
  lemma OfferedItems(s: State, peer: Address, it: PendingTx)
    requires peer in s.links && Matches(s, it.dest, peer)
    ensures ItemsAccounted(s, Offered(s, peer, it), {it})
  {
  }

  lemma OfferedTables(s: State, peer: Address, it: PendingTx)
    requires peer in s.links
    ensures var t := Offered(s, peer, it);
            && SameRouting(s, t) && SameLinks(s, t)
            && t.queue == s.queue && t.deliveries == s.deliveries && t.pendingRoutes == s.pendingRoutes
            && t.counters.dropNoRoute == s.counters.dropNoRoute
  {
    if |s.links[peer].pending| < PENDING_TX_MAX {
      SameKeys(s.links, Offered(s, peer, it).links, peer);
    }
  }

  lemma SameKeys(before: map<Address, LinkInfo>, after: map<Address, LinkInfo>, peer: Address)
    requires peer in before && peer in after && after == before[peer := after[peer]]
    requires after[peer].key == before[peer].key && after[peer].txCounter == before[peer].txCounter
    ensures after.Keys == before.Keys
    ensures forall h :: h in before ==> after[h].key == before[h].key && after[h].txCounter == before[h].txCounter
  {
  }

  lemma OfferedFacts(s: State, peer: Address, it: PendingTx)
    requires peer in s.links && Matches(s, it.dest, peer)
    ensures var t := Offered(s, peer, it);
            && SameRouting(s, t) && SameLinks(s, t) && ItemsAccounted(s, t, {it})
            && t.queue == s.queue && t.deliveries == s.deliveries && t.pendingRoutes == s.pendingRoutes
            && t.counters.dropNoRoute == s.counters.dropNoRoute
  {
    OfferedItems(s, peer, it);
    OfferedTables(s, peer, it);
  }

  /** What a call to `send` may change. */
  ghost predicate SendEffect(s: State, t: State, dest: Address, payload: Payload, id: U32) {
    && ((SameRouting(s, t) && OnlyLinkFrames(s, t)) || Initiated(s, t, dest, id))
    && SameLinks(s, t) && ItemsAccounted(s, t, {PendingTx(dest, s.addr, payload)})
    && t.counters.dropNoRoute == s.counters.dropNoRoute && t.deliveries == s.deliveries
    && (forall d, p :: d in t.pendingRoutes && p in t.pendingRoutes[d] ==>
          (d in s.pendingRoutes && p in s.pendingRoutes[d]) || (d == dest && p == payload))
  }

  lemma InitiateFacts(s: State, s2: State, dest: Address, payload: Payload, now: nat, id: U32)
    requires SameRouting(s, s2) && OnlyLinkFrames(s, s2)
    requires s2.links == s.links && s2.pendingRoutes == s.pendingRoutes && s2.counters == s.counters
             && s2.deliveries == s.deliveries && s2.seqNo == s.seqNo && dest != s.addr
    ensures SendEffect(s, AfterInitiate(s2, dest, payload, now, id), dest, payload, id)
  {
    var t := AfterInitiate(s2, dest, payload, now, id);
    InitiateKeeps(s2, dest, payload, now, id);
    InitiateParks(s2, dest, payload, now, id);
    InitiateRoutes(s, s2, dest, payload, now, id);
    hide AfterInitiate, SameRouting, OnlyLinkFrames, Initiated;
  }

  lemma InitiateKeeps(s: State, dest: Address, payload: Payload, now: nat, id: U32)
    ensures var t := AfterInitiate(s, dest, payload, now, id);
            t.addr == s.addr && t.links == s.links && t.counters == s.counters && t.deliveries == s.deliveries
  {
  }

  lemma InitiateParks(s: State, dest: Address, payload: Payload, now: nat, id: U32)
    ensures forall d, p :: d in AfterInitiate(s, dest, payload, now, id).pendingRoutes
                           && p in AfterInitiate(s, dest, payload, now, id).pendingRoutes[d] ==>
              (d in s.pendingRoutes && p in s.pendingRoutes[d]) || (d == dest && p == payload)
  {
  }

  lemma InitiateRoutes(s: State, s2: State, dest: Address, payload: Payload, now: nat, id: U32)
    requires SameRouting(s, s2) && OnlyLinkFrames(s, s2) && s2.seqNo == s.seqNo && dest != s.addr
    ensures var t := AfterInitiate(s2, dest, payload, now, id);
            (SameRouting(s, t) && OnlyLinkFrames(s, t)) || Initiated(s, t, dest, id)
  {
    hide Parked;
  }

  lemma SendFacts(s: State, dest: Address, payload: Payload, now: nat, id: U32)
    ensures SendEffect(s, AfterSend(s, dest, s.addr, payload, now, id), dest, payload, id)
  {
    if |payload| > ROUTE_MAX_PAYLOAD || dest == s.addr {
    } else if dest in s.links {
      OfferedFacts(s, dest, PendingTx(dest, s.addr, payload));
    } else if dest in s.routes && s.routes[dest].nextHop in s.links {
      OfferedFacts(s, s.routes[dest].nextHop, PendingTx(dest, s.addr, payload));
    } else {
      if dest in s.routes { TryEstablishFacts(s, s.routes[dest].nextHop, now); }
      var s1 := if dest in s.routes then AfterTryEstablish(s, s.routes[dest].nextHop, now) else s;
      TryEstablishFacts(s1, dest, now);
      var s2 := if dest in s1.neighbors then AfterTryEstablish(s1, dest, now) else s1;
      InitiateFacts(s, s2, dest, payload, now, id);
    }
  }

  /** Forwarding changes no table, and counts a missing route only when there is neither link nor route. */
  lemma ForwardTables(s: State, dest: Address, source: Address, payload: Payload, now: nat)
    ensures var t := AfterForward(s, dest, source, payload, now);
            && SameRouting(s, t) && OnlyLinkFrames(s, t) && SameLinks(s, t)
            && t.pendingRoutes == s.pendingRoutes && t.deliveries == s.deliveries
            && t.counters.dropNoRoute == s.counters.dropNoRoute + (if dest in s.links || dest in s.routes then 0 else 1)
  {
    hide Offered, AfterTryEstablish;
    if dest in s.links {
      OfferedTables(s, dest, PendingTx(dest, source, payload));
    } else if dest !in s.routes {
      TryEstablishFacts(s, dest, now);
    } else if s.routes[dest].nextHop in s.links {
      OfferedTables(s, s.routes[dest].nextHop, PendingTx(dest, source, payload));
    } else {
      TryEstablishFacts(s, s.routes[dest].nextHop, now);
    }
  }

  lemma ForwardItems(s: State, dest: Address, source: Address, payload: Payload, now: nat)
    ensures ItemsAccounted(s, AfterForward(s, dest, source, payload, now), {PendingTx(dest, source, payload)})
  {
    if dest in s.links {
      OfferedItems(s, dest, PendingTx(dest, source, payload));
    } else if dest in s.routes && s.routes[dest].nextHop in s.links {
      OfferedItems(s, s.routes[dest].nextHop, PendingTx(dest, source, payload));
    }
  }
}
