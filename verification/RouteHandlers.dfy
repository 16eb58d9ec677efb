/**
 What each handler of link.zig and route.zig does to a node, in full: which fields change, to what, and what is queued.
 Costs, limits and retry intervals are written out, so none of it rests on how the handlers are put together.
 */
module RouteHandlers {
  import opened Types
  import opened NodeModel

  // ----- what handlers have in common -----

  /** The 16-bit ceiling of costs. */
  function Capped(x: nat): U16 { if x <= 65535 then x else 65535 }

  /** A sender whose signature verified is a known neighbour; one that was known before keeps its entry. */
  function Knowing(s: State, from: Address): map<Address, NeighborInfo> {
    if from in s.neighbors && s.neighbors[from].known then s.neighbors else s.neighbors[from := NeighborInfo(true, 0)]
  }

  /** An entry was offered for dest: it is taken if there was none, or if it is newer, or as new and cheaper. */
  ghost predicate Offers(before: map<Address, RouteEntry>, after: map<Address, RouteEntry>, dest: Address, e: RouteEntry) {
    && after.Keys == before.Keys + {dest}
    && (forall d :: d in before && d != dest ==> after[d] == before[d])
    && after[dest] == (if dest !in before then e
                       else if e.seqNo > before[dest].seqNo || (e.seqNo == before[dest].seqNo && e.cost < before[dest].cost) then e
                       else before[dest])
  }

  lemma UpsertOffers(routes: map<Address, RouteEntry>, dest: Address, e: RouteEntry)
    ensures Offers(routes, Upsert(routes, dest, e), dest, e)
  {
  }

  lemma VerifiedKnows(s: State, from: Address)
    ensures Verified(s, from) == s.(neighbors := Knowing(s, from))
  {
  }

  // ----- requests -----

  /** A request brings the node a cost below the one it has: what it carries, plus one, plus one for each link of the node. */
  predicate Lowers(s: State, m: Frame)
    requires m.Rreq?
  {
    m.id !in s.reversePaths || Capped(m.cost + 1 + |s.links|) < s.reversePaths[m.id].minCost
  }

  /** A node's own requests, and those it hears back from itself, mean nothing to it. */
  lemma OwnRequestIgnored(s: State, m: Frame)
    requires m.Rreq? && (m.from == s.addr || m.orig == s.addr)
    ensures AfterRreq(s, m) == s
  {
  }

  /** Any other request touches neighbours, routes, reverse paths and the queue, and no more than that. */
  lemma RequestTouches(s: State, m: Frame)
    requires m.Rreq? && m.from != s.addr && m.orig != s.addr
    ensures var t := AfterRreq(s, m);
            t == s.(neighbors := Knowing(s, m.from), routes := t.routes, reversePaths := t.reversePaths, queue := t.queue)
    ensures var t := AfterRreq(s, m);
            !Lowers(s, m) ==> t.routes == s.routes && t.reversePaths == s.reversePaths && t.queue == s.queue
  {
    VerifiedKnows(s, m.from);
    hide Verified, Upsert;
  }

  /** The reverse path then leads to the sender; the destination is that of the first request with this id. */
  function LoweredEntry(s: State, m: Frame): ReverseEntry
    requires m.Rreq?
  {
    ReverseEntry(if m.id in s.reversePaths then s.reversePaths[m.id].dest else m.dest, m.from, Capped(m.cost + 1 + |s.links|))
  }

  /** What the node has to go on once a request has lowered the cost, before it answers or passes it on. */
  function Lowered(s: State, m: Frame): State
    requires m.Rreq?
  {
    s.(neighbors := Knowing(s, m.from),
       routes := Upsert(s.routes, m.orig, RouteEntry(m.from, Capped(m.cost + 1 + |s.links|), m.origSeq)),
       reversePaths := s.reversePaths[m.id := LoweredEntry(s, m)])
  }

  /** What it queues: the reply of the destination, at 1 plus its links, or the request at the cost it has here, unless its hops are used up. */
  function Sends(s: State, m: Frame): seq<Frame>
    requires m.Rreq?
  {
    if m.dest == s.addr then [Rrep(m.from, s.addr, m.orig, m.id, s.seqNo % 0x1_0000_0000, Capped(1 + |s.links|))]
    else if m.radius == 0 then []
    else [Rreq(m.dest, s.addr, m.orig, m.id, m.origSeq, Capped(m.cost + 1 + |s.links|), m.radius - 1)]
  }

  lemma RreqFromLowered(s: State, m: Frame)
    requires m.Rreq? && m.from != s.addr && m.orig != s.addr && Lowers(s, m)
    ensures AfterRreq(s, m) == Lowered(s, m).(queue := s.queue + Sends(s, m))
  {
    assert SatAdd(m.cost, HopCost(s)) == Capped(m.cost + 1 + |s.links|);
    assert SatAdd(0, HopCost(s)) == Capped(1 + |s.links|);
    assert RreqUseful(s, m);
    VerifiedKnows(s, m.from);
    assert s.queue + [] == s.queue;
    hide Verified, Upsert, SatAdd, Capped, HopCost, Lowers, RreqUseful, Knowing;
  }

  /**
   A request that lowers the cost costs the node what it carried plus 1 plus its number of links, up to the ceiling:
   so much the reverse path, the route it offers to the originator, and the rebroadcast.
   */
  lemma RequestCosts(s: State, m: Frame)
    requires m.Rreq? && m.from != s.addr && m.orig != s.addr && Lowers(s, m)
    ensures var t := AfterRreq(s, m);
            && t.reversePaths == s.reversePaths[m.id := LoweredEntry(s, m)]
            && Offers(s.routes, t.routes, m.orig, RouteEntry(m.from, Capped(m.cost + 1 + |s.links|), m.origSeq))
            && t.queue == s.queue + Sends(s, m)
  {
    RreqFromLowered(s, m);
    UpsertOffers(s.routes, m.orig, RouteEntry(m.from, Capped(m.cost + 1 + |s.links|), m.origSeq));
    hide AfterRreq, Upsert, Offers, Capped, Knowing, Lowers, Sends, LoweredEntry;
  }

  // ----- link requests -----

  /** A link request is due: no link yet, fewer than eight of them, and the last request was never made or is five seconds old. */
  predicate LinkDue(s: State, peer: Address, now: nat) {
    && peer != s.addr && peer !in s.links && |s.links| < 8
    && (peer in s.neighbors && s.neighbors[peer].lastLinkReq != 0 ==> now >= s.neighbors[peer].lastLinkReq + 5_000_000_000)
  }

  /** The call queues a link request if and only if one is due, and notes the time; else it changes nothing. */
  lemma LinkAskedIffDue(s: State, peer: Address, now: nat)
    ensures var t := AfterTryEstablish(s, peer, now);
            && (LinkDue(s, peer, now) ==>
                  t == s.(neighbors := s.neighbors[peer := NeighborInfo(peer in s.neighbors && s.neighbors[peer].known, now)],
                          queue := s.queue + [LinkFrame(Request, peer, s.addr, s.addr)]))
            && (!LinkDue(s, peer, now) ==> t == s)
  {
    if peer in s.neighbors { assert s.neighbors[peer := s.neighbors[peer]] == s.neighbors; }
  }

  // ----- what a link releases -----

  /** Payloads parked for d may go over the link to peer: it is d itself or the next hop of the route to d. */
  predicate LeadsTo(routes: map<Address, RouteEntry>, peer: Address, d: Address) {
    d == peer || (d in routes && routes[d].nextHop == peer)
  }

  function Parcel(d: Address, source: Address, payloads: seq<Payload>): (r: seq<PendingTx>)
    ensures |r| == |payloads| && forall i :: 0 <= i < |r| ==> r[i] == PendingTx(d, source, payloads[i])
  {
    seq(|payloads|, i requires 0 <= i < |payloads| => PendingTx(d, source, payloads[i]))
  }

  /** All that a link to peer releases, destination by destination in the order the table is walked. */
  function Parcels(s: State, routes: map<Address, RouteEntry>, peer: Address, order: seq<Address>): seq<PendingTx> {
    if order == [] then []
    else
      (if order[0] in s.pendingRoutes && LeadsTo(routes, peer, order[0]) then Parcel(order[0], s.addr, s.pendingRoutes[order[0]]) else [])
      + Parcels(s, routes, peer, order[1..])
  }

  /** As many of these as a queue with room for 32 still takes. */
  function Topped(pending: seq<PendingTx>, more: seq<PendingTx>): seq<PendingTx> {
    if |pending| >= 32 then pending
    else if |pending| + |more| <= 32 then pending + more
    else pending + more[..32 - |pending|]
  }

  lemma ToppedWithNothing(pending: seq<PendingTx>)
    ensures Topped(pending, []) == pending
  {
    assert pending + [] == pending;
  }

  lemma ToppedTwice(pending: seq<PendingTx>, a: seq<PendingTx>, b: seq<PendingTx>)
    ensures Topped(Topped(pending, a), b) == Topped(pending, a + b)
  {
    if |pending| < 32 && |pending| + |a| > 32 {
      assert (a + b)[..32 - |pending|] == a[..32 - |pending|];
    } else if |pending| < 32 && |pending| + |a| + |b| > 32 {
      assert (a + b)[..32 - |pending|] == a + b[..32 - |pending| - |a|];
    }
  }

  lemma {:induction false} EnqueuedAllTops(pending: seq<PendingTx>, d: Address, source: Address, payloads: seq<Payload>)
    ensures EnqueuedAll(pending, d, source, payloads) == Topped(pending, Parcel(d, source, payloads))
    decreases |payloads|
  {
    if payloads == [] {
      assert Parcel(d, source, payloads) == [];
    } else {
      var item := PendingTx(d, source, payloads[0]);
      EnqueuedAllTops(Enqueued(pending, item), d, source, payloads[1..]);
      assert Parcel(d, source, payloads) == [item] + Parcel(d, source, payloads[1..]);
      assert Enqueued(pending, item) == Topped(pending, [item]);
      ToppedTwice(pending, [item], Parcel(d, source, payloads[1..]));
    }
  }

  /** What is left parked once the link to peer has released what it leads to, of the destinations in `order`. */
  ghost predicate LeftParked(s: State, routes: map<Address, RouteEntry>, peer: Address, order: seq<Address>, parked: map<Address, seq<Payload>>) {
    && (forall d :: d in parked <==> d in s.pendingRoutes && !(d in order && LeadsTo(routes, peer, d)))
    && (forall d :: d in parked ==> parked[d] == s.pendingRoutes[d])
  }

  /** Links but that to peer are untouched; its queue has taken what it had room for. */
  ghost predicate LinkTook(before: map<Address, LinkInfo>, after: map<Address, LinkInfo>, peer: Address, more: seq<PendingTx>) {
    peer in before && after == before[peer := before[peer].(pending := Topped(before[peer].pending, more))]
  }

  lemma {:induction false} ParcelsOfRest(s: State, u: State, peer: Address, d: Address, order: seq<Address>)
    requires d !in order && u.addr == s.addr && u.pendingRoutes == s.pendingRoutes - {d}
    ensures Parcels(u, s.routes, peer, order) == Parcels(s, s.routes, peer, order)
    decreases |order|
  {
    if order != [] { ParcelsOfRest(s, u, peer, d, order[1..]); }
  }

  /** One destination of the walk. */
  lemma FlushedOneReleases(s: State, peer: Address, d: Address)
    requires peer in s.links
    ensures var u := FlushedOne(s, peer, d);
            && u == s.(links := u.links, pendingRoutes := u.pendingRoutes)
            && LinkTook(s.links, u.links, peer, Parcels(s, s.routes, peer, [d]))
            && u.pendingRoutes == (if LeadsTo(s.routes, peer, d) then s.pendingRoutes - {d} else s.pendingRoutes)
  {
    assert [d][1..] == [];
    if d in s.pendingRoutes && LeadsTo(s.routes, peer, d) {
      EnqueuedAllTops(s.links[peer].pending, d, s.addr, s.pendingRoutes[d]);
      assert Parcels(s, s.routes, peer, [d]) == Parcel(d, s.addr, s.pendingRoutes[d]);
      hide Parcels, Parcel, EnqueuedAll, Topped;
    } else {
      ToppedWithNothing(s.links[peer].pending);
      assert s.links[peer := s.links[peer].(pending := s.links[peer].pending)] == s.links;
      if d !in s.pendingRoutes { assert s.pendingRoutes - {d} == s.pendingRoutes; }
    }
  }

  lemma LeftParkedStep(s: State, u: State, peer: Address, order: seq<Address>, parked: map<Address, seq<Payload>>)
    requires order != [] && order[0] !in order[1..] && u.routes == s.routes
    requires u.pendingRoutes == (if LeadsTo(s.routes, peer, order[0]) then s.pendingRoutes - {order[0]} else s.pendingRoutes)
    requires LeftParked(u, s.routes, peer, order[1..], parked)
    ensures LeftParked(s, s.routes, peer, order, parked)
  {
    assert forall d :: d in order <==> d == order[0] || d in order[1..];
  }

  lemma ParcelsStep(s: State, u: State, peer: Address, order: seq<Address>)
    requires order != [] && order[0] !in order[1..] && u.addr == s.addr
    requires u.pendingRoutes == (if LeadsTo(s.routes, peer, order[0]) then s.pendingRoutes - {order[0]} else s.pendingRoutes)
    ensures Parcels(s, s.routes, peer, order) == Parcels(s, s.routes, peer, [order[0]]) + Parcels(u, s.routes, peer, order[1..])
  {
    var d := order[0];
    assert [d][1..] == [];
    if LeadsTo(s.routes, peer, d) {
      ParcelsOfRest(s, u, peer, d, order[1..]);
    } else {
      ParcelsSame(s, u, s.routes, peer, order[1..]);
    }
  }

  lemma {:induction false} ParcelsSame(s: State, u: State, routes: map<Address, RouteEntry>, peer: Address, order: seq<Address>)
    requires u.addr == s.addr && u.pendingRoutes == s.pendingRoutes
    ensures Parcels(u, routes, peer, order) == Parcels(s, routes, peer, order)
    decreases |order|
  {
    if order != [] { ParcelsSame(s, u, routes, peer, order[1..]); }
  }

  /** The link to peer releases what it leads to: its queue takes that in order as far as 32 allow, and none of it stays parked. */
  lemma {:induction false} FlushReleases(s: State, peer: Address, order: seq<Address>)
    requires peer in s.links && NoDuplicates(order)
    ensures var t := AfterFlush(s, peer, order);
            && t == s.(links := t.links, pendingRoutes := t.pendingRoutes)
            && LinkTook(s.links, t.links, peer, Parcels(s, s.routes, peer, order))
            && LeftParked(s, s.routes, peer, order, t.pendingRoutes)
    decreases |order|
  {
    if order == [] {
      ToppedWithNothing(s.links[peer].pending);
      assert s.links[peer := s.links[peer].(pending := s.links[peer].pending)] == s.links;
    } else {
      var u := FlushedOne(s, peer, order[0]);
      FlushedOneReleases(s, peer, order[0]);
      FlushReleases(u, peer, order[1..]);
      var t := AfterFlush(u, peer, order[1..]);
      assert t == AfterFlush(s, peer, order);
      hide FlushedOne, AfterFlush, Topped, Parcels, LeftParked;
      LeftParkedStep(s, u, peer, order, t.pendingRoutes);
      ParcelsStep(s, u, peer, order);
      ToppedTwice(s.links[peer].pending, Parcels(s, s.routes, peer, [order[0]]), Parcels(u, s.routes, peer, order[1..]));
    }
  }

  /** Nothing is lost in the move if there is room: each payload of a released destination is then on the link. */
  lemma {:induction false} ParcelsHave(s: State, routes: map<Address, RouteEntry>, peer: Address, order: seq<Address>, d: Address, i: nat)
    requires d in order && d in s.pendingRoutes && LeadsTo(routes, peer, d) && i < |s.pendingRoutes[d]|
    ensures PendingTx(d, s.addr, s.pendingRoutes[d][i]) in Parcels(s, routes, peer, order)
    decreases |order|
  {
    var parcel := Parcel(d, s.addr, s.pendingRoutes[d]);
    if order[0] == d {
      assert parcel[i] in parcel;
    } else {
      ParcelsHave(s, routes, peer, order[1..], d, i);
    }
  }

  // ----- replies -----

  /** A reply of one's own, one to an unknown request, and one to a request for oneself are ignored. */
  lemma ReplyIgnored(s: State, m: Frame, now: nat, order: seq<Address>)
    requires m.Rrep? && (m.from == s.addr || m.id !in s.reversePaths || s.reversePaths[m.id].dest == s.addr)
    ensures var t := AfterRrep(s, m, now, order);
            t == if m.from == s.addr then s else s.(neighbors := Knowing(s, m.from))
  {
    VerifiedKnows(s, m.from);
    hide Verified;
  }

  /** The node has a reply to make use of. */
  predicate ReplyCounts(s: State, m: Frame)
    requires m.Rrep?
  {
    m.from != s.addr && m.id in s.reversePaths && s.reversePaths[m.id].dest != s.addr
  }

  /** The node with the reply's route offered, before anything is sent. */
  function Noted(s: State, m: Frame): State
    requires m.Rrep? && ReplyCounts(s, m)
  {
    Verified(s, m.from).(routes := Upsert(s.routes, s.reversePaths[m.id].dest, RouteEntry(m.from, Capped(m.cost + 1 + |s.links|), m.dstSeq)))
  }

  /** After a reply addressed to the node a link to its sender is asked for if one is due. */
  function LinkAsked(s: State, from: Address, now: nat): seq<Frame> {
    if from != s.addr && from !in s.links && |s.links| < 8
       && (from in s.neighbors && s.neighbors[from].known && s.neighbors[from].lastLinkReq != 0 ==> now >= s.neighbors[from].lastLinkReq + 5_000_000_000)
    then [LinkFrame(Request, from, s.addr, s.addr)] else []
  }

  /** That peer is known then, with the time of the request if there was one. */
  function KnownAndAsked(s: State, from: Address, now: nat): map<Address, NeighborInfo> {
    if LinkAsked(s, from, now) == [] then Knowing(s, from) else Knowing(s, from)[from := NeighborInfo(true, now)]
  }

  lemma NotedAsks(s: State, m: Frame, now: nat)
    requires m.Rrep? && ReplyCounts(s, m)
    ensures var u, v := Noted(s, m), AfterTryEstablish(Noted(s, m), m.from, now);
            && v == u.(neighbors := KnownAndAsked(s, m.from, now), queue := s.queue + LinkAsked(s, m.from, now))
            && u.links == s.links && u.pendingRoutes == s.pendingRoutes && u.addr == s.addr
  {
    LinkAskedIffDue(Noted(s, m), m.from, now);
    hide AfterTryEstablish, Upsert;
  }

  /** With the route offered the rest is up to whom the reply is addressed to. */
  lemma RrepFromNoted(s: State, m: Frame, now: nat, order: seq<Address>)
    requires m.Rrep? && ReplyCounts(s, m)
    ensures var u := Noted(s, m);
            AfterRrep(s, m, now, order)
            == if m.to != s.addr then u
               else AfterReply(u, m, s.reversePaths[m.id].prevHop, Capped(m.cost + 1 + |s.links|), now, order)
  {
    assert SatAdd(m.cost, HopCost(s)) == Capped(m.cost + 1 + |s.links|);
    hide AfterReply, Verified, Upsert, SatAdd, Capped, HopCost;
  }

  lemma NotedOffers(s: State, m: Frame)
    requires m.Rrep? && ReplyCounts(s, m)
    ensures var u := Noted(s, m);
            && u == s.(neighbors := Knowing(s, m.from), routes := u.routes)
            && Offers(s.routes, u.routes, s.reversePaths[m.id].dest, RouteEntry(m.from, Capped(m.cost + 1 + |s.links|), m.dstSeq))
  {
    UpsertOffers(s.routes, s.reversePaths[m.id].dest, RouteEntry(m.from, Capped(m.cost + 1 + |s.links|), m.dstSeq));
    VerifiedKnows(s, m.from);
    hide Verified, Upsert, Offers, Capped;
  }

  /** A reply to a request the node knows of is offered as a route at what it carried plus 1 plus the number of links. */
  lemma ReplyCosts(s: State, m: Frame, now: nat, order: seq<Address>)
    requires m.Rrep? && ReplyCounts(s, m) && NoDuplicates(order)
    ensures var t := AfterRrep(s, m, now, order);
            && t.reversePaths == s.reversePaths
            && Offers(s.routes, t.routes, s.reversePaths[m.id].dest, RouteEntry(m.from, Capped(m.cost + 1 + |s.links|), m.dstSeq))
    ensures var t := AfterRrep(s, m, now, order);
            m.to != s.addr ==> t == s.(neighbors := Knowing(s, m.from), routes := t.routes)
  {
    var v := AfterTryEstablish(Noted(s, m), m.from, now);
    RrepFromNoted(s, m, now, order);
    NotedOffers(s, m);
    NotedAsks(s, m, now);
    if m.from in v.links { FlushReleases(v, m.from, order); }
    hide AfterTryEstablish, Noted, AfterRrep, Offers, Capped, Knowing, LinkTook, LeftParked, Parcels, LinkAsked, KnownAndAsked;
  }

  /** A reply for another originator goes on to the previous hop, at the cost it has here. */
  lemma ReplyGoesOn(s: State, m: Frame, now: nat, order: seq<Address>)
    requires m.Rrep? && ReplyCounts(s, m) && m.to == s.addr && m.orig != s.addr
    ensures var t := AfterRrep(s, m, now, order);
            t == s.(neighbors := KnownAndAsked(s, m.from, now), routes := t.routes,
                    queue := s.queue + LinkAsked(s, m.from, now)
                             + [Rrep(s.reversePaths[m.id].prevHop, s.addr, m.orig, m.id, m.dstSeq, Capped(m.cost + 1 + |s.links|))])
  {
    RrepFromNoted(s, m, now, order);
    NotedOffers(s, m);
    NotedAsks(s, m, now);
    hide AfterTryEstablish, Noted, AfterRrep, Offers, Capped, Knowing, LinkAsked, KnownAndAsked;
  }

  /**
   A reply that is home releases what was parked: over the link to its sender, if there is one, go the payloads for the
   sender and for every destination whose route, as it now is, leads there.
   */
  lemma ReplyReleases(s: State, m: Frame, now: nat, order: seq<Address>)
    requires m.Rrep? && ReplyCounts(s, m) && m.to == s.addr && m.orig == s.addr
    requires NoDuplicates(order) && Elements(order) == s.pendingRoutes.Keys
    ensures var t := AfterRrep(s, m, now, order);
            && t == s.(neighbors := KnownAndAsked(s, m.from, now), routes := t.routes, queue := s.queue + LinkAsked(s, m.from, now),
                       links := t.links, pendingRoutes := t.pendingRoutes)
            && (m.from !in s.links ==> t.links == s.links && t.pendingRoutes == s.pendingRoutes)
            && (m.from in s.links ==>
                  && LinkTook(s.links, t.links, m.from, Parcels(s, t.routes, m.from, order))
                  && LeftParked(s, t.routes, m.from, order, t.pendingRoutes))
  {
    RrepFromNoted(s, m, now, order);
    NotedOffers(s, m);
    NotedAsks(s, m, now);
    var v := AfterTryEstablish(Noted(s, m), m.from, now);
    if m.from in s.links {
      FlushReleases(v, m.from, order);
      ParcelsSame(s, v, v.routes, m.from, order);
    }
    hide AfterTryEstablish, Noted, AfterRrep, Offers, Capped, Knowing, LinkAsked, KnownAndAsked, Parcels, Topped, LeadsTo;
  }

  /** No payload stays parked for the sender of a link frame or reply that is home, nor for any destination routed over it. */
  lemma NothingStaysBehind(s: State, routes: map<Address, RouteEntry>, peer: Address, order: seq<Address>, parked: map<Address, seq<Payload>>, d: Address)
    requires Elements(order) == s.pendingRoutes.Keys && LeftParked(s, routes, peer, order, parked)
    ensures d in parked <==> d in s.pendingRoutes && !LeadsTo(routes, peer, d)
  {
    assert d in s.pendingRoutes <==> d in Elements(order);
  }

  // ----- link frames -----

  lemma LinkFrameIgnored(s: State, m: Frame, order: seq<Address>)
    requires m.LinkFrame? && (m.to != s.addr || m.from == s.addr)
    ensures AfterLinkFrame(s, m, order) == s
  {
  }

  /** The node with the link installed, before anything is sent. */
  function WithLink(s: State, m: Frame): State
    requires m.LinkFrame?
  {
    s.(neighbors := s.neighbors[m.from := NeighborInfo(true, if m.from in s.neighbors then s.neighbors[m.from].lastLinkReq else 0)],
       links := s.links[m.from := NewLink(s, m)])
  }

  lemma LinkFrameFromLink(s: State, m: Frame, order: seq<Address>)
    requires m.LinkFrame? && m.to == s.addr && m.from != s.addr
    ensures var t, u := AfterLinkFrame(s, m, order), AfterFlush(WithLink(s, m), m.from, order);
            t == if m.op == Request then u.(queue := u.queue + [LinkFrame(Response, m.from, s.addr, s.addr)]) else u
    ensures AfterFlush(WithLink(s, m), m.from, order).addr == s.addr
  {
    FlushKeepsAddr(WithLink(s, m), m.from, order);
    hide AfterFlush;
  }

  lemma {:induction false} FlushKeepsAddr(s: State, peer: Address, order: seq<Address>)
    ensures AfterFlush(s, peer, order).addr == s.addr
    decreases |order|
  {
    if peer in s.links && order != [] { FlushKeepsAddr(FlushedOne(s, peer, order[0]), peer, order[1..]); }
  }

  lemma LinkReleases(s: State, m: Frame, order: seq<Address>)
    requires m.LinkFrame? && NoDuplicates(order)
    ensures var u, t := WithLink(s, m), AfterFlush(WithLink(s, m), m.from, order);
            && t == u.(links := t.links, pendingRoutes := t.pendingRoutes)
            && LinkTook(u.links, t.links, m.from, Parcels(s, s.routes, m.from, order))
            && LeftParked(s, s.routes, m.from, order, t.pendingRoutes)
  {
    var u := WithLink(s, m);
    FlushReleases(u, m.from, order);
    ParcelsSame(s, u, s.routes, m.from, order);
    hide AfterFlush, Parcels, Topped, LeadsTo, NewLink, LinkTook;
  }

  /**
   A link frame addressed to the node: its sender is known, the link has the pair's key and keeps counter and queue if
   there was one, what was parked for it is released, and a request, but not a response, is answered.
   */
  lemma LinkFrameInstalls(s: State, m: Frame, order: seq<Address>)
    requires m.LinkFrame? && m.to == s.addr && m.from != s.addr
    requires NoDuplicates(order) && Elements(order) == s.pendingRoutes.Keys
    ensures var t := AfterLinkFrame(s, m, order);
            && t == WithLink(s, m).(links := t.links, pendingRoutes := t.pendingRoutes, queue := t.queue)
            && t.queue == s.queue + (if m.op == Request then [LinkFrame(Response, m.from, s.addr, s.addr)] else [])
            && LinkTook(WithLink(s, m).links, t.links, m.from, Parcels(s, s.routes, m.from, order))
            && LeftParked(s, s.routes, m.from, order, t.pendingRoutes)
  {
    LinkReleases(s, m, order);
    LinkFrameFromLink(s, m, order);
    assert WithLink(s, m).queue == s.queue == s.queue + [];
    hide WithLink, AfterFlush, AfterLinkFrame, Parcels, LinkTook, LeftParked;
  }

  function NewLink(s: State, m: Frame): LinkInfo
    requires m.LinkFrame?
  {
    LinkInfo(LinkKey(Shared(Min(s.addr, m.xchg), Max(s.addr, m.xchg)), Min(s.addr, m.from), Max(s.addr, m.from)),
             if m.from in s.links then s.links[m.from].txCounter else 0,
             if m.from in s.links then s.links[m.from].pending else [])
  }

  // ----- announcements -----

  /** An announcement makes its sender a known neighbour; a target peer is asked for a link if that is due. */
  lemma AnnounceAsksTargets(s: State, peer: Address, now: nat)
    ensures peer == s.addr ==> AfterAnnounce(s, peer, now) == s
    ensures peer != s.addr ==>
              var t := AfterAnnounce(s, peer, now);
              var asked := peer in s.targetPeers && LinkDue(s, peer, now);
              var last := if asked then now else if peer in s.neighbors then s.neighbors[peer].lastLinkReq else 0;
              t == s.(neighbors := s.neighbors[peer := NeighborInfo(true, last)],
                      queue := s.queue + (if asked then [LinkFrame(Request, peer, s.addr, s.addr)] else []))
  {
    if peer != s.addr {
      LinkAskedIffDue(s.(neighbors := s.neighbors[peer := LearntKey(s.neighbors, peer)]), peer, now);
      hide AfterTryEstablish;
      assert s.queue + [] == s.queue;
    }
  }
}
