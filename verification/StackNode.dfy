/** The node as the stack keeps it: fields updated in place by the handlers of link.zig, route.zig and relay.zig. */
module StackNode {
  import opened Types
  import opened NodeModel

  lemma {:induction false} EnqueuedAllSnoc(pending: seq<PendingTx>, dest: Address, source: Address, payloads: seq<Payload>, last: Payload)
    ensures EnqueuedAll(pending, dest, source, payloads + [last])
            == Enqueued(EnqueuedAll(pending, dest, source, payloads), PendingTx(dest, source, last))
    decreases |payloads|
  {
    var all := payloads + [last];
    if payloads == [] {
      assert all[1..] == [];
    } else {
      assert all[1..] == payloads[1..] + [last];
      EnqueuedAllSnoc(Enqueued(pending, PendingTx(dest, source, payloads[0])), dest, source, payloads[1..], last);
    }
  }

  lemma {:induction false} FlushSnoc(s: State, peer: Address, order: seq<Address>, last: Address)
    requires peer in s.links
    ensures peer in AfterFlush(s, peer, order).links
    ensures AfterFlush(s, peer, order + [last]) == FlushedOne(AfterFlush(s, peer, order), peer, last)
    decreases |order|
  {
    var all := order + [last];
    if order == [] {
      assert all[1..] == [];
    } else {
      assert all[1..] == order[1..] + [last];
      FlushSnoc(FlushedOne(s, peer, order[0]), peer, order[1..], last);
    }
  }

  /** A flush leaves the routes and the entries it has not come to alone. */
  lemma {:induction false} FlushKeepsOthers(s: State, peer: Address, order: seq<Address>, dest: Address)
    requires dest !in order
    ensures var t := AfterFlush(s, peer, order);
            && t.routes == s.routes && t.addr == s.addr
            && (dest in t.pendingRoutes <==> dest in s.pendingRoutes)
            && (dest in s.pendingRoutes ==> t.pendingRoutes[dest] == s.pendingRoutes[dest])
    decreases |order|
  {
    if peer in s.links && order != [] {
      FlushKeepsOthers(FlushedOne(s, peer, order[0]), peer, order[1..], dest);
    }
  }

  /** How far a flush of s0 has got in t: entries in `order` are done, those in `rest` untouched, `removed` to go at the end. */
  ghost predicate FlushAt(s0: State, t: State, peer: Address, order: seq<Address>, rest: set<Address>, removed: set<Address>) {
    && NoDuplicates(order) && Elements(order) == s0.pendingRoutes.Keys - rest
    && peer in s0.links && peer in t.links
    && rest <= t.pendingRoutes.Keys == s0.pendingRoutes.Keys && removed <= t.pendingRoutes.Keys
    && (forall d :: d in rest ==> d !in removed && t.pendingRoutes[d] == s0.pendingRoutes[d])
    && t.pendingRoutes - removed == AfterFlush(s0, peer, order).pendingRoutes
    && t == AfterFlush(s0, peer, order).(pendingRoutes := t.pendingRoutes)
  }

  lemma FlushBegins(s: State, peer: Address)
    requires peer in s.links
    ensures FlushAt(s, s, peer, [], s.pendingRoutes.Keys, {})
  {
  }

  lemma OneToGo(s0: State, t: State, peer: Address, order: seq<Address>, rest: set<Address>, removed: set<Address>, dst: Address)
    requires FlushAt(s0, t, peer, order, rest, removed) && dst in rest
    ensures peer in t.links && dst in t.pendingRoutes && dst !in removed
  {
    hide AfterFlush;
  }

  lemma OrderGrows(s0: State, t: State, peer: Address, order: seq<Address>, rest: set<Address>, removed: set<Address>, dst: Address)
    requires FlushAt(s0, t, peer, order, rest, removed) && dst in rest
    ensures NoDuplicates(order + [dst]) && Elements(order + [dst]) == s0.pendingRoutes.Keys - (rest - {dst})
  {
    hide AfterFlush;
    assert dst !in Elements(order);
  }

  lemma FlushSkips(s0: State, t: State, peer: Address, order: seq<Address>, rest: set<Address>, removed: set<Address>, dst: Address)
    requires FlushAt(s0, t, peer, order, rest, removed) && dst in rest && !Matches(t, dst, peer)
    ensures FlushAt(s0, t, peer, order + [dst], rest - {dst}, removed)
  {
    OrderGrows(s0, t, peer, order, rest, removed, dst);
    FlushSnoc(s0, peer, order, dst);
    hide AfterFlush;
  }

  lemma FlushTakes(s0: State, t: State, t': State, peer: Address, order: seq<Address>, rest: set<Address>, removed: set<Address>, dst: Address)
    requires FlushAt(s0, t, peer, order, rest, removed) && dst in rest && Matches(t, dst, peer) && dst in t.pendingRoutes && peer in t.links
    requires t' == t.(pendingRoutes := t.pendingRoutes[dst := []],
                      links := t.links[peer := t.links[peer].(pending := EnqueuedAll(t.links[peer].pending, dst, t.addr, t.pendingRoutes[dst]))])
    ensures FlushAt(s0, t', peer, order + [dst], rest - {dst}, removed + {dst})
  {
    var u := AfterFlush(s0, peer, order);
    OrderGrows(s0, t, peer, order, rest, removed, dst);
    FlushSnoc(s0, peer, order, dst);
    FlushKeepsOthers(s0, peer, order, dst);
    hide AfterFlush, EnqueuedAll;
    assert t'.pendingRoutes - (removed + {dst}) == u.pendingRoutes - {dst};
  }

  lemma FlushEnds(s0: State, t: State, peer: Address, order: seq<Address>, removed: set<Address>)
    requires FlushAt(s0, t, peer, order, {}, removed)
    ensures NoDuplicates(order) && Elements(order) == s0.pendingRoutes.Keys
    ensures t.(pendingRoutes := t.pendingRoutes - removed) == AfterFlush(s0, peer, order)
  {
    hide AfterFlush;
  }

  class Node {
    const addr: Address
    var seqNo: U64
    var neighbors: map<Address, NeighborInfo>
    var links: map<Address, LinkInfo>
    var routes: map<Address, RouteEntry>
    var reversePaths: map<U32, ReverseEntry>
    var pendingRoutes: map<Address, seq<Payload>>
    var lastRreq: map<Address, nat>
    var targetPeers: set<Address>
    var queue: seq<Frame>
    var deliveries: seq<Delivery>
    var forwardedCount: nat
    var dropNoRoute: nat
    var dropNoLink: nat
    var dropQueueFull: nat

    ghost function Model(): State
      reads this
    {
      State(addr, seqNo, neighbors, links, routes, reversePaths, pendingRoutes, lastRreq, targetPeers, queue, deliveries,
            Counters(forwardedCount, dropNoRoute, dropNoLink, dropQueueFull))
    }

    constructor (addr: Address, targets: set<Address>)
      ensures Model() == Fresh(addr, targets)
    {
      this.addr := addr;
      seqNo, neighbors, links, routes, reversePaths, pendingRoutes, lastRreq := 0, map[], map[], map[], map[], map[], map[];
      targetPeers, queue, deliveries := targets, [], [];
      forwardedCount, dropNoRoute, dropNoLink, dropQueueFull := 0, 0, 0, 0;
    }

    // ----- link.zig -----

    method TryEstablish(peer: Address, now: nat) returns (ok: bool)
      modifies this
      ensures Model() == AfterTryEstablish(old(Model()), peer, now)
      ensures ok <==> peer != addr && (peer in old(links) || |old(links)| < MAX_LINKS_PER_NODE)
    {
      if peer == addr { return false; }
      if peer in links { return true; }
      if |links| >= MAX_LINKS_PER_NODE { return false; }
      if peer !in neighbors { neighbors := neighbors[peer := NeighborInfo(false, 0)]; }
      var info := neighbors[peer];
      if info.lastLinkReq != 0 && now < info.lastLinkReq + LINK_RETRY_NS {
        assert neighbors == neighbors[peer := info];
        return true;
      }
      neighbors := neighbors[peer := info.(lastLinkReq := now)];
      queue := queue + [LinkFrame(Request, peer, addr, addr)];
      return true;
    }

    method HandleLinkFrame(m: Frame) returns (ghost order: seq<Address>)
      requires m.LinkFrame?
      modifies this
      ensures NoDuplicates(order) && Elements(order) == old(pendingRoutes.Keys)
      ensures Model() == AfterLinkFrame(old(Model()), m, order)
    {
      if m.to != addr || m.from == addr {
        order := AnyOrder(pendingRoutes.Keys);
        return;
      }
      neighbors := neighbors[m.from := LearntKey(neighbors, m.from)];
      var key := DeriveLinkKey(Ecdh(addr, m.xchg), addr, m.from);
      if m.from !in links {
        links := links[m.from := LinkInfo(key, 0, [])];
      } else {
        links := links[m.from := links[m.from].(key := key)];
      }
      order := FlushPendingFor(m.from);
      if m.op == Request {
        queue := queue + [LinkFrame(Response, m.from, addr, addr)];
      }
    }

    method HandleAnnounce(peer: Address, now: nat)
      modifies this
      ensures Model() == AfterAnnounce(old(Model()), peer, now)
    {
      if peer == addr { return; }
      neighbors := neighbors[peer := LearntKey(neighbors, peer)];
      if peer in targetPeers {
        var _ := TryEstablish(peer, now);
      }
    }

    // ----- route.zig -----

    method VerifySig(from: Address)
      modifies this`neighbors
      ensures Model() == Verified(old(Model()), from)
    {
      if from !in neighbors || !neighbors[from].known {
        neighbors := neighbors[from := NeighborInfo(true, 0)];
      }
    }

    method UpsertRoute(dest: Address, nextHop: Address, cost: U16, seqNo': U32)
      modifies this`routes
      ensures routes == Upsert(old(routes), dest, RouteEntry(nextHop, cost, seqNo'))
    {
      if dest in routes {
        var cur := routes[dest];
        var newerSeq := seqNo' > cur.seqNo;
        var betterCost := seqNo' == cur.seqNo && cost < cur.cost;
        if !newerSeq && !betterCost { return; }
      }
      routes := routes[dest := RouteEntry(nextHop, cost, seqNo')];
    }

    method HandleRreq(m: Frame)
      requires m.Rreq?
      modifies this
      ensures Model() == AfterRreq(old(Model()), m)
    {
      if m.from == addr || m.orig == addr { return; }
      VerifySig(m.from);
      var ownHop := 1 + |links|;
      var reverseCost := SatAdd(m.cost, ownHop);
      if m.id in reversePaths {
        var existing := reversePaths[m.id];
        if reverseCost >= existing.minCost { return; }
        reversePaths := reversePaths[m.id := existing.(prevHop := m.from, minCost := reverseCost)];
      } else {
        reversePaths := reversePaths[m.id := ReverseEntry(m.dest, m.from, reverseCost)];
      }
      UpsertRoute(m.orig, m.from, reverseCost, m.origSeq);
      if m.dest == addr {
        queue := queue + [Rrep(m.from, addr, m.orig, m.id, Truncate(seqNo), SatAdd(0, ownHop))];
        return;
      }
      if m.radius == 0 { return; }
      queue := queue + [m.(from := addr, cost := reverseCost, radius := m.radius - 1)];
    }

    method HandleRrep(m: Frame, now: nat) returns (ghost order: seq<Address>)
      requires m.Rrep?
      modifies this
      ensures NoDuplicates(order) && Elements(order) == old(pendingRoutes.Keys)
      ensures Model() == AfterRrep(old(Model()), m, now, order)
    {
      hide AfterReply, Upsert, SatAdd;
      order := AnyOrder(pendingRoutes.Keys);
      if m.from == addr { return; }
      VerifySig(m.from);
      if m.id !in reversePaths { return; }
      var rev := reversePaths[m.id];
      if rev.dest == addr { return; }
      var viaCost := SatAdd(m.cost, 1 + |links|);
      UpsertRoute(rev.dest, m.from, viaCost, m.dstSeq);
      if m.to != addr { return; }
      order := ReplyReceived(m, rev.prevHop, viaCost, now);
    }

    method ReplyReceived(m: Frame, prevHop: Address, cost: U16, now: nat) returns (ghost order: seq<Address>)
      requires m.Rrep?
      modifies this
      ensures NoDuplicates(order) && Elements(order) == old(pendingRoutes.Keys)
      ensures Model() == AfterReply(old(Model()), m, prevHop, cost, now, order)
    {
      var _ := TryEstablish(m.from, now);
      if m.orig == addr {
        order := FlushPendingFor(m.from);
        return;
      }
      order := AnyOrder(pendingRoutes.Keys);
      queue := queue + [Rrep(prevHop, addr, m.orig, m.id, m.dstSeq, cost)];
    }

    method EnqueueOnLink(peer: Address, item: PendingTx) returns (ok: bool)
      requires peer in links
      modifies this`links
      ensures ok <==> |old(links[peer].pending)| < PENDING_TX_MAX
      ensures links == old(links)[peer := old(links[peer]).(pending := Enqueued(old(links[peer].pending), item))]
    {
      var info := links[peer];
      if |info.pending| >= PENDING_TX_MAX {
        assert links == links[peer := info];
        return false;
      }
      links := links[peer := info.(pending := info.pending + [item])];
      return true;
    }

    /** Hands everything parked for `dest` to the link, in order. */
    method FlushQueue(peer: Address, dest: Address)
      requires peer in links && dest in pendingRoutes
      modifies this`links, this`pendingRoutes
      ensures pendingRoutes == old(pendingRoutes)[dest := []]
      ensures links == old(links)[peer := old(links[peer]).(pending :=
                EnqueuedAll(old(links[peer].pending), dest, addr, old(pendingRoutes[dest])))]
    {
      var payloads := pendingRoutes[dest];
      ghost var links0 := links;
      assert links == links0[peer := links0[peer].(pending := EnqueuedAll(links0[peer].pending, dest, addr, payloads[..0]))];
      for i := 0 to |payloads|
        invariant pendingRoutes == old(pendingRoutes)
        invariant links == links0[peer := links0[peer].(pending := EnqueuedAll(links0[peer].pending, dest, addr, payloads[..i]))]
      {
        var _ := EnqueueOnLink(peer, PendingTx(dest, addr, payloads[i]));
        EnqueuedAllSnoc(links0[peer].pending, dest, addr, payloads[..i], payloads[i]);
        assert payloads[..i + 1] == payloads[..i] + [payloads[i]];
      }
      assert payloads[..|payloads|] == payloads;
      pendingRoutes := pendingRoutes[dest := []];
    }

    method FlushPendingFor(peer: Address) returns (ghost order: seq<Address>)
      modifies this`links, this`pendingRoutes
      ensures NoDuplicates(order) && Elements(order) == old(pendingRoutes.Keys)
      ensures Model() == AfterFlush(old(Model()), peer, order)
    {
      if peer !in links {
        order := AnyOrder(pendingRoutes.Keys);
        return;
      }
      ghost var s0 := Model();
      var toRemove: set<Address> := {};
      var rest := pendingRoutes.Keys;
      order := [];
      FlushBegins(s0, peer);
      while rest != {}
        invariant FlushAt(s0, Model(), peer, order, rest, toRemove)
        decreases rest
      {
        ghost var t := Model();
        var dst :| dst in rest;
        OneToGo(s0, t, peer, order, rest, toRemove, dst);
        hide FlushAt;
        var matchesDirect := dst == peer;
        var matchesVia := dst in routes && routes[dst].nextHop == peer;
        if !matchesDirect && !matchesVia {
          FlushSkips(s0, t, peer, order, rest, toRemove, dst);
          order, rest := order + [dst], rest - {dst};
          continue;
        }
        FlushQueue(peer, dst);
        FlushTakes(s0, t, Model(), peer, order, rest, toRemove, dst);
        order, rest, toRemove := order + [dst], rest - {dst}, toRemove + {dst};
      }
      FlushEnds(s0, Model(), peer, order, toRemove);
      pendingRoutes := pendingRoutes - toRemove;
    }

    method Send(dest: Address, source: Address, payload: Payload, now: nat, id: U32)
      modifies this
      ensures Model() == AfterSend(old(Model()), dest, source, payload, now, id)
    {
      hide AfterInitiate, AfterTryEstablish;
      if |payload| > ROUTE_MAX_PAYLOAD { return; }
      if dest == addr { return; }
      if dest in links {
        var ok := EnqueueOnLink(dest, PendingTx(dest, source, payload));
        if !ok {
          assert links == old(links);
          dropQueueFull := dropQueueFull + 1;
        }
        return;
      }
      if dest in routes {
        var r := routes[dest];
        if r.nextHop in links {
          var ok := EnqueueOnLink(r.nextHop, PendingTx(dest, source, payload));
          if !ok {
            assert links == old(links);
            dropQueueFull := dropQueueFull + 1;
          }
          return;
        }
        var _ := TryEstablish(r.nextHop, now);
      }
      if dest in neighbors {
        var _ := TryEstablish(dest, now);
      }
      if source != addr {
        dropNoLink := dropNoLink + 1;
        return;
      }
      Initiate(dest, payload, now, id);
    }

    method Initiate(dest: Address, payload: Payload, now: nat, id: U32)
      modifies this
      ensures Model() == AfterInitiate(old(Model()), dest, payload, now, id)
    {
      hide Truncate, WrapSucc;
      var waiting := if dest in pendingRoutes then pendingRoutes[dest] else [];
      if |waiting| >= PENDING_PER_DEST_MAX { waiting := waiting[1..]; }
      pendingRoutes := pendingRoutes[dest := waiting + [payload]];
      if dest in lastRreq && now < lastRreq[dest] + RREQ_RETRY_NS { return; }
      lastRreq := lastRreq[dest := now];
      seqNo := WrapSucc(seqNo);
      reversePaths := reversePaths[id := ReverseEntry(dest, addr, 0)];
      queue := queue + [Rreq(dest, addr, addr, id, Truncate(seqNo), 0, ROUTE_RADIUS)];
    }

    // ----- relay.zig -----

    /** Seals the head of a link queue; a payload too long to frame stays where it is. */
    method BuildDataFrame(peer: Address) returns (frame: Option<Sealed>)
      requires peer in links && links[peer].pending != []
      modifies this`links
      ensures frame == SealedHead(old(Model()), peer)
      ensures Model() == AfterSeal(old(Model()), peer)
    {
      var info := links[peer];
      var head := info.pending[0];
      if |head.payload| > RELAY_MAX_PAYLOAD { return None; }
      frame := Some(Sealed(info.key, LinkNonce(addr, peer, info.txCounter), head.dest, head.source, head.payload));
      links := links[peer := info.(txCounter := info.txCounter + 1)];
      links := links[peer := links[peer].(pending := links[peer].pending[1..])];
    }

    /** Tries every link key; the frame names no link. */
    method HandleEncryptedRx(f: Sealed, now: nat)
      modifies this
      ensures Model() == AfterSealed(old(Model()), f, now)
    {
      var rest := links.Keys;
      while rest != {}
        invariant Model() == old(Model())
        invariant rest <= links.Keys
        invariant forall p :: p in links && p !in rest ==> links[p].key != f.key
        decreases rest
      {
        var p :| p in rest;
        rest := rest - {p};
        if links[p].key == f.key {
          assert Opens(Model(), f);
          DispatchDecoded(f, now);
          return;
        }
      }
      assert !Opens(Model(), f);
    }

    method DispatchDecoded(f: Sealed, now: nat)
      modifies this
      ensures Model() == if f.dest == addr then old(Model()).(deliveries := old(deliveries) + [Delivery(f.source, f.payload)])
                         else AfterForward(old(Model()), f.dest, f.source, f.payload, now)
    {
      if f.dest == addr {
        deliveries := deliveries + [Delivery(f.source, f.payload)];
        return;
      }
      ForwardToward(f.dest, f.source, f.payload, now);
    }

    method Enqueue(peer: Address, item: PendingTx) returns (ok: bool)
      requires peer in links
      modifies this`links, this`forwardedCount
      ensures ok <==> |old(links[peer].pending)| < PENDING_TX_MAX
      ensures Model() == if ok then Relayed(old(Model()), peer, item) else old(Model())
    {
      ok := EnqueueOnLink(peer, item);
      if ok { forwardedCount := forwardedCount + 1; }
      else { assert links == old(links); }
    }

    method ForwardToward(dest: Address, source: Address, payload: Payload, now: nat)
      modifies this
      ensures Model() == AfterForward(old(Model()), dest, source, payload, now)
    {
      if dest in links {
        var ok := Enqueue(dest, PendingTx(dest, source, payload));
        if !ok { dropQueueFull := dropQueueFull + 1; }
        return;
      }
      if dest !in routes {
        if dest in neighbors {
          var _ := TryEstablish(dest, now);
        }
        dropNoRoute := dropNoRoute + 1;
        return;
      }
      var r := routes[dest];
      if r.nextHop == source { return; }
      if r.nextHop in links {
        var ok := Enqueue(r.nextHop, PendingTx(dest, source, payload));
        if !ok { dropQueueFull := dropQueueFull + 1; }
        return;
      }
      var _ := TryEstablish(r.nextHop, now);
      dropNoLink := dropNoLink + 1;
    }
  }
}
