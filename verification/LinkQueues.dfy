/** Link queues: first in, first out, at most 32 items, and stuck for good behind a payload too long to frame. */
module LinkQueues {
  import opened Types
  import opened NodeModel
  import opened NodeFacts
  import opened Network
  import opened DataEffects
  import opened Effects

  /** Every link queue kept its content and at most grew at the tail, up to its bound. */
  ghost predicate QueuesExtend(s: State, t: State) {
    forall p :: p in s.links ==>
      && p in t.links && s.links[p].pending <= t.links[p].pending
      && (|s.links[p].pending| <= PENDING_TX_MAX ==> |t.links[p].pending| <= PENDING_TX_MAX)
  }

  /** New links start with a queue within the bound. */
  ghost predicate NewQueuesFit(s: State, t: State) {
    forall p :: p in t.links && p !in s.links ==> |t.links[p].pending| <= PENDING_TX_MAX
  }

  /** How many items wait on the link to p. */
  function Depth(s: State, p: Address): nat {
    if p in s.links then |s.links[p].pending| else 0
  }

  /** Whatever was appended went to the link of its destination or to the next hop that t's table has for it. */
  ghost predicate GrowthRouted(s: State, t: State) {
    forall p, k :: p in t.links && Depth(s, p) <= k < |t.links[p].pending| ==> Matches(t, t.links[p].pending[k].dest, p)
  }

  ghost predicate Appends(s: State, t: State) {
    QueuesExtend(s, t) && NewQueuesFit(s, t) && GrowthRouted(s, t)
  }

  lemma AppendsTransitive(s: State, m: State, t: State)
    requires Appends(s, m) && Appends(m, t) && t.routes == m.routes
    ensures Appends(s, t)
  {
    forall p | p in s.links
      ensures p in t.links && s.links[p].pending <= t.links[p].pending
      ensures |s.links[p].pending| <= PENDING_TX_MAX ==> |t.links[p].pending| <= PENDING_TX_MAX
    {
      assert p in m.links;
    }
    forall p, k | p in t.links && Depth(s, p) <= k < |t.links[p].pending| ensures Matches(t, t.links[p].pending[k].dest, p) {
      if k < Depth(m, p) { assert p in m.links && m.links[p].pending[k] == t.links[p].pending[k]; }
    }
  }

  lemma SameLinksAppend(s: State, t: State)
    requires t.links == s.links
    ensures Appends(s, t)
  {
  }

  lemma {:induction false} EnqueuedAllExtends(pending: seq<PendingTx>, dest: Address, source: Address, payloads: seq<Payload>)
    ensures pending <= EnqueuedAll(pending, dest, source, payloads)
    ensures |pending| <= PENDING_TX_MAX ==> |EnqueuedAll(pending, dest, source, payloads)| <= PENDING_TX_MAX
    ensures forall k :: |pending| <= k < |EnqueuedAll(pending, dest, source, payloads)| ==> EnqueuedAll(pending, dest, source, payloads)[k].dest == dest
    decreases |payloads|
  {
    if payloads != [] {
      EnqueuedAllExtends(Enqueued(pending, PendingTx(dest, source, payloads[0])), dest, source, payloads[1..]);
    }
  }

  lemma FlushedOneAppends(s: State, peer: Address, dest: Address)
    requires peer in s.links
    ensures Appends(s, FlushedOne(s, peer, dest)) && FlushedOne(s, peer, dest).routes == s.routes
  {
    if dest in s.pendingRoutes {
      EnqueuedAllExtends(s.links[peer].pending, dest, s.addr, s.pendingRoutes[dest]);
    }
  }

  lemma {:induction false} FlushAppends(s: State, peer: Address, order: seq<Address>)
    ensures Appends(s, AfterFlush(s, peer, order)) && AfterFlush(s, peer, order).routes == s.routes
    decreases |order|
  {
    hide FlushedOne, Appends;
    if peer !in s.links || order == [] {
      SameLinksAppend(s, s);
    } else {
      FlushedOneAppends(s, peer, order[0]);
      FlushAppends(FlushedOne(s, peer, order[0]), peer, order[1..]);
      AppendsTransitive(s, FlushedOne(s, peer, order[0]), AfterFlush(s, peer, order));
    }
  }

  lemma LinkFrameAppends(s: State, m: Frame, order: seq<Address>)
    requires m.LinkFrame?
    ensures Appends(s, AfterLinkFrame(s, m, order))
  {
    if m.to == s.addr && m.from != s.addr {
      var s1 := s.(neighbors := s.neighbors[m.from := LearntKey(s.neighbors, m.from)],
                   links := s.links[m.from := Keyed(s.links, m.from, DeriveLinkKey(Ecdh(s.addr, m.xchg), s.addr, m.from))]);
      assert Appends(s, s1);
      var s2 := AfterFlush(s1, m.from, order);
      FlushAppends(s1, m.from, order);
      hide Appends, Keyed, AfterFlush;
      AppendsTransitive(s, s1, s2);
      SameLinksAppend(s2, AfterLinkFrame(s, m, order));
      AppendsTransitive(s, s2, AfterLinkFrame(s, m, order));
    } else {
      SameLinksAppend(s, s);
    }
  }

  lemma TryEstablishKeepsLinks(s: State, peer: Address, now: nat)
    ensures AfterTryEstablish(s, peer, now).links == s.links
  {
  }

  lemma RrepAppends(s: State, m: Frame, now: nat, order: seq<Address>)
    requires m.Rrep?
    ensures Appends(s, AfterRrep(s, m, now, order))
  {
    hide Appends, AfterFlush, AfterTryEstablish, Upsert, HopCost, SatAdd;
    if m.from != s.addr && m.id in s.reversePaths && s.reversePaths[m.id].dest != s.addr && m.to == s.addr {
      var rev := s.reversePaths[m.id];
      var s1 := Verified(s, m.from).(routes := Upsert(s.routes, rev.dest, RouteEntry(m.from, SatAdd(m.cost, HopCost(s)), m.dstSeq)));
      TryEstablishKeepsLinks(s1, m.from, now);
      var s2 := AfterTryEstablish(s1, m.from, now);
      SameLinksAppend(s, s2);
      if m.orig == s.addr {
        FlushAppends(s2, m.from, order);
        AppendsTransitive(s, s2, AfterRrep(s, m, now, order));
      } else {
        SameLinksAppend(s, AfterRrep(s, m, now, order));
      }
    } else {
      SameLinksAppend(s, AfterRrep(s, m, now, order));
    }
  }

  lemma OfferedAppends(s: State, peer: Address, item: PendingTx)
    requires peer in s.links && Matches(s, item.dest, peer)
    ensures Appends(s, Offered(s, peer, item)) && Appends(s, Relayed(s, peer, item))
  {
    if |s.links[peer].pending| >= PENDING_TX_MAX {
      SameLinksAppend(s, Offered(s, peer, item));
    } else {
      AppendedOne(s, Offered(s, peer, item), peer, item);
    }
    hide Appends;
    SameAppends(s, Offered(s, peer, item), Relayed(s, peer, item));
  }

  lemma AppendedOne(s: State, t: State, peer: Address, item: PendingTx)
    requires peer in s.links && |s.links[peer].pending| < PENDING_TX_MAX
    requires t.links == s.links[peer := s.links[peer].(pending := s.links[peer].pending + [item])]
    requires Matches(t, item.dest, peer)
    ensures Appends(s, t)
  {
  }

  lemma SameAppends(s: State, t: State, u: State)
    requires Appends(s, t) && u.links == t.links && u.routes == t.routes
    ensures Appends(s, u)
  {
  }

  lemma SendAppends(s: State, dest: Address, source: Address, payload: Payload, now: nat, id: U32)
    ensures Appends(s, AfterSend(s, dest, source, payload, now, id))
  {
    hide Appends, Offered, AfterTryEstablish;
    var t := AfterSend(s, dest, source, payload, now, id);
    if |payload| > ROUTE_MAX_PAYLOAD || dest == s.addr {
      SameLinksAppend(s, t);
    } else if dest in s.links {
      OfferedAppends(s, dest, PendingTx(dest, source, payload));
    } else if dest in s.routes && s.routes[dest].nextHop in s.links {
      OfferedAppends(s, s.routes[dest].nextHop, PendingTx(dest, source, payload));
    } else {
      var s1 := if dest in s.routes then AfterTryEstablish(s, s.routes[dest].nextHop, now) else s;
      if dest in s.routes { TryEstablishKeepsLinks(s, s.routes[dest].nextHop, now); }
      TryEstablishKeepsLinks(s1, dest, now);
      SameLinksAppend(s, t);
    }
  }

  lemma ForwardAppends(s: State, dest: Address, source: Address, payload: Payload, now: nat)
    ensures Appends(s, AfterForward(s, dest, source, payload, now))
  {
    hide Appends, Offered, Relayed, AfterTryEstablish;
    var t := AfterForward(s, dest, source, payload, now);
    if dest in s.links {
      OfferedAppends(s, dest, PendingTx(dest, source, payload));
    } else if dest !in s.routes {
      TryEstablishKeepsLinks(s, dest, now);
      SameLinksAppend(s, t);
    } else {
      var next := s.routes[dest].nextHop;
      TryEstablishKeepsLinks(s, next, now);
      if next != source && next in s.links {
        OfferedAppends(s, next, PendingTx(dest, source, payload));
      } else {
        SameLinksAppend(s, t);
      }
    }
  }

  /** Every event but a transmission leaves the queues alone or appends to them. */
  lemma EventAppends(net: Net, ev: Event)
    requires WellFormed(net) && Enabled(net, ev) && !ev.Transmit?
    ensures Appends(net.nodes[ev.node], Acted(net, ev))
  {
    hide AfterSend, AfterForward, AfterAnnounce, AfterRreq, AfterRrep, AfterLinkFrame, Appends;
    var s := net.nodes[ev.node];
    match ev
    case HearFrame(_, f, now, order) =>
      if f.LinkFrame? {
        LinkFrameAppends(s, f, order);
      } else if f.Rrep? {
        RrepAppends(s, f, now, order);
      } else {
        RreqRest(s, f);
        SameLinksAppend(s, Acted(net, ev));
      }
    case HearAnnounce(_, peer, now) =>
      AnnounceKeepsLinks(s, peer, now);
      SameLinksAppend(s, Acted(net, ev));
    case HearSealed(_, i, now) =>
      var f := net.sealed[i].frame;
      if Opens(s, f) && f.dest != s.addr {
        ForwardAppends(s, f.dest, f.source, f.payload, now);
      } else {
        SameLinksAppend(s, Acted(net, ev));
      }
    case Submit(n, dest, payload, now, id) => SendAppends(s, dest, n, payload, now, id);
  }

  lemma AnnounceKeepsLinks(s: State, peer: Address, now: nat)
    ensures AfterAnnounce(s, peer, now).links == s.links
  {
  }

  // ----- first in, first out -----

  /** The items n has sealed for p, in order. */
  function SealedItems(sealed: seq<SealedEntry>, n: Address, p: Address): seq<PendingTx> {
    if sealed == [] then []
    else
      var e := sealed[|sealed| - 1];
      SealedItems(sealed[..|sealed| - 1], n, p)
        + (if e.sender == n && e.peer == p then [PendingTx(e.frame.dest, e.frame.source, e.frame.payload)] else [])
  }

  function Pending(net: Net, n: Address, p: Address): seq<PendingTx> {
    if n in net.nodes && p in net.nodes[n].links then net.nodes[n].links[p].pending else []
  }

  /** Everything a link queue ever accepted: what has been sealed, then what waits. */
  function Traffic(net: Net, n: Address, p: Address): seq<PendingTx> {
    SealedItems(net.sealed, n, p) + Pending(net, n, p)
  }

  lemma QuietTraffic(net: Net, ev: Event, n: Address, p: Address)
    requires WellFormed(net) && Enabled(net, ev) && !ev.Transmit?
    ensures Next(net, ev).sealed == net.sealed && Pending(net, n, p) <= Pending(Next(net, ev), n, p)
    ensures |Pending(net, n, p)| <= PENDING_TX_MAX ==> |Pending(Next(net, ev), n, p)| <= PENDING_TX_MAX
  {
    hide Acted, GrowthRouted, NewQueuesFit, SealedItems;
    EventAppends(net, ev);
    QuietQueues(net, ev, n, p);
  }

  lemma QuietQueues(net: Net, ev: Event, n: Address, p: Address)
    requires Enabled(net, ev) && !ev.Transmit? && Appends(net.nodes[ev.node], Acted(net, ev))
    ensures Pending(net, n, p) <= Pending(Next(net, ev), n, p)
    ensures |Pending(net, n, p)| <= PENDING_TX_MAX ==> |Pending(Next(net, ev), n, p)| <= PENDING_TX_MAX
  {
    hide Acted, GrowthRouted;
    NextCommits(net, ev);
    hide Next;
  }

  lemma TransmitTraffic(net: Net, ev: Event, n: Address, p: Address)
    requires WellFormed(net) && Enabled(net, ev) && ev.Transmit?
    ensures Traffic(Next(net, ev), n, p) == Traffic(net, n, p)
    ensures |Pending(Next(net, ev), n, p)| <= |Pending(net, n, p)|
  {
    var s := net.nodes[ev.node];
    var info := s.links[ev.peer];
    if SealHead(s.addr, ev.peer, info).Some? {
      var entry := NewlySealed(net, ev)[0];
      assert Next(net, ev).sealed == net.sealed + [entry];
      SealedSnoc(net.sealed, entry, n, p);
      if ev.node == n && ev.peer == p {
        var items := SealedItems(net.sealed, n, p);
        assert items + [info.pending[0]] + info.pending[1..] == items + info.pending;
      }
    } else {
      assert Next(net, ev).sealed == net.sealed;
    }
  }

  lemma SealedSnoc(sealed: seq<SealedEntry>, e: SealedEntry, n: Address, p: Address)
    ensures SealedItems(sealed + [e], n, p)
            == SealedItems(sealed, n, p) + (if e.sender == n && e.peer == p then [PendingTx(e.frame.dest, e.frame.source, e.frame.payload)] else [])
  {
    assert (sealed + [e])[..|sealed|] == sealed;
  }

  /** A step never reorders, drops or repeats what a link accepted: its traffic only grows at the end. */
  lemma StepKeepsOrder(net: Net, net': Net, n: Address, p: Address)
    requires WellFormed(net) && Step(net, net')
    ensures Traffic(net, n, p) <= Traffic(net', n, p)
    ensures |Pending(net, n, p)| <= PENDING_TX_MAX ==> |Pending(net', n, p)| <= PENDING_TX_MAX
  {
    hide Next, Pending;
    var ev :| Enabled(net, ev) && net' == Next(net, ev);
    if ev.Transmit? { TransmitTraffic(net, ev, n, p); } else { QuietTraffic(net, ev, n, p); }
  }

  /** In any run the traffic of a link is a log that only grows, and at most 32 items of it wait. */
  lemma {:induction false} LinksAreFifo(trace: seq<Net>, i: nat, j: nat, n: Address, p: Address)
    requires IsTrace(trace) && i <= j < |trace|
    ensures Traffic(trace[i], n, p) <= Traffic(trace[j], n, p)
    ensures |Pending(trace[j], n, p)| <= PENDING_TX_MAX
    decreases j
  {
    hide Traffic, Next, Enabled, Pending;
    if j == 0 {
      NothingPendingYet(trace[0], n, p);
    } else {
      LinksAreFifo(trace, if i < j then i else j - 1, j - 1, n, p);
      FormThroughout(trace, j - 1);
      assert Step(trace[j - 1], trace[j - 1 + 1]);
      StepKeepsOrder(trace[j - 1], trace[j], n, p);
    }
  }

  lemma NothingPendingYet(net: Net, n: Address, p: Address)
    requires Init(net)
    ensures Pending(net, n, p) == []
  {
  }

  // ----- the gap between the two payload limits -----

  /** The head of the queue is too long to frame. */
  predicate Stuck(net: Net, n: Address, p: Address) {
    Pending(net, n, p) != [] && |Pending(net, n, p)[0].payload| > RELAY_MAX_PAYLOAD
  }

  /** Transmitting takes the head off the queue if and only if it fits a data frame. */
  lemma TransmitsIffFits(net: Net, ev: Event)
    requires WellFormed(net) && Enabled(net, ev) && ev.Transmit?
    ensures Pending(Next(net, ev), ev.node, ev.peer) == Pending(net, ev.node, ev.peer)[1..] <==> !Stuck(net, ev.node, ev.peer)
    ensures Stuck(net, ev.node, ev.peer) ==>
              Pending(Next(net, ev), ev.node, ev.peer) == Pending(net, ev.node, ev.peer) && Next(net, ev).sealed == net.sealed
  {
    var pending := net.nodes[ev.node].links[ev.peer].pending;
    assert |pending[1..]| == |pending| - 1;
  }

  /** Of the payloads the application may send, exactly those of the full 192 bytes cannot be framed, and they are queued all the same. */
  lemma QueuedButNeverFramed(s: State, dest: Address, payload: Payload, now: nat, id: U32, info: LinkInfo)
    requires dest in s.links && dest != s.addr && |s.links[dest].pending| < PENDING_TX_MAX
    requires |payload| <= ROUTE_MAX_PAYLOAD && info.pending != [] && info.pending[0].payload == payload
    ensures AfterSend(s, dest, s.addr, payload, now, id).links[dest].pending
            == s.links[dest].pending + [PendingTx(dest, s.addr, payload)]
    ensures SealHead(s.addr, dest, info).None? <==> |payload| == ROUTE_MAX_PAYLOAD
  {
  }

  lemma OthersKeepStuck(net: Net, ev: Event, n: Address, p: Address)
    requires WellFormed(net) && Enabled(net, ev) && Stuck(net, n, p)
    ensures Stuck(Next(net, ev), n, p) && Pending(net, n, p) <= Pending(Next(net, ev), n, p)
    ensures SealedItems(Next(net, ev).sealed, n, p) == SealedItems(net.sealed, n, p)
  {
    if !ev.Transmit? {
      hide Next, SealedItems;
      QuietTraffic(net, ev, n, p);
    } else if ev.node == n && ev.peer == p {
      TransmitsIffFits(net, ev);
    } else {
      TransmitTraffic(net, ev, n, p);
      PendingElsewhere(net, ev, n, p);
    }
  }

  lemma PendingElsewhere(net: Net, ev: Event, n: Address, p: Address)
    requires Enabled(net, ev) && ev.Transmit? && (ev.node != n || ev.peer != p)
    ensures Pending(Next(net, ev), n, p) == Pending(net, n, p)
    ensures SealedItems(Next(net, ev).sealed, n, p) == SealedItems(net.sealed, n, p)
  {
    if SealedHead(net.nodes[ev.node], ev.peer).Some? {
      SealedSnoc(net.sealed, NewlySealed(net, ev)[0], n, p);
    } else {
      assert Next(net, ev).sealed == net.sealed;
    }
  }

  /** In any run, once such a payload heads a link queue the link never carries anything again. */
  lemma {:induction false} StuckForGood(trace: seq<Net>, i: nat, j: nat, n: Address, p: Address)
    requires IsTrace(trace) && i <= j < |trace| && Stuck(trace[i], n, p)
    ensures Stuck(trace[j], n, p) && SealedItems(trace[j].sealed, n, p) == SealedItems(trace[i].sealed, n, p)
    decreases j
  {
    hide Next, Acted, Stuck, SealedItems;
    if i < j {
      StuckForGood(trace, i, j - 1, n, p);
      FormThroughout(trace, j - 1);
      assert Step(trace[j - 1], trace[j - 1 + 1]);
      var ev :| Enabled(trace[j - 1], ev) && trace[j] == Next(trace[j - 1], ev);
      OthersKeepStuck(trace[j - 1], ev, n, p);
    }
  }
}
