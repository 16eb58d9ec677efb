/** What any event can do to links, queues and counters. */
module DataEffects {
  import opened Types
  import opened NodeModel
  import opened NodeFacts
  import opened Network

  /** The item an event hands to the forwarding code. */
  ghost function Given(net: Net, ev: Event): set<PendingTx>
    requires Enabled(net, ev)
  {
    match ev
    case HearSealed(_, i, _) => var f := net.sealed[i].frame; {PendingTx(f.dest, f.source, f.payload)}
    case Submit(n, dest, payload, _, _) => {PendingTx(dest, n, payload)}
    case _ => {}
  }

  lemma SealItems(s: State, peer: Address)
    requires peer in s.links && s.links[peer].pending != []
    ensures ItemsAccounted(s, AfterSeal(s, peer), {})
  {
  }

  lemma ItemsOfFrame(s: State, f: Frame, now: nat, order: seq<Address>, t: State)
    requires t == (match f
                   case Rreq(_, _, _, _, _, _, _) => AfterRreq(s, f)
                   case Rrep(_, _, _, _, _, _) => AfterRrep(s, f, now, order)
                   case LinkFrame(_, _, _, _) => AfterLinkFrame(s, f, order))
    ensures ItemsAccounted(s, t, {})
  {
    hide AfterLinkFrame, AfterRrep, ItemsAccounted;
    match f
    case Rreq(_, _, _, _, _, _, _) => NoNewItems(s, t, {});
    case Rrep(_, _, _, _, _, _) => RrepItems(s, f, now, order);
    case LinkFrame(_, _, _, _) => LinkFrameItems(s, f, order);
  }

  lemma ItemsOfSealed(s: State, f: Sealed, now: nat)
    ensures ItemsAccounted(s, AfterSealed(s, f, now), {PendingTx(f.dest, f.source, f.payload)})
  {
    hide AfterForward, ItemsAccounted;
    if Opens(s, f) && f.dest != s.addr {
      ForwardItems(s, f.dest, f.source, f.payload, now);
    } else {
      NoNewItems(s, AfterSealed(s, f, now), {PendingTx(f.dest, f.source, f.payload)});
    }
  }

  lemma ItemsOfEvent(net: Net, ev: Event)
    requires WellFormed(net) && Enabled(net, ev)
    ensures ItemsAccounted(net.nodes[ev.node], Acted(net, ev), Given(net, ev))
  {
    hide AfterSend, AfterSealed, AfterAnnounce, AfterRreq, AfterRrep, AfterLinkFrame, AfterSeal, ItemsAccounted;
    var s := net.nodes[ev.node];
    match ev
    case HearFrame(_, f, now, order) => ItemsOfFrame(s, f, now, order, Acted(net, ev));
    case HearAnnounce(_, peer, now) => AnnounceFacts(s, peer, now); NoNewItems(s, AfterAnnounce(s, peer, now), {});
    case HearSealed(_, i, now) => ItemsOfSealed(s, net.sealed[i].frame, now);
    case Submit(n, dest, payload, now, id) => SendFacts(s, dest, payload, now, id);
    case Transmit(_, peer) => SealItems(s, peer);
  }

  ghost predicate Installs(net: Net, ev: Event)
    requires Enabled(net, ev)
  {
    ev.HearFrame? && ev.frame.LinkFrame? && ev.frame.to == net.nodes[ev.node].addr && ev.frame.from != net.nodes[ev.node].addr
  }

  ghost predicate Seals(net: Net, ev: Event)
    requires Enabled(net, ev)
  {
    ev.Transmit? && SealedHead(net.nodes[ev.node], ev.peer).Some?
  }

  lemma RreqRest(s: State, m: Frame)
    requires m.Rreq?
    ensures var t := AfterRreq(s, m);
            t.addr == s.addr && t.links == s.links && t.counters == s.counters && t.deliveries == s.deliveries && t.pendingRoutes == s.pendingRoutes
  {
    hide Upsert, HopCost, SatAdd, Truncate, Improves, Verified;
    VerifiedFacts(s, m.from);
  }

  /** Keys and counters: one link is installed, one counter is consumed, or nothing changes. */
  lemma LinksOfEvent(net: Net, ev: Event)
    requires WellFormed(net) && Enabled(net, ev)
    ensures var s, t := net.nodes[ev.node], Acted(net, ev);
            if Installs(net, ev) then LinkInstalled(s, t, ev.frame.from, ev.frame.xchg)
            else if Seals(net, ev) then t == AfterSeal(s, ev.peer)
            else SameLinks(s, t)
  {
    hide AfterLinkFrame, AfterSend, AfterForward, AfterAnnounce, AfterRreq, AfterRrep, LinkInstalled;
    var s := net.nodes[ev.node];
    match ev
    case HearFrame(_, f, now, order) =>
      if f.LinkFrame? { LinkFrameLinks(s, f, order); }
      else if f.Rrep? { RrepLinks(s, f, now, order); }
      else { RreqRest(s, f); }
    case HearAnnounce(_, peer, now) => AnnounceFacts(s, peer, now);
    case HearSealed(_, i, now) =>
      var f := net.sealed[i].frame;
      ForwardTables(s, f.dest, f.source, f.payload, now);
    case Submit(n, dest, payload, now, id) => SendFacts(s, dest, payload, now, id);
    case Transmit(_, peer) =>
  }

  /** The frame was opened here, and its payload has to go further. */
  ghost predicate Forwards(net: Net, ev: Event)
    requires Enabled(net, ev)
  {
    ev.HearSealed? && Opens(net.nodes[ev.node], net.sealed[ev.index].frame) && net.sealed[ev.index].frame.dest != net.nodes[ev.node].addr
  }

  /** `drop_no_route` moves only when a frame has to be forwarded and there is neither a link nor a route. */
  lemma DropsOfEvent(net: Net, ev: Event)
    requires WellFormed(net) && Enabled(net, ev)
    ensures var s, t := net.nodes[ev.node], Acted(net, ev);
            t.counters.dropNoRoute == s.counters.dropNoRoute
            || (Forwards(net, ev) && net.sealed[ev.index].frame.dest !in s.links && net.sealed[ev.index].frame.dest !in s.routes)
  {
    hide AfterLinkFrame, AfterSend, AfterForward, AfterAnnounce, AfterRreq, AfterRrep;
    var s := net.nodes[ev.node];
    match ev
    case HearFrame(_, f, now, order) =>
      if f.LinkFrame? { LinkFrameTables(s, f, order); }
      else if f.Rrep? { RrepRest(s, f, now, order); }
      else { RreqRest(s, f); }
    case HearAnnounce(_, peer, now) => AnnounceFacts(s, peer, now);
    case HearSealed(_, i, now) =>
      var f := net.sealed[i].frame;
      ForwardTables(s, f.dest, f.source, f.payload, now);
    case Submit(n, dest, payload, now, id) => SendFacts(s, dest, payload, now, id);
    case Transmit(_, peer) =>
  }

  /** Parked payloads were parked before, or are the payload just submitted. */
  ghost predicate ParkedAccounted(s: State, t: State, given: set<PendingTx>) {
    forall d, p :: d in t.pendingRoutes && p in t.pendingRoutes[d] ==>
      (d in s.pendingRoutes && p in s.pendingRoutes[d]) || PendingTx(d, s.addr, p) in given
  }

  lemma ParkedOfEvent(net: Net, ev: Event)
    requires WellFormed(net) && Enabled(net, ev)
    ensures ParkedAccounted(net.nodes[ev.node], Acted(net, ev), Given(net, ev))
  {
    hide AfterLinkFrame, AfterSend, AfterForward, AfterAnnounce, AfterRreq, AfterRrep;
    var s := net.nodes[ev.node];
    match ev
    case HearFrame(_, f, now, order) =>
      if f.LinkFrame? { LinkFrameTables(s, f, order); }
      else if f.Rrep? { RrepRest(s, f, now, order); }
      else { RreqRest(s, f); }
    case HearAnnounce(_, peer, now) => AnnounceFacts(s, peer, now);
    case HearSealed(_, i, now) =>
      var f := net.sealed[i].frame;
      ForwardTables(s, f.dest, f.source, f.payload, now);
    case Submit(n, dest, payload, now, id) => SendFacts(s, dest, payload, now, id);
    case Transmit(_, peer) =>
  }

  /** A payload is handed out exactly when a sealed frame for this node opens. */
  lemma DeliveriesOfEvent(net: Net, ev: Event)
    requires WellFormed(net) && Enabled(net, ev)
    ensures var s, t := net.nodes[ev.node], Acted(net, ev);
            t.deliveries == if ev.HearSealed? && Opens(s, net.sealed[ev.index].frame) && net.sealed[ev.index].frame.dest == s.addr
                            then [Delivery(net.sealed[ev.index].frame.source, net.sealed[ev.index].frame.payload)] else []
  {
    hide AfterLinkFrame, AfterSend, AfterForward, AfterAnnounce, AfterRreq, AfterRrep;
    var s := net.nodes[ev.node];
    match ev
    case HearFrame(_, f, now, order) =>
      if f.LinkFrame? { LinkFrameTables(s, f, order); }
      else if f.Rrep? { RrepRest(s, f, now, order); }
      else { RreqRest(s, f); }
    case HearAnnounce(_, peer, now) => AnnounceFacts(s, peer, now);
    case HearSealed(_, i, now) =>
      var f := net.sealed[i].frame;
      ForwardTables(s, f.dest, f.source, f.payload, now);
    case Submit(n, dest, payload, now, id) => SendFacts(s, dest, payload, now, id);
    case Transmit(_, peer) =>
  }
}
