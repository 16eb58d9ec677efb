/** Packets over whole runs: what waits on a link follows a route, and every relay of one packet improves on the last. */
module Journeys {
  import opened Types
  import opened NodeModel
  import opened NodeFacts
  import opened Network
  import opened Effects
  import opened DataEffects
  import opened RouteOrder
  import opened LoopFreedom
  import opened Trajectories
  import opened LinkQueues

  // ----- queued items and sealed frames -----

  /** At time t node n's route to d led to h. */
  ghost predicate RoutedTo(trace: seq<Net>, t: nat, n: Address, h: Address, d: Address) {
    t < |trace| && Has(trace[t], n, d) && Entry(trace[t], n, d).nextHop == h
  }

  /** At time j node h's route to d is better than the one n had at time t. */
  ghost predicate Beats(trace: seq<Net>, j: nat, h: Address, t: nat, n: Address, d: Address) {
    && j < |trace| && t < |trace| && Has(trace[j], h, d) && Has(trace[t], n, d)
    && BetterKey(Entry(trace[j], h, d), WrittenAt(trace[j], h, d), Entry(trace[t], n, d), WrittenAt(trace[t], n, d))
  }

  /** In step `at` an item took position `pos` in the traffic of n's link to h. */
  ghost predicate Taken(trace: seq<Net>, n: Address, h: Address, pos: nat, at: nat) {
    at + 1 < |trace| && |Traffic(trace[at], n, h)| <= pos < |Traffic(trace[at + 1], n, h)|
  }

  /** The item at that position. */
  ghost function ItemAt(trace: seq<Net>, n: Address, h: Address, pos: nat, at: nat): PendingTx
    requires Taken(trace, n, h, pos, at)
  {
    Traffic(trace[at + 1], n, h)[pos]
  }

  /** Each item of a link's traffic was taken in some step, and is the same ever since. */
  lemma {:induction false} TakenOnce(trace: seq<Net>, j: nat, n: Address, h: Address, pos: nat) returns (at: nat)
    requires IsTrace(trace) && j < |trace| && pos < |Traffic(trace[j], n, h)|
    ensures at < j && Taken(trace, n, h, pos, at) && ItemAt(trace, n, h, pos, at) == Traffic(trace[j], n, h)[pos]
    decreases j
  {
    hide Traffic, Step;
    if j == 0 {
      NoTrafficYet(trace[0], n, h);
      assert false;
    } else if pos < |Traffic(trace[j - 1], n, h)| {
      at := TakenOnce(trace, j - 1, n, h, pos);
      LinksAreFifo(trace, j - 1, j, n, h);
    } else {
      at := j - 1;
    }
  }

  lemma NoTrafficYet(net: Net, n: Address, h: Address)
    requires Init(net)
    ensures Traffic(net, n, h) == []
  {
  }

  /** Where a call appended an item, the acting node's table after the call sends it that way. */
  lemma AppendedIsRouted(net: Net, ev: Event, n: Address, h: Address, k: nat)
    requires WellFormed(net) && Enabled(net, ev) && !ev.Transmit?
    requires |Pending(net, n, h)| <= k < |Pending(Next(net, ev), n, h)|
    ensures var d := Pending(Next(net, ev), n, h)[k].dest;
            h == d || (Has(Next(net, ev), n, d) && Entry(Next(net, ev), n, d).nextHop == h)
  {
    EventAppends(net, ev);
    NextCommits(net, ev);
    hide Acted, Next;
    assert n == ev.node && Depth(net.nodes[n], h) == |Pending(net, n, h)|;
  }

  /** Only a call other than a transmission lengthens the traffic of a link, by what it appends to the queue. */
  lemma GrowthWaits(net: Net, ev: Event, n: Address, h: Address, pos: nat) returns (k: nat)
    requires WellFormed(net) && Enabled(net, ev) && |Traffic(net, n, h)| <= pos < |Traffic(Next(net, ev), n, h)|
    ensures !ev.Transmit? && |Pending(net, n, h)| <= k < |Pending(Next(net, ev), n, h)|
    ensures Traffic(Next(net, ev), n, h)[pos] == Pending(Next(net, ev), n, h)[k]
  {
    hide Next, Enabled, SealedItems, Pending;
    k := pos - |SealedItems(net.sealed, n, h)|;
    if ev.Transmit? { TransmitTraffic(net, ev, n, h); } else { QuietTraffic(net, ev, n, h); }
  }

  /** An item is taken only onto the link to its destination, or to the next hop its node has for it right then. */
  lemma TakenAlongRoute(trace: seq<Net>, n: Address, h: Address, pos: nat, at: nat)
    requires IsTrace(trace) && Taken(trace, n, h, pos, at)
    ensures var d := ItemAt(trace, n, h, pos, at).dest; h == d || RoutedTo(trace, at + 1, n, h, d)
  {
    FormThroughout(trace, at);
    var ev := SomethingHappens(trace, at);
    hide IsTrace, Next, Enabled, Traffic, Pending;
    var k := GrowthWaits(trace[at], ev, n, h, pos);
    AppendedIsRouted(trace[at], ev, n, h, k);
  }

  /**
   The item at a position of the traffic from n to h, as of time j: it was taken in step `at`, for h itself or by the
   route n had right then, and by time j h has a better route than that.
   */
  ghost predicate SentByRoute(trace: seq<Net>, j: nat, n: Address, h: Address, pos: nat, at: nat, it: PendingTx) {
    && at < j && Taken(trace, n, h, pos, at) && ItemAt(trace, n, h, pos, at) == it
    && (h == it.dest || (RoutedTo(trace, at + 1, n, h, it.dest) && Beats(trace, j, h, at + 1, n, it.dest)))
  }

  lemma TrafficFollowsRoute(trace: seq<Net>, j: nat, n: Address, h: Address, pos: nat) returns (at: nat)
    requires IsTrace(trace) && j < |trace| && ConsistentIds(trace[|trace| - 1]) && pos < |Traffic(trace[j], n, h)|
    ensures SentByRoute(trace, j, n, h, pos, at, Traffic(trace[j], n, h)[pos])
  {
    hide IsTrace, ConsistentIds, Traffic, Taken;
    at := TakenOnce(trace, j, n, h, pos);
    TakenAlongRoute(trace, n, h, pos, at);
    var d := Traffic(trace[j], n, h)[pos].dest;
    if h != d {
      NextHopBeatsRouteUsed(trace, at + 1, j, n, d);
      assert Beats(trace, j, h, at + 1, n, d);
    }
  }

  /**
   In every run with consistent ids: whatever waits at n on its link to h was queued there in the step in which it took
   its place; it is for h, or h was n's next hop for it right then, and h's route is by now better than n's was then.
   */
  lemma WaitingFollowsRoute(trace: seq<Net>, j: nat, n: Address, h: Address, k: nat) returns (at: nat)
    requires IsTrace(trace) && j < |trace| && ConsistentIds(trace[|trace| - 1]) && k < |Pending(trace[j], n, h)|
    ensures SentByRoute(trace, j, n, h, |SealedItems(trace[j].sealed, n, h)| + k, at, Pending(trace[j], n, h)[k])
  {
    hide IsTrace, ConsistentIds, SentByRoute, SealedItems, Pending;
    at := TrafficFollowsRoute(trace, j, n, h, |SealedItems(trace[j].sealed, n, h)| + k);
  }

  /** The same for every sealed frame on the air. */
  lemma SealedFollowsRoute(trace: seq<Net>, j: nat, i: nat) returns (at: nat)
    requires IsTrace(trace) && j < |trace| && ConsistentIds(trace[|trace| - 1]) && i < |trace[j].sealed|
    ensures var e := trace[j].sealed[i];
            SentByRoute(trace, j, e.sender, e.peer, |SealedItems(trace[j].sealed[..i], e.sender, e.peer)|, at,
                        PendingTx(e.frame.dest, e.frame.source, e.frame.payload))
  {
    hide IsTrace, ConsistentIds, SentByRoute, SealedItems, Pending;
    var e := trace[j].sealed[i];
    SealedAtPosition(trace[j].sealed, i, e.sender, e.peer);
    at := TrafficFollowsRoute(trace, j, e.sender, e.peer, |SealedItems(trace[j].sealed[..i], e.sender, e.peer)|);
  }

  // ----- one packet, relayed -----

  /**
   A stay of a packet at a node: in step `at` it took position `pos` in the traffic of the link to `to`, and if it left
   again, it did so as the sealed frame number `entry`.
   */
  datatype Leg = Leg(node: Address, to: Address, at: nat, pos: nat, entry: nat)

  ghost predicate IsLeg(trace: seq<Net>, a: Leg) { Taken(trace, a.node, a.to, a.pos, a.at) }

  ghost function Item(trace: seq<Net>, a: Leg): PendingTx
    requires IsLeg(trace, a)
  {
    ItemAt(trace, a.node, a.to, a.pos, a.at)
  }

  /** The frame that took the packet off the link: the one at the packet's position among those sealed for the link. */
  ghost predicate LeavesAs(trace: seq<Net>, a: Leg)
    requires |trace| > 0
  {
    var sealed := trace[|trace| - 1].sealed;
    && a.entry < |sealed| && sealed[a.entry].sender == a.node && sealed[a.entry].peer == a.to
    && |SealedItems(sealed[..a.entry], a.node, a.to)| == a.pos
  }

  /** The next hop heard that frame and queued what was in it for the hop after. */
  ghost predicate Handover(trace: seq<Net>, a: Leg, b: Leg) {
    && |trace| > 0 && LeavesAs(trace, a) && a.at < b.at && b.node == a.to
    && exists ev :: Happens(trace, b.at, ev) && ev.HearSealed? && ev.node == b.node && ev.index == a.entry && Forwards(trace[b.at], ev)
  }

  ghost predicate IsJourney(trace: seq<Net>, legs: seq<Leg>) {
    && (forall k :: 0 <= k < |legs| ==> IsLeg(trace, legs[k]))
    && forall k :: 0 <= k < |legs| - 1 ==> Handover(trace, legs[k], legs[k + 1])
  }

  lemma {:induction false} SealedOnlyGrows(trace: seq<Net>, i: nat, j: nat)
    requires IsTrace(trace) && i <= j < |trace|
    ensures trace[i].sealed <= trace[j].sealed
    decreases j
  {
    hide Acted;
    if i < j {
      SealedOnlyGrows(trace, i, j - 1);
      var ev := SomethingHappens(trace, j - 1);
    }
  }

  lemma {:induction false} SealedAtPosition(sealed: seq<SealedEntry>, e: nat, n: Address, p: Address)
    requires e < |sealed| && sealed[e].sender == n && sealed[e].peer == p
    ensures var pos := |SealedItems(sealed[..e], n, p)|;
            && pos < |SealedItems(sealed, n, p)|
            && SealedItems(sealed, n, p)[pos] == PendingTx(sealed[e].frame.dest, sealed[e].frame.source, sealed[e].frame.payload)
    decreases |sealed|
  {
    var front := sealed[..|sealed| - 1];
    if e < |front| {
      assert front[..e] == sealed[..e];
      SealedAtPosition(front, e, n, p);
    } else {
      assert front == sealed[..e];
    }
  }

  /** The frame a packet leaves a link in carries that packet. */
  lemma FrameCarriesItem(trace: seq<Net>, a: Leg)
    requires IsTrace(trace) && IsLeg(trace, a) && LeavesAs(trace, a)
    ensures var f := trace[|trace| - 1].sealed[a.entry].frame; Item(trace, a) == PendingTx(f.dest, f.source, f.payload)
  {
    var last := trace[|trace| - 1];
    SealedAtPosition(last.sealed, a.entry, a.node, a.to);
    hide IsTrace;
    LinksAreFifo(trace, a.at + 1, |trace| - 1, a.node, a.to);
    assert Traffic(last, a.node, a.to)[a.pos] == SealedItems(last.sealed, a.node, a.to)[a.pos];
  }

  /** Forwarding adds to one link at most, the direct one or the next hop's, and adds the packet. */
  lemma ForwardedWhere(s: State, dest: Address, source: Address, payload: Payload, now: nat)
    ensures var t := AfterForward(s, dest, source, payload, now);
            t.links == s.links
            || exists p :: p in s.links && (p == dest || (dest in s.routes && s.routes[dest].nextHop == p))
                           && t.links == s.links[p := s.links[p].(pending := s.links[p].pending + [PendingTx(dest, source, payload)])]
  {
    hide AfterTryEstablish;
    if dest !in s.links {
      if dest !in s.routes { TryEstablishKeepsLinks(s, dest, now); } else { TryEstablishKeepsLinks(s, s.routes[dest].nextHop, now); }
    }
  }

  /** What a relay queued is what it heard, and it queued it along its route of that moment. */
  lemma RelayKeepsPacket(trace: seq<Net>, a: Leg, b: Leg)
    requires IsTrace(trace) && IsLeg(trace, a) && IsLeg(trace, b) && Handover(trace, a, b)
    ensures Item(trace, b) == Item(trace, a) && a.to != Item(trace, a).dest
    ensures b.to == Item(trace, b).dest || RoutedTo(trace, b.at + 1, b.node, b.to, Item(trace, b).dest)
  {
    hide *;
    ItemIs(trace, b);
    FormThroughout(trace, b.at);
    var ev := HandoverEvent(trace, a, b);
    FrameCarriesItem(trace, a);
    SealedOnlyGrows(trace, b.at, |trace| - 1);
    RelayQueues(trace[b.at], ev, b.to, b.pos);
    LegAlongRoute(trace, b);
  }

  lemma LegAlongRoute(trace: seq<Net>, a: Leg)
    requires IsTrace(trace) && IsLeg(trace, a)
    ensures a.to == Item(trace, a).dest || RoutedTo(trace, a.at + 1, a.node, a.to, Item(trace, a).dest)
  {
    TakenAlongRoute(trace, a.node, a.to, a.pos, a.at);
  }

  lemma HandoverEvent(trace: seq<Net>, a: Leg, b: Leg) returns (ev: Event)
    requires Handover(trace, a, b) && b.at < |trace| && WellFormed(trace[b.at]) && IsLeg(trace, b)
    ensures |trace| > 0 && LeavesAs(trace, a) && a.entry < |trace[b.at].sealed| && b.at + 1 < |trace|
    ensures Enabled(trace[b.at], ev) && trace[b.at + 1] == Next(trace[b.at], ev) && Forwards(trace[b.at], ev)
    ensures ev.HearSealed? && ev.node == b.node == a.to && ev.index == a.entry && a.to != trace[b.at].sealed[a.entry].frame.dest
    ensures |Traffic(trace[b.at], b.node, b.to)| <= b.pos < |Traffic(trace[b.at + 1], b.node, b.to)|
  {
    hide Acted, Next, Traffic;
    ev :| Happens(trace, b.at, ev) && ev.HearSealed? && ev.node == b.node && ev.index == a.entry && Forwards(trace[b.at], ev);
    assert trace[b.at].nodes[b.node].addr == b.node;
  }

  lemma ItemIs(trace: seq<Net>, a: Leg)
    requires IsLeg(trace, a)
    ensures a.at + 1 < |trace| && a.pos < |Traffic(trace[a.at + 1], a.node, a.to)|
    ensures Item(trace, a) == Traffic(trace[a.at + 1], a.node, a.to)[a.pos]
  {
    hide Traffic;
  }

  lemma RelayQueues(net: Net, ev: Event, to: Address, pos: nat)
    requires WellFormed(net) && Enabled(net, ev) && ev.HearSealed? && Forwards(net, ev)
    requires |Traffic(net, ev.node, to)| <= pos < |Traffic(Next(net, ev), ev.node, to)|
    ensures var f := net.sealed[ev.index].frame; Traffic(Next(net, ev), ev.node, to)[pos] == PendingTx(f.dest, f.source, f.payload)
  {
    hide *;
    var k := GrowthWaits(net, ev, ev.node, to, pos);
    var it := RelayedItem(net, ev, to, k);
  }

  lemma RelayedItem(net: Net, ev: Event, to: Address, k: nat) returns (it: PendingTx)
    requires Enabled(net, ev) && ev.HearSealed? && Forwards(net, ev) && |Pending(net, ev.node, to)| <= k < |Pending(Next(net, ev), ev.node, to)|
    ensures var f := net.sealed[ev.index].frame; Pending(Next(net, ev), ev.node, to)[k] == PendingTx(f.dest, f.source, f.payload)
  {
    var s, f := net.nodes[ev.node], net.sealed[ev.index].frame;
    NextCommits(net, ev);
    assert Acted(net, ev) == AfterForward(s, f.dest, f.source, f.payload, ev.now);
    hide Acted, Next, AfterForward, Opens;
    ForwardedWhere(s, f.dest, f.source, f.payload, ev.now);
    it := PendingTx(f.dest, f.source, f.payload);
  }

  /** The packet is the same on every leg. */
  lemma {:induction false} OnePacket(trace: seq<Net>, legs: seq<Leg>, k: nat)
    requires IsTrace(trace) && IsJourney(trace, legs) && k < |legs|
    ensures IsLeg(trace, legs[0]) && IsLeg(trace, legs[k]) && Item(trace, legs[k]) == Item(trace, legs[0])
  {
    hide IsTrace, IsLeg, Handover, Item;
    if k > 0 {
      OnePacket(trace, legs, k - 1);
      assert Handover(trace, legs[k - 1], legs[k - 1 + 1]);
      RelayKeepsPacket(trace, legs[k - 1], legs[k]);
    }
  }

  ghost function Destination(trace: seq<Net>, legs: seq<Leg>): Address
    requires legs != [] && IsLeg(trace, legs[0])
  {
    Item(trace, legs[0]).dest
  }

  /** Where the packet was, right after each step that queued it. */
  function HopsOf(legs: seq<Leg>): (hops: seq<Hop>)
    ensures |hops| == |legs| && forall k :: 0 <= k < |legs| ==> hops[k] == Hop(legs[k].node, legs[k].at + 1)
  {
    seq(|legs|, k requires 0 <= k < |legs| => Hop(legs[k].node, legs[k].at + 1))
  }

  lemma HandoverMeans(trace: seq<Net>, a: Leg, b: Leg)
    requires Handover(trace, a, b)
    ensures a.at < b.at && b.node == a.to
  {
    hide LeavesAs;
  }

  /** Every leg but the last left by the route its node had when it queued the packet. */
  lemma LegLeavesByRoute(trace: seq<Net>, legs: seq<Leg>, k: nat)
    requires IsTrace(trace) && IsJourney(trace, legs) && k + 1 < |legs|
    ensures IsLeg(trace, legs[0]) && legs[k].at < legs[k + 1].at && legs[k + 1].at + 1 < |trace|
    ensures RoutedTo(trace, legs[k].at + 1, legs[k].node, legs[k + 1].node, Destination(trace, legs))
  {
    hide IsTrace, Handover, RoutedTo, Traffic;
    OnePacket(trace, legs, k);
    assert Handover(trace, legs[k], legs[k + 1]) && IsLeg(trace, legs[k + 1]);
    HandoverMeans(trace, legs[k], legs[k + 1]);
    RelayKeepsPacket(trace, legs[k], legs[k + 1]);
    LegAlongRoute(trace, legs[k]);
  }

  /** The last leg's node has a route as well: a better one than the leg before used. */
  lemma LastLegHasRoute(trace: seq<Net>, legs: seq<Leg>)
    requires IsTrace(trace) && ConsistentIds(trace[|trace| - 1]) && IsJourney(trace, legs) && |legs| > 1
    ensures IsLeg(trace, legs[0]) && legs[|legs| - 1].at + 1 < |trace|
    ensures Has(trace[legs[|legs| - 1].at + 1], legs[|legs| - 1].node, Destination(trace, legs))
  {
    hide IsTrace, ConsistentIds, Handover, Traffic;
    var n := |legs|;
    var a, b := legs[n - 2], legs[n - 2 + 1];
    LegLeavesByRoute(trace, legs, n - 2);
    OnePacket(trace, legs, n - 2);
    assert Handover(trace, a, b);
    RelayKeepsPacket(trace, a, b);
    HandoverMeans(trace, a, b);
    NextHopBeatsRouteUsed(trace, a.at + 1, b.at + 1, a.node, Destination(trace, legs));
  }

  /** A relayed packet follows a trajectory: from each node but the last it goes where that node's route for it led. */
  lemma JourneyIsTrajectory(trace: seq<Net>, legs: seq<Leg>)
    requires IsTrace(trace) && ConsistentIds(trace[|trace| - 1]) && IsJourney(trace, legs) && |legs| > 1
    ensures IsLeg(trace, legs[0]) && IsTrajectory(trace, Destination(trace, legs), HopsOf(legs))
  {
    hide IsTrace, ConsistentIds, IsJourney, IsLeg, Destination;
    LastLegHasRoute(trace, legs);
    forall k | 0 <= k < |legs| - 1
      ensures legs[k].at < legs[k + 1].at && legs[k].at + 1 < |trace|
              && RoutedTo(trace, legs[k].at + 1, legs[k].node, legs[k + 1].node, Destination(trace, legs))
    {
      LegLeavesByRoute(trace, legs, k);
    }
    var hops := HopsOf(legs);
    forall k | 0 <= k < |hops| ensures hops[k].time < |trace| && Has(trace[hops[k].time], hops[k].node, Destination(trace, legs)) {
      if k < |legs| - 1 { assert RoutedTo(trace, legs[k].at + 1, legs[k].node, legs[k + 1].node, Destination(trace, legs)); }
    }
    forall k | 0 <= k < |hops| - 1
      ensures hops[k].time <= hops[k + 1].time && Entry(trace[hops[k].time], hops[k].node, Destination(trace, legs)).nextHop == hops[k + 1].node
    {
      assert RoutedTo(trace, legs[k].at + 1, legs[k].node, legs[k + 1].node, Destination(trace, legs));
    }
  }

  /**
   Main result: under concurrent route updates, of any two legs of one packet's journey the later one starts at a node
   whose route to the destination is better than the one that sent the packet from the earlier leg's node to the next.
   */
  lemma EveryRelayImproves(trace: seq<Net>, legs: seq<Leg>, i: nat, j: nat)
    requires IsTrace(trace) && ConsistentIds(trace[|trace| - 1]) && IsJourney(trace, legs) && i < j < |legs|
    ensures IsLeg(trace, legs[0])
    ensures RoutedTo(trace, legs[i].at + 1, legs[i].node, legs[i + 1].node, Destination(trace, legs))
    ensures Beats(trace, legs[j].at + 1, legs[j].node, legs[i].at + 1, legs[i].node, Destination(trace, legs))
  {
    hide IsTrace, ConsistentIds, IsLeg, IsJourney, Destination;
    LegLeavesByRoute(trace, legs, i);
    JourneyIsTrajectory(trace, legs);
    TrajectoryImproves(trace, Destination(trace, legs), HopsOf(legs), i, j);
  }

  /** Between times t and u node n's route to d strictly improved. */
  ghost predicate Improved(trace: seq<Net>, t: nat, u: nat, n: Address, d: Address) {
    && t < u < |trace| && Has(trace[t], n, d) && Has(trace[u], n, d)
    && Improves(Entry(trace[u], n, d).cost, Entry(trace[u], n, d).seqNo, Entry(trace[t], n, d))
  }

  /** A packet comes back to a node only after the node's own route has improved on the one that sent it off. */
  lemma ReturnNeedsBetterRoute(trace: seq<Net>, legs: seq<Leg>, i: nat, j: nat)
    requires IsTrace(trace) && ConsistentIds(trace[|trace| - 1]) && IsJourney(trace, legs) && i < j < |legs| && legs[i].node == legs[j].node
    ensures IsLeg(trace, legs[0])
    ensures RoutedTo(trace, legs[i].at + 1, legs[i].node, legs[i + 1].node, Destination(trace, legs))
    ensures Improved(trace, legs[i].at + 1, legs[j].at + 1, legs[i].node, Destination(trace, legs))
  {
    hide IsTrace, ConsistentIds, IsLeg, IsJourney, Destination;
    LegLeavesByRoute(trace, legs, i);
    JourneyIsTrajectory(trace, legs);
    LegsInOrder(trace, legs, i, j);
    RevisitNeedsBetterRoute(trace, Destination(trace, legs), HopsOf(legs), i, j);
  }

  lemma {:induction false} LegsInOrder(trace: seq<Net>, legs: seq<Leg>, i: nat, j: nat)
    requires IsJourney(trace, legs) && i < j < |legs|
    ensures legs[i].at < legs[j].at
    decreases j
  {
    hide IsLeg, Handover;
    assert Handover(trace, legs[j - 1], legs[j - 1 + 1]);
    HandoverMeans(trace, legs[j - 1], legs[j]);
    if i < j - 1 { LegsInOrder(trace, legs, i, j - 1); }
  }
}
