/** Packets that are not dropped on the way arrive: from the moment a link takes them, and from the application's call on. */
module DataArrival {
  import opened Types
  import opened NodeModel
  import opened Network
  import opened Effects
  import opened DataEffects
  import opened Links
  import opened RouteOrder
  import opened LoopFreedom
  import opened Forwarding
  import opened LinkQueues
  import opened Journeys
  import opened RouteHandlers
  import opened RelayHandlers

  // ----- what losing nothing means -----

  /** Everything that was ever queued has been sealed and sent. */
  ghost predicate QueuesEmpty(net: Net) {
    forall n, h :: Pending(net, n, h) == []
  }

  /** A relay drops nothing: it counts no drop for a missing link or a full queue, and its route does not lead back to the packet's source. */
  ghost predicate KeepsPacket(net: Net, ev: Event)
    requires Enabled(net, ev) && ev.HearSealed?
  {
    var s, t, f := net.nodes[ev.node], Acted(net, ev), net.sealed[ev.index].frame;
    && t.counters.dropNoLink == s.counters.dropNoLink && t.counters.dropQueueFull == s.counters.dropQueueFull
    && (f.dest !in s.links && f.dest in s.routes ==> s.routes[f.dest].nextHop != f.source)
  }

  /** The peer that frame number i was sealed for hears it, has the key, and drops nothing if it is a relay. */
  ghost predicate OpensFor(net: Net, ev: Event, i: nat)
    requires Enabled(net, ev)
  {
    && ev.HearSealed? && ev.index == i && ev.node == net.sealed[i].peer && Opens(net.nodes[ev.node], net.sealed[i].frame)
    && (Forwards(net, ev) ==> KeepsPacket(net, ev))
  }

  ghost predicate OpenedIn(trace: seq<Net>, i: nat, t: nat) {
    exists ev :: Happens(trace, t, ev) && OpensFor(trace[t], ev, i)
  }

  ghost predicate IsOpened(trace: seq<Net>, i: nat) { exists t: nat :: OpenedIn(trace, i, t) }

  /** All that was queued has been sent, and each frame was taken in by its peer at least once, whatever became of other copies. */
  ghost predicate NothingLost(trace: seq<Net>) {
    && |trace| > 0 && QueuesEmpty(trace[|trace| - 1])
    && forall i :: 0 <= i < |trace[|trace| - 1].sealed| ==> IsOpened(trace, i)
  }

  // ----- one hop -----

  /** The frame that carried the item at a position. */
  lemma {:induction false} EntryAt(sealed: seq<SealedEntry>, n: Address, p: Address, pos: nat) returns (e: nat)
    requires pos < |SealedItems(sealed, n, p)|
    ensures e < |sealed| && sealed[e].sender == n && sealed[e].peer == p && |SealedItems(sealed[..e], n, p)| == pos
    decreases |sealed|
  {
    var front := sealed[..|sealed| - 1];
    if pos < |SealedItems(front, n, p)| {
      e := EntryAt(front, n, p, pos);
      assert front[..e] == sealed[..e];
    } else {
      e := |front|;
      assert sealed[..e] == front;
    }
  }

  /** With empty queues at the end, every item taken has left in a frame. */
  lemma LeftInFrame(trace: seq<Net>, n: Address, h: Address, pos: nat, at: nat) returns (a: Leg)
    requires IsTrace(trace) && QueuesEmpty(trace[|trace| - 1]) && Taken(trace, n, h, pos, at)
    ensures a.node == n && a.to == h && a.pos == pos && a.at == at && IsLeg(trace, a) && LeavesAs(trace, a)
  {
    hide IsTrace, SealedItems;
    var last := trace[|trace| - 1];
    LinksAreFifo(trace, at + 1, |trace| - 1, n, h);
    assert Pending(last, n, h) == [];
    assert Traffic(last, n, h) == SealedItems(last.sealed, n, h);
    var e := EntryAt(last.sealed, n, h, pos);
    a := Leg(n, h, at, pos, e);
  }

  /** A frame can be heard only once it was sealed, and so only after its item was taken. */
  lemma HeardAfterTaken(trace: seq<Net>, a: Leg, t: nat)
    requires IsTrace(trace) && IsLeg(trace, a) && LeavesAs(trace, a) && t < |trace| && a.entry < |trace[t].sealed|
    ensures a.at < t
  {
    hide IsTrace;
    var sealed := trace[t].sealed;
    SealedOnlyGrows(trace, t, |trace| - 1);
    assert sealed[..a.entry] == trace[|trace| - 1].sealed[..a.entry];
    SealedAtPosition(sealed, a.entry, a.node, a.to);
    hide SealedItems;
    assert a.pos < |Traffic(trace[t], a.node, a.to)|;
    if t <= a.at { LinksAreFifo(trace, t, a.at, a.node, a.to); }
  }

  /** A relay that drops nothing queues what it heard on one of its links. */
  lemma KeptIsTaken(trace: seq<Net>, t: nat, ev: Event) returns (p: Address, pos: nat)
    requires IsTrace(trace) && ConsistentIds(trace[|trace| - 1]) && Happens(trace, t, ev) && Forwards(trace[t], ev) && KeepsPacket(trace[t], ev)
    ensures Taken(trace, ev.node, p, pos, t)
    ensures var f := trace[t].sealed[ev.index].frame; ItemAt(trace, ev.node, p, pos, t) == PendingTx(f.dest, f.source, f.payload)
  {
    var net := trace[t];
    ForwardInvThroughout(trace, t);
    FormThroughout(trace, t);
    NeverWithoutRoute(net, ev);
    hide IsTrace, ConsistentIds, ForwardInv;
    p := QueuesOn(net, ev);
    pos := |Traffic(net, ev.node, p)|;
    hide Next, Acted, Opens, KeepsPacket;
    QuietTraffic(net, ev, ev.node, p);
    assert |Traffic(trace[t + 1], ev.node, p)| > pos;
    RelayQueues(net, ev, p, pos);
  }

  lemma QueuesOn(net: Net, ev: Event) returns (p: Address)
    requires WellFormed(net) && Enabled(net, ev) && ev.HearSealed? && Forwards(net, ev) && KeepsPacket(net, ev)
    requires var s, f := net.nodes[ev.node], net.sealed[ev.index].frame; f.dest in s.links || f.dest in s.routes
    ensures |Pending(Next(net, ev), ev.node, p)| > |Pending(net, ev.node, p)|
  {
    var s, f := net.nodes[ev.node], net.sealed[ev.index].frame;
    assert Acted(net, ev) == AfterForward(s, f.dest, f.source, f.payload, ev.now);
    NextCommits(net, ev);
    hide AfterForward, Next, Acted, Opens;
    if Way(s, f.dest).None? { ForwardLacksLink(s, f.dest, f.source, f.payload, ev.now); }
    p := Way(s, f.dest).value;
    ForwardTakesTheWay(s, f.dest, f.source, f.payload, ev.now);
  }

  /** What is handed out stays on record. */
  lemma {:induction false} AcceptedGrows(trace: seq<Net>, i: nat, j: nat)
    requires IsTrace(trace) && i <= j < |trace|
    ensures trace[i].accepted <= trace[j].accepted
    decreases j
  {
    hide Acted;
    if i < j {
      AcceptedGrows(trace, i, j - 1);
      var ev := SomethingHappens(trace, j - 1);
    }
  }

  lemma StepHandsOut(net: Net, ev: Event)
    requires WellFormed(net) && Enabled(net, ev) && ev.HearSealed?
    requires var f := net.sealed[ev.index].frame; Opens(net.nodes[ev.node], f) && f.dest == ev.node
    ensures var f := net.sealed[ev.index].frame; Message(f.source, f.dest, f.payload) in Next(net, ev).accepted
  {
    var f := net.sealed[ev.index].frame;
    DeliveriesOfEvent(net, ev);
    assert Delivery(f.source, f.payload) in Acted(net, ev).deliveries;
    hide Acted, Opens;
  }

  /** At its destination an opened frame's payload is handed out. */
  lemma HandedOut(trace: seq<Net>, t: nat, ev: Event)
    requires IsTrace(trace) && Happens(trace, t, ev) && ev.HearSealed?
    requires var f := trace[t].sealed[ev.index].frame; Opens(trace[t].nodes[ev.node], f) && f.dest == ev.node
    ensures var f := trace[t].sealed[ev.index].frame; Message(f.source, f.dest, f.payload) in trace[|trace| - 1].accepted
  {
    hide IsTrace, Next, Opens;
    FormThroughout(trace, t);
    StepHandsOut(trace[t], ev);
    AcceptedGrows(trace, t + 1, |trace| - 1);
  }

  // ----- all the way -----

  /**
   Main result: in any run with consistent ids that loses nothing, every packet that a link ever takes, anywhere on its
   way and under whatever route changes, is handed out at its destination as coming from its source.
   */
  lemma {:induction false} DataArrives(trace: seq<Net>, n: Address, h: Address, pos: nat, at: nat)
    requires IsTrace(trace) && ConsistentIds(trace[|trace| - 1]) && NothingLost(trace) && Taken(trace, n, h, pos, at)
    ensures var it := ItemAt(trace, n, h, pos, at); Message(it.source, it.dest, it.payload) in trace[|trace| - 1].accepted
    decreases |trace| - at
  {
    hide IsTrace, ConsistentIds, QueuesEmpty, LeavesAs, KeepsPacket, ItemAt, Taken, IsOpened;
    var a := LeftInFrame(trace, n, h, pos, at);
    var t, ev := FrameHeard(trace, a);
    FrameCarriesItem(trace, a);
    var f := trace[t].sealed[ev.index].frame;
    assert ItemAt(trace, n, h, pos, at) == PendingTx(f.dest, f.source, f.payload);
    if f.dest == ev.node {
      HandedOut(trace, t, ev);
    } else {
      FormThroughout(trace, t);
      var p, pos' := KeptIsTaken(trace, t, ev);
      DataArrives(trace, ev.node, p, pos', t);
    }
  }

  lemma FrameHeard(trace: seq<Net>, a: Leg) returns (t: nat, ev: Event)
    requires IsTrace(trace) && NothingLost(trace) && IsLeg(trace, a) && LeavesAs(trace, a)
    ensures a.at < t && Happens(trace, t, ev) && OpensFor(trace[t], ev, a.entry)
    ensures trace[t].sealed[a.entry] == trace[|trace| - 1].sealed[a.entry]
  {
    hide IsTrace, IsLeg;
    assert IsOpened(trace, a.entry);
    t :| OpenedIn(trace, a.entry, t);
    ev :| Happens(trace, t, ev) && OpensFor(trace[t], ev, a.entry);
    HeardAfterTaken(trace, a, t);
    SealedOnlyGrows(trace, t, |trace| - 1);
  }

  // ----- from the application's call on -----

  /** A payload submitted where there is a way with room is taken by the link of that way. */
  lemma SubmittedIsTaken(trace: seq<Net>, t: nat, ev: Event) returns (pos: nat)
    requires IsTrace(trace) && Happens(trace, t, ev) && ev.Submit? && ev.dest != ev.node && |ev.payload| <= 192
    requires var s := trace[t].nodes[ev.node]; Way(s, ev.dest).Some? && |s.links[Way(s, ev.dest).value].pending| < 32
    ensures var p := Way(trace[t].nodes[ev.node], ev.dest).value;
            Taken(trace, ev.node, p, pos, t) && ItemAt(trace, ev.node, p, pos, t) == PendingTx(ev.dest, ev.node, ev.payload)
  {
    var net := trace[t];
    var s := net.nodes[ev.node];
    FormThroughout(trace, t);
    SendTakesTheWay(s, ev.dest, ev.node, ev.payload, ev.now, ev.id);
    NextCommits(net, ev);
    hide IsTrace, AfterSend, Next, Way;
    pos := LongerIsTaken(trace, t, ev, Way(s, ev.dest).value, |s.links[Way(s, ev.dest).value].pending|);
  }

  /** What a step other than a transmission appends to a queue is taken by that link. */
  lemma LongerIsTaken(trace: seq<Net>, t: nat, ev: Event, p: Address, k: nat) returns (pos: nat)
    requires Happens(trace, t, ev) && WellFormed(trace[t]) && !ev.Transmit?
    requires |Pending(trace[t], ev.node, p)| <= k < |Pending(trace[t + 1], ev.node, p)|
    ensures Taken(trace, ev.node, p, pos, t) && ItemAt(trace, ev.node, p, pos, t) == Pending(trace[t + 1], ev.node, p)[k]
  {
    hide Next, Enabled, Pending;
    QuietTraffic(trace[t], ev, ev.node, p);
    pos := |SealedItems(trace[t].sealed, ev.node, p)| + k;
  }

  /** So a submitted payload that finds a way with room reaches its destination. */
  lemma SubmittedArrives(trace: seq<Net>, t: nat, ev: Event)
    requires IsTrace(trace) && ConsistentIds(trace[|trace| - 1]) && NothingLost(trace)
    requires Happens(trace, t, ev) && ev.Submit? && ev.dest != ev.node && |ev.payload| <= 192
    requires var s := trace[t].nodes[ev.node]; Way(s, ev.dest).Some? && |s.links[Way(s, ev.dest).value].pending| < 32
    ensures Message(ev.node, ev.dest, ev.payload) in trace[|trace| - 1].accepted
  {
    var pos := SubmittedIsTaken(trace, t, ev);
    hide *;
    DataArrives(trace, ev.node, Way(trace[t].nodes[ev.node], ev.dest).value, pos, t);
  }

  /** The sender of the frame this event releases parked payloads to: that of a reply that is home, or of a link frame. */
  ghost predicate Releases(net: Net, ev: Event, p: Address)
    requires Enabled(net, ev)
  {
    && ev.HearFrame? && ev.frame.from == p && p != ev.node && !ev.frame.Rreq? && ev.frame.to == ev.node
    && var s := net.nodes[ev.node];
       ev.frame.Rrep? ==> p in s.links && ReplyCounts(s, ev.frame) && ev.frame.orig == ev.node
  }

  /** All it releases, as its routes are once the frame has been taken in. */
  ghost function Released(net: Net, ev: Event, p: Address): seq<PendingTx>
    requires Enabled(net, ev) && Releases(net, ev, p)
  {
    Parcels(net.nodes[ev.node], Acted(net, ev).routes, p, ev.order)
  }

  lemma ReleaseFills(net: Net, ev: Event, p: Address)
    requires WellFormed(net) && Enabled(net, ev) && Releases(net, ev, p)
    ensures Pending(Next(net, ev), ev.node, p) == Topped(Pending(net, ev.node, p), Released(net, ev, p))
  {
    var s := net.nodes[ev.node];
    NextCommits(net, ev);
    if ev.frame.Rrep? {
      ReplyReleases(s, ev.frame, ev.now, ev.order);
    } else {
      LinkFrameInstalls(s, ev.frame, ev.order);
    }
    hide AfterRrep, AfterLinkFrame, AfterRreq, Next, Topped, Parcels, LeftParked, ReplyCounts;
  }

  lemma ReleasedHas(net: Net, ev: Event, p: Address, d: Address, i: nat) returns (j: nat)
    requires WellFormed(net) && Enabled(net, ev) && Releases(net, ev, p)
    requires d in net.nodes[ev.node].pendingRoutes && i < |net.nodes[ev.node].pendingRoutes[d]|
    requires LeadsTo(Next(net, ev).nodes[ev.node].routes, p, d)
    ensures j < |Released(net, ev, p)| && Released(net, ev, p)[j] == PendingTx(d, ev.node, net.nodes[ev.node].pendingRoutes[d][i])
  {
    var s := net.nodes[ev.node];
    NextCommits(net, ev);
    assert d in Elements(ev.order);
    hide Next, Acted, Releases, LeadsTo, Parcels;
    ParcelsHave(s, Acted(net, ev).routes, p, ev.order, d, i);
    j :| 0 <= j < |Released(net, ev, p)| && Released(net, ev, p)[j] == PendingTx(d, ev.node, s.pendingRoutes[d][i]);
  }

  /** A payload parked for a destination the link leads to is among what is released, and has a place in the queue if all of it has. */
  lemma ParkedIsQueued(net: Net, ev: Event, p: Address, d: Address, i: nat) returns (k: nat)
    requires WellFormed(net) && Enabled(net, ev) && Releases(net, ev, p)
    requires |Pending(net, ev.node, p)| + |Released(net, ev, p)| <= 32
    requires d in net.nodes[ev.node].pendingRoutes && i < |net.nodes[ev.node].pendingRoutes[d]|
    requires LeadsTo(Next(net, ev).nodes[ev.node].routes, p, d)
    ensures |Pending(net, ev.node, p)| <= k < |Pending(Next(net, ev), ev.node, p)|
    ensures Pending(Next(net, ev), ev.node, p)[k] == PendingTx(d, ev.node, net.nodes[ev.node].pendingRoutes[d][i])
  {
    var j := ReleasedHas(net, ev, p, d, i);
    ReleaseFills(net, ev, p);
    hide *;
    ToppedAt(Pending(net, ev.node, p), Released(net, ev, p), j);
    k := |Pending(net, ev.node, p)| + j;
  }

  /**
   Main result: in a run that loses nothing, every payload parked for a destination when a reply comes home, or a link is
   made, over which that destination is then reached, is handed out at that destination, if the link's queue has room for
   all that is released.
   */
  lemma ParkedArrives(trace: seq<Net>, t: nat, ev: Event, p: Address, d: Address, i: nat)
    requires IsTrace(trace) && ConsistentIds(trace[|trace| - 1]) && NothingLost(trace)
    requires Happens(trace, t, ev) && Releases(trace[t], ev, p)
    requires |Pending(trace[t], ev.node, p)| + |Released(trace[t], ev, p)| <= 32
    requires d in trace[t].nodes[ev.node].pendingRoutes && i < |trace[t].nodes[ev.node].pendingRoutes[d]|
    requires LeadsTo(trace[t + 1].nodes[ev.node].routes, p, d)
    ensures Message(ev.node, d, trace[t].nodes[ev.node].pendingRoutes[d][i]) in trace[|trace| - 1].accepted
  {
    FormThroughout(trace, t);
    var k := ParkedIsQueued(trace[t], ev, p, d, i);
    hide IsTrace, ConsistentIds, NothingLost, Next, Enabled, Released, Pending, LeadsTo;
    assert !ev.Transmit?;
    hide Releases;
    var pos := LongerIsTaken(trace, t, ev, p, k);
    DataArrives(trace, ev.node, p, pos, t);
  }

  lemma ToppedAt(pending: seq<PendingTx>, more: seq<PendingTx>, k: nat)
    requires k < |more| && |pending| + |more| <= 32
    ensures Topped(pending, more) == pending + more && Topped(pending, more)[|pending| + k] == more[k]
  {
  }
}
