/** Whatever is queued or sealed can be handled where it goes: nothing is ever dropped for want of a route. */
module Forwarding {
  import opened Types
  import opened NodeModel
  import opened NodeFacts
  import opened Network
  import opened Effects
  import opened DataEffects
  import opened Links
  import opened RouteOrder
  import opened LoopFreedom

  /** Node k is destination d, or has a link or a route to it. */
  ghost predicate CanHandle(net: Net, k: Address, d: Address) {
    k in net.nodes && (k == d || d in net.nodes[k].routes || d in net.nodes[k].links)
  }

  ghost predicate ItemHandled(net: Net, n: Address, h: Address, d: Address) {
    CanHandle(net, n, d) && (h == d || Has(net, h, d))
  }

  ghost predicate ItemsHandled(net: Net) {
    forall n, h, it :: n in net.nodes && h in net.nodes[n].links && it in net.nodes[n].links[h].pending ==>
      ItemHandled(net, n, h, it.dest)
  }

  /** A sealed frame can be opened at either end of its link only, and both ends can handle it. */
  ghost predicate SealedEntryHandled(net: Net, e: SealedEntry) {
    && e.frame.key == PairKey(e.sender, e.peer)
    && CanHandle(net, e.sender, e.frame.dest) && CanHandle(net, e.peer, e.frame.dest)
  }

  ghost predicate SealedHandled(net: Net) {
    forall i :: 0 <= i < |net.sealed| ==> SealedEntryHandled(net, net.sealed[i])
  }

  ghost predicate NoRouteDrops(net: Net) {
    forall n :: n in net.nodes ==> net.nodes[n].counters.dropNoRoute == 0
  }

  ghost predicate ForwardInv(net: Net) {
    LinkInv(net) && ItemsHandled(net) && SealedHandled(net) && NoRouteDrops(net)
  }

  lemma ItemHandledPersists(net: Net, net': Net, n: Address, h: Address, d: Address)
    requires Grows(net, net') && ItemHandled(net, n, h, d)
    ensures ItemHandled(net', n, h, d)
  {
    if h != d { assert h in net'.nodes && d in net'.nodes[h].routes; }
    assert n in net'.nodes;
  }

  lemma NewItemHandled(net': Net, n: Address, h: Address, d: Address)
    requires HopsOk(net') && n in net'.nodes && h in net'.nodes[n].links && Matches(net'.nodes[n], d, h)
    ensures ItemHandled(net', n, h, d)
  {
    if h != d {
      assert Has(net', n, d);
      assert HopOk(net', n, d);
    }
  }

  lemma ItemsStayHandled(net: Net, net': Net, n: Address, t: State, given: set<PendingTx>)
    requires ItemsHandled(net) && Grows(net, net') && HopsOk(net') && Commits(net, net', n, t)
    requires ItemsAccounted(net.nodes[n], t, given)
    ensures ItemsHandled(net')
  {
    hide Grows, HopsOk, ItemHandled, CanHandle;
    forall k, h, it | k in net'.nodes && h in net'.nodes[k].links && it in net'.nodes[k].links[h].pending
      ensures ItemHandled(net', k, h, it.dest)
    {
      if k in net.nodes && h in net.nodes[k].links && it in net.nodes[k].links[h].pending {
        ItemHandledPersists(net, net', k, h, it.dest);
      } else {
        NewItemHandled(net', k, h, it.dest);
      }
    }
  }

  lemma SealedEntryPersists(net: Net, net': Net, e: SealedEntry)
    requires Grows(net, net') && SealedEntryHandled(net, e)
    ensures SealedEntryHandled(net', e)
  {
    assert e.sender in net'.nodes && e.peer in net'.nodes;
  }

  lemma SealedStayHandled(net: Net, ev: Event)
    requires ForwardInv(net) && Enabled(net, ev) && Grows(net, Next(net, ev))
    ensures SealedHandled(Next(net, ev))
  {
    hide Acted, Grows, NoRouteDrops;
    var net' := Next(net, ev);
    forall i | 0 <= i < |net'.sealed| ensures SealedEntryHandled(net', net'.sealed[i]) {
      if i < |net.sealed| {
        SealedEntryPersists(net, net', net.sealed[i]);
      } else {
        var head := net.nodes[ev.node].links[ev.peer].pending[0];
        assert ItemHandled(net, ev.node, ev.peer, head.dest);
        assert SealedEntryHandled(net, net'.sealed[i]);
        SealedEntryPersists(net, net', net'.sealed[i]);
      }
    }
  }

  /** Whoever opens a frame sits at one end of its link, so the missing-route branch cannot be taken. */
  lemma NeverWithoutRoute(net: Net, ev: Event)
    requires LinkInv(net) && SealedHandled(net) && Enabled(net, ev) && Forwards(net, ev)
    ensures var f := net.sealed[ev.index].frame; var s := net.nodes[ev.node];
            f.dest in s.links || f.dest in s.routes
  {
    var e := net.sealed[ev.index];
    var s := net.nodes[ev.node];
    assert SealedEntryHandled(net, e);
    var p :| p in s.links && s.links[p].key == e.frame.key;
    PairKeyIdentifiesPair(ev.node, p, e.sender, e.peer);
    assert ev.node in {e.sender, e.peer};
  }

  lemma DropsStayZero(net: Net, ev: Event)
    requires LinkInv(net) && SealedHandled(net) && NoRouteDrops(net) && Enabled(net, ev)
    ensures NoRouteDrops(Next(net, ev))
  {
    hide Acted, Next, SealedHandled, LinksKeyed, LinkFramesHonest;
    NextCommits(net, ev);
    DropsOfEvent(net, ev);
    if Forwards(net, ev) { NeverWithoutRoute(net, ev); }
  }

  lemma EventKeepsForwardInv(net: Net, ev: Event)
    requires ForwardInv(net) && Enabled(net, ev) && HopsOk(Next(net, ev))
    requires Grows(net, Next(net, ev)) && LinkInv(Next(net, ev))
    ensures ForwardInv(Next(net, ev))
  {
    hide Acted, Next, Given, Grows, HopsOk, WellFormed, LinksKeyed, LinkFramesHonest, ItemsHandled, SealedHandled, NoRouteDrops;
    NextCommits(net, ev);
    ItemsOfEvent(net, ev);
    ItemsStayHandled(net, Next(net, ev), ev.node, Acted(net, ev), Given(net, ev));
    SealedStayHandled(net, ev);
    DropsStayZero(net, ev);
  }

  lemma StepKeepsForwardInv(net: Net, net': Net)
    requires ForwardInv(net) && Step(net, net') && RouteInv(net')
    ensures ForwardInv(net')
  {
    StepGrows(net, net');
    StepKeepsLinkInv(net, net');
    var ev :| Enabled(net, ev) && net' == Next(net, ev);
    assert HopsOk(net');
    hide Next, Grows, HopsOk, LinkInv, ForwardInv;
    EventKeepsForwardInv(net, ev);
  }

  lemma ForwardInvAtStart(net: Net)
    requires Init(net)
    ensures ForwardInv(net)
  {
  }

  lemma {:induction false} ForwardInvThroughout(trace: seq<Net>, i: nat)
    requires IsTrace(trace) && i < |trace| && ConsistentIds(trace[|trace| - 1])
    ensures ForwardInv(trace[i])
  {
    hide ForwardInv, RouteInv, Init, Step, ConsistentIds;
    if i == 0 {
      ForwardInvAtStart(trace[0]);
    } else {
      ForwardInvThroughout(trace, i - 1);
      RouteInvThroughout(trace, i);
      assert Step(trace[i - 1], trace[i - 1 + 1]);
      StepKeepsForwardInv(trace[i - 1], trace[i]);
    }
  }

  /** In every run the missing-route branch is never taken: no node ever counts a `drop_no_route`. */
  lemma NoPacketLacksARoute(trace: seq<Net>, i: nat, n: Address)
    requires IsTrace(trace) && i < |trace| && ConsistentIds(trace[|trace| - 1]) && n in trace[i].nodes
    ensures trace[i].nodes[n].counters.dropNoRoute == 0
  {
    ForwardInvThroughout(trace, i);
  }
}
