/** Routes over time: how entries evolve along a run, and how they compare from next hop to next hop. */
module Trajectories {
  import opened Types
  import opened NodeModel
  import opened NodeFacts
  import opened Network
  import opened Effects
  import opened RouteOrder
  import opened LoopFreedom

  /** Entry b, written at bAt, is entry a itself or a strict improvement on it. */
  ghost predicate Evolved(a: RouteEntry, aAt: nat, b: RouteEntry, bAt: nat) {
    (b == a && bAt == aAt) || Improves(b.cost, b.seqNo, a)
  }

  lemma StepEvolves(net: Net, net': Net, k: Address, x: Address)
    requires WellFormed(net) && Step(net, net') && Has(net, k, x)
    ensures Has(net', k, x) && Evolved(Entry(net, k, x), WrittenAt(net, k, x), Entry(net', k, x), WrittenAt(net', k, x))
  {
    hide Acted, Next;
    var ev :| Enabled(net, ev) && net' == Next(net, ev);
    NextCommits(net, ev);
    Classify(net, ev);
    var n, t := ev.node, Acted(net, ev);
    var s := net.nodes[n];
    var d, e := n, RouteEntry(n, 0, 0);
    if StartsRequest(net, ev, t) {
    } else if TakesRreq(net, ev, t) {
      d, e := ev.frame.orig, RouteEntry(ev.frame.from, SatAdd(ev.frame.cost, HopCost(s)), ev.frame.origSeq);
    } else if TakesRrep(net, ev, t) {
      d, e := s.reversePaths[ev.frame.id].dest, RouteEntry(ev.frame.from, SatAdd(ev.frame.cost, HopCost(s)), ev.frame.dstSeq);
    }
    assert t.routes == s.routes || t.routes == Upsert(s.routes, d, e);
    assert TableStep(net, net', n, d, e);
    EntriesOnlyImprove(net, net', n, d, e, k, x);
  }

  /** Once a node has a route to x it keeps one, and that route only ever improves. */
  lemma {:induction false} RoutesEvolve(trace: seq<Net>, i: nat, j: nat, k: Address, x: Address)
    requires IsTrace(trace) && i <= j < |trace| && Has(trace[i], k, x)
    ensures Has(trace[j], k, x)
    ensures Evolved(Entry(trace[i], k, x), WrittenAt(trace[i], k, x), Entry(trace[j], k, x), WrittenAt(trace[j], k, x))
    decreases j
  {
    hide Step;
    if i < j {
      RoutesEvolve(trace, i, j - 1, k, x);
      FormThroughout(trace, j - 1);
      assert Step(trace[j - 1], trace[j - 1 + 1]);
      StepEvolves(trace[j - 1], trace[j], k, x);
    }
  }

  lemma RouteInvGivesForm(trace: seq<Net>, i: nat)
    requires IsTrace(trace) && i < |trace| && ConsistentIds(trace[|trace| - 1])
    ensures WellFormed(trace[i]) && HopsOk(trace[i]) && Stamped(trace[i])
  {
    RouteInvThroughout(trace, i);
  }

  /** If n's route to d led to h at time i, then at any later time h is d, or h's route beats the one n had. */
  lemma NextHopBeatsRouteUsed(trace: seq<Net>, i: nat, j: nat, n: Address, d: Address)
    requires IsTrace(trace) && i <= j < |trace| && ConsistentIds(trace[|trace| - 1]) && Has(trace[i], n, d)
    ensures var h := Entry(trace[i], n, d).nextHop;
            h == d || (Has(trace[j], h, d)
                       && BetterKey(Entry(trace[j], h, d), WrittenAt(trace[j], h, d), Entry(trace[i], n, d), WrittenAt(trace[i], n, d)))
  {
    RouteInvGivesForm(trace, i);
    assert HopOk(trace[i], n, d);
    var h := Entry(trace[i], n, d).nextHop;
    if h != d { RoutesEvolve(trace, i, j, h, d); }
  }

  /** A node at a time. */
  datatype Hop = Hop(node: Address, time: nat)

  ghost predicate IsTrajectory(trace: seq<Net>, d: Address, hops: seq<Hop>) {
    && (forall k :: 0 <= k < |hops| ==> hops[k].time < |trace| && Has(trace[hops[k].time], hops[k].node, d))
    && (forall k :: 0 <= k < |hops| - 1 ==>
          hops[k].time <= hops[k + 1].time && Entry(trace[hops[k].time], hops[k].node, d).nextHop == hops[k + 1].node)
  }

  ghost predicate HopBetter(trace: seq<Net>, d: Address, a: Hop, b: Hop)
    requires a.time < |trace| && Has(trace[a.time], a.node, d)
    requires b.time < |trace| && Has(trace[b.time], b.node, d)
  {
    BetterKey(Entry(trace[b.time], b.node, d), WrittenAt(trace[b.time], b.node, d),
              Entry(trace[a.time], a.node, d), WrittenAt(trace[a.time], a.node, d))
  }

  lemma {:induction false} TrajectoryImproves(trace: seq<Net>, d: Address, hops: seq<Hop>, i: nat, j: nat)
    requires IsTrace(trace) && ConsistentIds(trace[|trace| - 1]) && IsTrajectory(trace, d, hops) && i < j < |hops|
    ensures HopBetter(trace, d, hops[i], hops[j])
    decreases j - i
  {
    hide IsTrace, ConsistentIds;
    NextHopBeatsRouteUsed(trace, hops[i].time, hops[i + 1].time, hops[i].node, d);
    RouteInvGivesForm(trace, hops[i + 1].time);
    assert HopOk(trace[hops[i + 1].time], hops[i + 1].node, d);
    if i + 1 < j { TrajectoryImproves(trace, d, hops, i + 1, j); }
  }

  /** A trajectory comes back to a node only after that node's own route has strictly improved in the meantime. */
  lemma RevisitNeedsBetterRoute(trace: seq<Net>, d: Address, hops: seq<Hop>, i: nat, j: nat)
    requires IsTrace(trace) && ConsistentIds(trace[|trace| - 1]) && IsTrajectory(trace, d, hops) && i < j < |hops|
    requires hops[i].node == hops[j].node
    ensures Improves(Entry(trace[hops[j].time], hops[j].node, d).cost, Entry(trace[hops[j].time], hops[j].node, d).seqNo,
                     Entry(trace[hops[i].time], hops[i].node, d))
  {
    TrajectoryImproves(trace, d, hops, i, j);
    TimesOrdered(trace, d, hops, i, j);
    RoutesEvolve(trace, hops[i].time, hops[j].time, hops[i].node, d);
  }

  lemma {:induction false} TimesOrdered(trace: seq<Net>, d: Address, hops: seq<Hop>, i: nat, j: nat)
    requires IsTrajectory(trace, d, hops) && i <= j < |hops|
    ensures hops[i].time <= hops[j].time
    decreases j
  {
    if i < j { TimesOrdered(trace, d, hops, i, j - 1); }
  }
}
