/** Every event keeps the route invariant, and what the invariant gives in every run. */
module LoopFreedom {
  import opened Types
  import opened NodeModel
  import opened NodeFacts
  import opened Network
  import opened Effects
  import opened RouteOrder

  ghost predicate NewFramesBacked(net: Net, net': Net) {
    forall f :: f in net'.air && f !in net.air ==> FrameBacked(net', f)
  }

  ghost predicate NewReversesRequested(net: Net, net': Net) {
    forall k, id :: k in net'.nodes && id in net'.nodes[k].reversePaths ==>
      (k in net.nodes && id in net.nodes[k].reversePaths && net.nodes[k].reversePaths[id].dest == net'.nodes[k].reversePaths[id].dest)
      || Requested(net', id, net'.nodes[k].reversePaths[id].dest)
  }

  /** The invariant survives a table step whose offer and whose new frames are justified. */
  lemma InvAssembled(net: Net, net': Net, n: Address, d: Address, e: RouteEntry)
    requires RouteInv(net) && WellFormed(net') && TableStep(net, net', n, d, e) && net.air <= net'.air
    requires net'.nodes[n].routes != net.nodes[n].routes ==> OfferJustified(net, n, d, e)
    requires NewFramesBacked(net, net') && NewReversesRequested(net, net')
    ensures RouteInv(net')
  {
    hide OfferJustified;
    HopsStayOk(net, net', n, d, e);
    forall k, id | k in net'.nodes && id in net'.nodes[k].reversePaths
      ensures Requested(net', id, net'.nodes[k].reversePaths[id].dest)
    {
      if k in net.nodes && id in net.nodes[k].reversePaths {
        RequestedPersists(net, net', id, net.nodes[k].reversePaths[id].dest);
      }
    }
    forall f | f in net'.air ensures FrameBacked(net', f) {
      if f in net.air { FrameBackedPersists(net, net', n, d, e, f); }
    }
  }

  lemma QuietKeeps(net: Net, net': Net, n: Address, t: State)
    requires RouteInv(net) && Commits(net, net', n, t) && QuietEffect(net.nodes[n], t)
    ensures RouteInv(net')
  {
    InvAssembled(net, net', n, n, RouteEntry(n, 0, 0));
  }

  lemma InitiatedParts(net: Net, net': Net, n: Address, t: State, dest: Address, id: U32)
    requires WellFormed(net) && Commits(net, net', n, t) && Initiated(net.nodes[n], t, dest, id)
    ensures WellFormed(net') && net.air <= net'.air && net'.nodes[n].routes == net.nodes[n].routes
    ensures TableStep(net, net', n, n, RouteEntry(n, 0, 0))
    ensures NewFramesBacked(net, net') && NewReversesRequested(net, net')
  {
    var s := net.nodes[n];
    assert Requested(net', id, dest) by {
      assert Rreq(dest, s.addr, s.addr, id, Truncate(WrapSucc(s.seqNo)), 0, ROUTE_RADIUS) in net'.air;
    }
  }

  lemma InitiatedKeeps(net: Net, net': Net, n: Address, t: State, dest: Address, id: U32)
    requires RouteInv(net) && Commits(net, net', n, t) && Initiated(net.nodes[n], t, dest, id)
    ensures RouteInv(net')
  {
    assert WellFormed(net);
    hide *;
    InitiatedParts(net, net', n, t, dest, id);
    InvAssembled(net, net', n, n, RouteEntry(n, 0, 0));
  }

  lemma UpsertBacks(net': Net, n: Address, d: Address, e: RouteEntry, routes: map<Address, RouteEntry>)
    requires n in net'.nodes && net'.nodes[n].routes == Upsert(routes, d, e)
    ensures Backed(net', n, d, e.seqNo, e.cost)
  {
  }

  lemma RreqFramesBacked(net: Net, net': Net, n: Address, t: State, m: Frame)
    requires WellFormed(net) && Commits(net, net', n, t) && m in net.air
    requires m.Rreq? && RreqEffect(net.nodes[n], t, m)
    ensures NewFramesBacked(net, net') && Requested(net', m.id, m.dest)
  {
    var s := net.nodes[n];
    var e := RouteEntry(m.from, SatAdd(m.cost, HopCost(s)), m.origSeq);
    assert m in net'.air;
    UpsertBacks(net', n, m.orig, e, s.routes);
    forall f | f in net'.air && f !in net.air ensures FrameBacked(net', f) {
      if f.Rrep? {
        assert Requested(net', f.id, m.dest) && Backed(net', n, m.dest, f.dstSeq, f.cost);
      }
    }
  }

  lemma RreqOffers(net: Net, net': Net, n: Address, t: State, m: Frame)
    requires RouteInv(net) && Commits(net, net', n, t) && m in net.air
    requires m.Rreq? && RreqUseful(net.nodes[n], m) && RreqEffect(net.nodes[n], t, m)
    ensures var e := RouteEntry(m.from, SatAdd(m.cost, HopCost(net.nodes[n])), m.origSeq);
            TableStep(net, net', n, m.orig, e) && OfferJustified(net, n, m.orig, e)
  {
    assert FrameBacked(net, m);
  }

  lemma RreqReverses(net: Net, net': Net, n: Address, t: State, m: Frame)
    requires WellFormed(net) && Commits(net, net', n, t)
    requires m.Rreq? && RreqEffect(net.nodes[n], t, m) && Requested(net', m.id, m.dest)
    ensures WellFormed(net') && net.air <= net'.air && NewReversesRequested(net, net')
  {
    hide Requested;
  }

  lemma RreqKeeps(net: Net, net': Net, n: Address, t: State, m: Frame)
    requires RouteInv(net) && Commits(net, net', n, t) && m in net.air
    requires m.Rreq? && RreqUseful(net.nodes[n], m) && RreqEffect(net.nodes[n], t, m)
    ensures RouteInv(net')
  {
    assert WellFormed(net);
    hide *;
    RreqOffers(net, net', n, t, m);
    RreqFramesBacked(net, net', n, t, m);
    RreqReverses(net, net', n, t, m);
    InvAssembled(net, net', n, m.orig, RouteEntry(m.from, SatAdd(m.cost, HopCost(net.nodes[n])), m.origSeq));
  }

  /** With consistent ids, the destination a node remembers is the one the reply is about. */
  lemma RrepIsAbout(net: Net, n: Address, m: Frame)
    requires RouteInv(net) && ConsistentIds(net) && n in net.nodes && m in net.air
    requires m.Rrep? && RrepAccepted(net.nodes[n], m)
    ensures var d := net.nodes[n].reversePaths[m.id].dest;
            Requested(net, m.id, d) && Backed(net, m.from, d, m.dstSeq, m.cost)
  {
    assert FrameBacked(net, m);
    var d := net.nodes[n].reversePaths[m.id].dest;
    assert Requested(net, m.id, d);
  }

  lemma RrepFramesBacked(net: Net, net': Net, n: Address, t: State, m: Frame)
    requires WellFormed(net) && Commits(net, net', n, t)
    requires m.Rrep? && RrepAccepted(net.nodes[n], m) && RrepEffect(net.nodes[n], t, m)
    requires Requested(net, m.id, net.nodes[n].reversePaths[m.id].dest)
    ensures NewFramesBacked(net, net')
  {
    var s := net.nodes[n];
    var d := s.reversePaths[m.id].dest;
    RequestedPersists(net, net', m.id, d);
    UpsertBacks(net', n, d, RouteEntry(m.from, SatAdd(m.cost, HopCost(s)), m.dstSeq), s.routes);
  }

  lemma RrepOffers(net: Net, net': Net, n: Address, t: State, m: Frame)
    requires RouteInv(net) && Commits(net, net', n, t) && m in net.air && ConsistentIds(net)
    requires m.Rrep? && RrepAccepted(net.nodes[n], m) && RrepEffect(net.nodes[n], t, m)
    ensures var d := net.nodes[n].reversePaths[m.id].dest;
            var e := RouteEntry(m.from, SatAdd(m.cost, HopCost(net.nodes[n])), m.dstSeq);
            Requested(net, m.id, d) && TableStep(net, net', n, d, e) && OfferJustified(net, n, d, e)
  {
    RrepIsAbout(net, n, m);
  }

  lemma RrepReverses(net: Net, net': Net, n: Address, t: State, m: Frame)
    requires WellFormed(net) && Commits(net, net', n, t)
    requires m.Rrep? && RrepAccepted(net.nodes[n], m) && RrepEffect(net.nodes[n], t, m)
    ensures WellFormed(net') && net.air <= net'.air && NewReversesRequested(net, net')
  {
    hide Requested;
  }

  lemma RrepKeeps(net: Net, net': Net, n: Address, t: State, m: Frame)
    requires RouteInv(net) && Commits(net, net', n, t) && m in net.air && ConsistentIds(net)
    requires m.Rrep? && RrepAccepted(net.nodes[n], m) && RrepEffect(net.nodes[n], t, m)
    ensures RouteInv(net')
  {
    assert WellFormed(net) && n in net.nodes && m.id in net.nodes[n].reversePaths;
    hide *;
    RrepOffers(net, net', n, t, m);
    RrepFramesBacked(net, net', n, t, m);
    RrepReverses(net, net', n, t, m);
    var d := net.nodes[n].reversePaths[m.id].dest;
    InvAssembled(net, net', n, d, RouteEntry(m.from, SatAdd(m.cost, HopCost(net.nodes[n])), m.dstSeq));
  }

  lemma StepKeepsRouteInv(net: Net, net': Net)
    requires RouteInv(net) && Step(net, net') && ConsistentIds(net)
    ensures RouteInv(net')
  {
    hide Next, Acted;
    var ev :| Enabled(net, ev) && net' == Next(net, ev);
    var n, t := ev.node, Acted(net, ev);
    NextCommits(net, ev);
    Classify(net, ev);
    if StartsRequest(net, ev, t) {
      InitiatedKeeps(net, net', n, t, ev.dest, ev.id);
    } else if TakesRreq(net, ev, t) {
      RreqKeeps(net, net', n, t, ev.frame);
    } else if TakesRrep(net, ev, t) {
      RrepKeeps(net, net', n, t, ev.frame);
    } else {
      QuietKeeps(net, net', n, t);
    }
  }

  lemma RouteInvAtStart(net: Net)
    requires Init(net)
    ensures RouteInv(net)
  {
  }

  /** Consistency of the whole run's ids is inherited by every earlier state. */
  lemma ConsistentEarlier(trace: seq<Net>, i: nat)
    requires IsTrace(trace) && i < |trace| && ConsistentIds(trace[|trace| - 1])
    ensures ConsistentIds(trace[i])
  {
    AirGrows(trace, i, |trace| - 1);
  }

  lemma {:induction false} RouteInvThroughout(trace: seq<Net>, i: nat)
    requires IsTrace(trace) && i < |trace| && ConsistentIds(trace[|trace| - 1])
    ensures RouteInv(trace[i])
  {
    hide RouteInv, Init, Step, ConsistentIds;
    if i == 0 {
      RouteInvAtStart(trace[0]);
    } else {
      RouteInvThroughout(trace, i - 1);
      ConsistentEarlier(trace, i - 1);
      assert Step(trace[i - 1], trace[i - 1 + 1]);
      StepKeepsRouteInv(trace[i - 1], trace[i]);
    }
  }

  /** A walk that follows next hops for destination d. */
  ghost predicate IsWalk(net: Net, d: Address, p: seq<Address>) {
    && |p| > 0
    && forall i :: 0 <= i < |p| - 1 ==> Has(net, p[i], d) && Entry(net, p[i], d).nextHop == p[i + 1]
  }

  lemma {:induction false} WalkImproves(net: Net, d: Address, p: seq<Address>, i: nat, j: nat)
    requires RouteInv(net) && IsWalk(net, d, p) && i < j < |p|
    ensures p[j] == d || (Has(net, p[j], d) && Better(net, p[j], p[i], d))
    decreases j - i
  {
    assert HopOk(net, p[i], d);
    if i + 1 < j {
      assert HopOk(net, p[i + 1], d);
      WalkImproves(net, d, p, i + 1, j);
    }
  }

  lemma WalkIsSimple(net: Net, d: Address, p: seq<Address>)
    requires RouteInv(net) && IsWalk(net, d, p)
    ensures NoDuplicates(p)
  {
    forall i, j | 0 <= i < j < |p| ensures p[i] != p[j] {
      WalkImproves(net, d, p, i, j);
      assert HopOk(net, p[i], d);
    }
  }

  lemma {:induction false} WalkArrives(net: Net, n: Address, d: Address) returns (p: seq<Address>)
    requires RouteInv(net) && Has(net, n, d)
    ensures IsWalk(net, d, p) && p[0] == n && p[|p| - 1] == d && Elements(p) <= net.nodes.Keys
    decreases 0x1_0000_0000 - Entry(net, n, d).seqNo, Entry(net, n, d).cost, WrittenAt(net, n, d)
  {
    assert HopOk(net, n, d);
    var h := Entry(net, n, d).nextHop;
    if h == d {
      p := [n, d];
    } else {
      var rest := WalkArrives(net, h, d);
      p := [n] + rest;
    }
  }

  /**
   In every state of every run whose request ids are consistent, next hops for d lead from any node that has a
   route to d itself over distinct nodes, and no walk along next hops visits a node twice.
   */
  lemma NoRoutingLoops(trace: seq<Net>, i: nat, n: Address, d: Address)
    requires IsTrace(trace) && i < |trace| && ConsistentIds(trace[|trace| - 1])
    requires Has(trace[i], n, d)
    ensures exists p: seq<Address> :: IsWalk(trace[i], d, p) && p[0] == n && p[|p| - 1] == d && NoDuplicates(p) && |p| <= |trace[i].nodes|
    ensures forall p: seq<Address> :: IsWalk(trace[i], d, p) ==> NoDuplicates(p)
  {
    RouteInvThroughout(trace, i);
    forall p: seq<Address> | IsWalk(trace[i], d, p) ensures NoDuplicates(p) {
      WalkIsSimple(trace[i], d, p);
    }
    var p := WalkArrives(trace[i], n, d);
    DistinctCount(p, trace[i].nodes.Keys);
  }
}
