/** The order that next hops climb, and why one table step cannot break it. */
module RouteOrder {
  import opened Types
  import opened NodeModel
  import opened NodeFacts
  import opened Network

  ghost predicate Has(net: Net, n: Address, d: Address) {
    n in net.nodes && d in net.nodes[n].routes
  }

  ghost function Entry(net: Net, n: Address, d: Address): RouteEntry
    requires Has(net, n, d)
  {
    net.nodes[n].routes[d]
  }

  ghost function WrittenAt(net: Net, n: Address, d: Address): nat {
    net.written(n, d)
  }

  /** A strict order on route entries: newer sequence number, then lower cost, then older entry. */
  ghost predicate BetterKey(a: RouteEntry, aWritten: nat, b: RouteEntry, bWritten: nat) {
    || a.seqNo > b.seqNo
    || (a.seqNo == b.seqNo && a.cost < b.cost)
    || (a.seqNo == b.seqNo && a.cost == b.cost && aWritten < bWritten)
  }

  ghost predicate Better(net: Net, h: Address, n: Address, d: Address)
    requires Has(net, h, d) && Has(net, n, d)
  {
    BetterKey(Entry(net, h, d), WrittenAt(net, h, d), Entry(net, n, d), WrittenAt(net, n, d))
  }

  /** Node f is the destination, or its route is at least as good as (seqNo, cost). */
  ghost predicate Backed(net: Net, f: Address, d: Address, seqNo: U32, cost: U16) {
    && f in net.nodes
    && (f == d
        || (Has(net, f, d)
            && (Entry(net, f, d).seqNo > seqNo || (Entry(net, f, d).seqNo == seqNo && Entry(net, f, d).cost <= cost))))
  }

  ghost predicate Requested(net: Net, id: U32, dest: Address) {
    exists q :: q in net.air && q.Rreq? && q.id == id && q.dest == dest
  }

  ghost predicate FrameBacked(net: Net, f: Frame) {
    match f
    case Rreq(_, from, orig, _, origSeq, cost, _) => Backed(net, from, orig, origSeq, cost)
    case Rrep(_, from, _, id, dstSeq, cost) => exists dest :: Requested(net, id, dest) && Backed(net, from, dest, dstSeq, cost)
    case LinkFrame(_, _, _, _) => true
  }

  ghost predicate HopOk(net: Net, n: Address, d: Address)
    requires Has(net, n, d)
  {
    var h := Entry(net, n, d).nextHop;
    n != d && h != n && h in net.nodes && (h == d || (Has(net, h, d) && Better(net, h, n, d)))
  }

  ghost predicate HopsOk(net: Net) {
    forall n, d :: Has(net, n, d) ==> HopOk(net, n, d)
  }

  ghost predicate Stamped(net: Net) {
    forall n, d :: Has(net, n, d) ==> WrittenAt(net, n, d) < net.clock
  }

  ghost predicate ReversesRequested(net: Net) {
    forall n, id :: n in net.nodes && id in net.nodes[n].reversePaths ==> Requested(net, id, net.nodes[n].reversePaths[id].dest)
  }

  ghost predicate RouteInv(net: Net) {
    && WellFormed(net)
    && Stamped(net)
    && HopsOk(net)
    && ReversesRequested(net)
    && (forall f :: f in net.air ==> FrameBacked(net, f))
  }

  /** One node's route table is offered at most one entry; everything else about routing stands still or grows. */
  ghost predicate TableStep(net: Net, net': Net, n: Address, d: Address, e: RouteEntry) {
    && n in net.nodes
    && net'.nodes.Keys == net.nodes.Keys
    && (forall k :: k in net.nodes && k != n ==> net'.nodes[k].routes == net.nodes[k].routes)
    && (net'.nodes[n].routes == net.nodes[n].routes || net'.nodes[n].routes == Upsert(net.nodes[n].routes, d, e))
    && (forall k, x :: WrittenAt(net', k, x) == if k == n && RouteChanged(net.nodes[n].routes, net'.nodes[n].routes, x) then net.clock else WrittenAt(net, k, x))
    && net'.clock == net.clock + 1
  }

  /** The offered entry leads to a node that is the destination or whose own route justifies the cost. */
  ghost predicate OfferJustified(net: Net, n: Address, d: Address, e: RouteEntry) {
    && d != n && e.nextHop != n
    && exists c: U16, hop: nat :: hop > 0 && e.cost == SatAdd(c, hop) && Backed(net, e.nextHop, d, e.seqNo, c)
  }

  /** An entry is only ever replaced by one with a newer sequence number or a lower cost. */
  lemma EntriesOnlyImprove(net: Net, net': Net, n: Address, d: Address, e: RouteEntry, k: Address, x: Address)
    requires TableStep(net, net', n, d, e) && Has(net, k, x)
    ensures Has(net', k, x)
    ensures (Entry(net', k, x) == Entry(net, k, x) && WrittenAt(net', k, x) == WrittenAt(net, k, x))
            || (Improves(Entry(net', k, x).cost, Entry(net', k, x).seqNo, Entry(net, k, x)) && WrittenAt(net', k, x) == net.clock)
  {
  }

  lemma BackedPersists(net: Net, net': Net, n: Address, d: Address, e: RouteEntry, f: Address, x: Address, seqNo: U32, cost: U16)
    requires TableStep(net, net', n, d, e) && Backed(net, f, x, seqNo, cost)
    ensures Backed(net', f, x, seqNo, cost)
  {
    if f != x { EntriesOnlyImprove(net, net', n, d, e, f, x); }
  }

  lemma HopOkPersists(net: Net, net': Net, n: Address, d: Address, e: RouteEntry, k: Address, x: Address)
    requires TableStep(net, net', n, d, e) && Stamped(net) && HopsOk(net)
    requires Has(net, k, x) && Has(net', k, x) && Entry(net', k, x) == Entry(net, k, x)
    ensures HopOk(net', k, x)
  {
    var h := Entry(net, k, x).nextHop;
    assert HopOk(net, k, x);
    EntriesOnlyImprove(net, net', n, d, e, k, x);
    if h != x { EntriesOnlyImprove(net, net', n, d, e, h, x); }
  }

  lemma HopOkOffered(net: Net, net': Net, n: Address, d: Address, e: RouteEntry)
    requires TableStep(net, net', n, d, e) && Stamped(net) && OfferJustified(net, n, d, e)
    requires Has(net', n, d) && Entry(net', n, d) == e && (Has(net, n, d) ==> Entry(net, n, d) != e)
    ensures HopOk(net', n, d)
  {
    var c: U16, hop: nat :| hop > 0 && e.cost == SatAdd(c, hop) && Backed(net, e.nextHop, d, e.seqNo, c);
    if e.nextHop != d { EntriesOnlyImprove(net, net', n, d, e, e.nextHop, d); }
  }

  lemma HopsStayOk(net: Net, net': Net, n: Address, d: Address, e: RouteEntry)
    requires TableStep(net, net', n, d, e) && Stamped(net) && HopsOk(net)
    requires net'.nodes[n].routes != net.nodes[n].routes ==> OfferJustified(net, n, d, e)
    ensures Stamped(net') && HopsOk(net')
  {
    forall k, x | Has(net', k, x) ensures WrittenAt(net', k, x) < net'.clock && HopOk(net', k, x) {
      if Has(net, k, x) && Entry(net', k, x) == Entry(net, k, x) {
        EntriesOnlyImprove(net, net', n, d, e, k, x);
        HopOkPersists(net, net', n, d, e, k, x);
      } else {
        assert k == n && x == d;
        HopOkOffered(net, net', n, d, e);
      }
    }
  }

  lemma RequestedPersists(net: Net, net': Net, id: U32, dest: Address)
    requires net.air <= net'.air && Requested(net, id, dest)
    ensures Requested(net', id, dest)
  {
  }

  lemma FrameBackedPersists(net: Net, net': Net, n: Address, d: Address, e: RouteEntry, f: Frame)
    requires TableStep(net, net', n, d, e) && net.air <= net'.air && FrameBacked(net, f)
    ensures FrameBacked(net', f)
  {
    match f
    case Rreq(_, from, orig, _, origSeq, cost, _) =>
      BackedPersists(net, net', n, d, e, from, orig, origSeq, cost);
    case Rrep(_, from, _, id, dstSeq, cost) =>
      var dest :| Requested(net, id, dest) && Backed(net, from, dest, dstSeq, cost);
      BackedPersists(net, net', n, d, e, from, dest, dstSeq, cost);
      RequestedPersists(net, net', id, dest);
    case LinkFrame(_, _, _, _) =>
  }
}
