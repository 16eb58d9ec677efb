/** How a request travelled: the chain of rebroadcasts behind every RREQ and every reverse entry. */
module Trails {
  import opened Types
  import opened NodeModel
  import opened NodeFacts
  import opened Network
  import opened Effects
  import opened ReversePaths
  import opened ReverseTree

  /** Node b has heard a RREQ of this request from node a. */
  ghost predicate HeardFrom(net: Net, id: U32, a: Address, b: Address) {
    exists f :: (f, b) in net.heard && f.Rreq? && f.id == id && f.from == a
  }

  /** A chain of hearings from o to n over distinct nodes, all of them at most c from o by now. */
  ghost predicate IsTrail(net: Net, id: U32, o: Address, d: Address, n: Address, c: nat, p: seq<Address>) {
    && |p| > 0 && p[0] == o && p[|p| - 1] == n && NoDuplicates(p)
    && (forall i :: 0 <= i < |p| ==> Rev(net, id, p[i]) && MinCost(net, id, p[i]) <= c)
    && (forall i :: 0 <= i < |p| - 1 ==> p[i] != d && HeardFrom(net, id, p[i], p[i + 1]))
  }

  /** The cost of a path: every node after the first adds its own weight. */
  ghost function PathCost(w: map<Address, nat>, p: seq<Address>): nat {
    if |p| <= 1 then 0
    else PathCost(w, p[..|p| - 1]) + (if p[|p| - 1] in w then w[p[|p| - 1]] else 0)
  }

  /** When link counts stand still, `w` gives what a hop to each node costs: one more than its number of links. */
  ghost predicate HopCostsAre(net: Net, w: map<Address, nat>) {
    forall n :: n in net.nodes ==> n in w && w[n] == 1 + |net.nodes[n].links|
  }

  /** The node reached its cost along p; if hop costs are fixed, the cost is exactly that of p. */
  ghost predicate Explains(net: Net, id: U32, o: Address, d: Address, fixed: bool, w: map<Address, nat>, n: Address, c: nat, p: seq<Address>) {
    IsTrail(net, id, o, d, n, c, p) && (fixed ==> PathCost(w, p) == c)
  }

  ghost predicate RreqExplained(net: Net, id: U32, o: Address, d: Address, fixed: bool, w: map<Address, nat>, q: Frame)
    requires q.Rreq?
  {
    exists p :: |p| + q.radius == ROUTE_RADIUS + 1 && Explains(net, id, o, d, fixed, w, q.from, q.cost, p)
  }

  ghost predicate RevExplained(net: Net, id: U32, o: Address, d: Address, fixed: bool, w: map<Address, nat>, n: Address)
    requires Rev(net, id, n)
  {
    exists p :: |p| <= ROUTE_RADIUS + 2 && Explains(net, id, o, d, fixed, w, n, MinCost(net, id, n), p)
  }

  /** The node has announced its current cost, or sits at the end of a trail that used up the whole radius. */
  ghost predicate Announced(net: Net, id: U32, o: Address, d: Address, n: Address)
    requires Rev(net, id, n)
  {
    || (exists q :: RreqFor(net, id, q) && q.from == n && q.cost == MinCost(net, id, n))
    || (exists p :: |p| == ROUTE_RADIUS + 2 && IsTrail(net, id, o, d, n, MinCost(net, id, n), p))
  }

  /** Having heard f, node n is no further away than one hop beyond its sender. */
  ghost predicate HearingCounts(net: Net, id: U32, o: Address, fixed: bool, w: map<Address, nat>, f: Frame, n: Address)
    requires f.Rreq?
  {
    n == o || n == f.from || (Rev(net, id, n) && (fixed && n in w ==> MinCost(net, id, n) <= f.cost + w[n]))
  }

  ghost predicate TrailInv(net: Net, id: U32, o: Address, d: Address, fixed: bool, w: map<Address, nat>) {
    && (forall q :: RreqFor(net, id, q) ==> RreqExplained(net, id, o, d, fixed, w, q))
    && (forall n :: Rev(net, id, n) ==> RevExplained(net, id, o, d, fixed, w, n))
    && (forall n :: Rev(net, id, n) && n != d ==> Announced(net, id, o, d, n))
    && (forall f, n :: (f, n) in net.heard && f.Rreq? && f.id == id ==> HearingCounts(net, id, o, fixed, w, f, n))
  }

  // ----- persistence -----

  ghost predicate Later(net: Net, net': Net, id: U32) {
    CostsFall(net, net', id) && net.air <= net'.air && net.heard <= net'.heard
  }

  lemma TrailPersists(net: Net, net': Net, id: U32, o: Address, d: Address, n: Address, c: nat, p: seq<Address>)
    requires Later(net, net', id) && IsTrail(net, id, o, d, n, c, p)
    ensures IsTrail(net', id, o, d, n, c, p)
  {
    forall i | 0 <= i < |p| - 1 ensures HeardFrom(net', id, p[i], p[i + 1]) {
      assert HeardFrom(net, id, p[i], p[i + 1]);
    }
  }

  lemma RreqExplanationPersists(net: Net, net': Net, id: U32, o: Address, d: Address, fixed: bool, w: map<Address, nat>, q: Frame)
    requires Later(net, net', id) && q.Rreq? && RreqExplained(net, id, o, d, fixed, w, q)
    ensures RreqExplained(net', id, o, d, fixed, w, q)
  {
    var p :| |p| + q.radius == ROUTE_RADIUS + 1 && Explains(net, id, o, d, fixed, w, q.from, q.cost, p);
    TrailPersists(net, net', id, o, d, q.from, q.cost, p);
    assert Explains(net', id, o, d, fixed, w, q.from, q.cost, p);
  }

  lemma RevExplanationPersists(net: Net, net': Net, id: U32, o: Address, d: Address, fixed: bool, w: map<Address, nat>, n: Address)
    requires Later(net, net', id) && Rev(net, id, n) && MinCost(net', id, n) == MinCost(net, id, n)
    requires RevExplained(net, id, o, d, fixed, w, n)
    ensures RevExplained(net', id, o, d, fixed, w, n)
  {
    var p :| |p| <= ROUTE_RADIUS + 2 && Explains(net, id, o, d, fixed, w, n, MinCost(net, id, n), p);
    TrailPersists(net, net', id, o, d, n, MinCost(net, id, n), p);
    assert Explains(net', id, o, d, fixed, w, n, MinCost(net', id, n), p);
  }

  lemma AnnouncementPersists(net: Net, net': Net, id: U32, o: Address, d: Address, n: Address)
    requires Later(net, net', id) && Rev(net, id, n) && MinCost(net', id, n) == MinCost(net, id, n) && Announced(net, id, o, d, n)
    ensures Announced(net', id, o, d, n)
  {
    if q :| RreqFor(net, id, q) && q.from == n && q.cost == MinCost(net, id, n) {
      assert RreqFor(net', id, q);
    } else {
      var p :| |p| == ROUTE_RADIUS + 2 && IsTrail(net, id, o, d, n, MinCost(net, id, n), p);
      TrailPersists(net, net', id, o, d, n, MinCost(net, id, n), p);
    }
  }

  lemma HearingPersists(net: Net, net': Net, id: U32, o: Address, fixed: bool, w: map<Address, nat>, f: Frame, n: Address)
    requires Later(net, net', id) && f.Rreq? && HearingCounts(net, id, o, fixed, w, f, n)
    ensures HearingCounts(net', id, o, fixed, w, f, n)
  {
  }

  // ----- one more hop -----

  lemma PathCostExtends(w: map<Address, nat>, p: seq<Address>, n: Address)
    requires |p| > 0
    ensures PathCost(w, p + [n]) == PathCost(w, p) + (if n in w then w[n] else 0)
  {
    assert (p + [n])[..|p|] == p;
  }

  /** A node that gains a strictly smaller cost from a RREQ is not on the trail behind it, and extends that trail. */
  lemma TrailExtends(net: Net, net': Net, id: U32, o: Address, d: Address, fixed: bool, w: map<Address, nat>, q: Frame, n: Address, c: U16, p: seq<Address>)
    requires Later(net, net', id) && q.Rreq? && q.from != d && Explains(net, id, o, d, fixed, w, q.from, q.cost, p)
    requires c > q.cost && (Rev(net, id, n) ==> c < MinCost(net, id, n))
    requires Rev(net', id, n) && MinCost(net', id, n) == c && HeardFrom(net', id, q.from, n)
    requires fixed ==> n in w && c == q.cost + w[n]
    ensures Explains(net', id, o, d, fixed, w, n, c, p + [n])
  {
    TrailPersists(net, net', id, o, d, q.from, q.cost, p);
    var p' := p + [n];
    PathCostExtends(w, p, n);
    forall i, j | 0 <= i < j < |p'| ensures p'[i] != p'[j] {
      if j == |p| { assert MinCost(net, id, p[i]) <= q.cost; }
    }
    forall i | 0 <= i < |p'| - 1 ensures p'[i] != d && HeardFrom(net', id, p'[i], p'[i + 1]) {
      if i < |p| - 1 { assert p[i] != d && HeardFrom(net', id, p[i], p[i + 1]); }
    }
  }
}
