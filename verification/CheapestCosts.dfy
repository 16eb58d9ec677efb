/** What a RREQ flood computes: chains without repetition, real path costs, and at quiescence the cheapest ones. */
module CheapestCosts {
  import opened Types
  import opened NodeModel
  import opened Network
  import opened Links
  import opened ReversePaths
  import opened ReverseTree
  import opened ReplyProgress
  import opened Trails
  import opened TrailSteps

  lemma {:induction false} HeardWasSent(trace: seq<Net>, i: nat)
    requires IsTrace(trace) && i < |trace|
    ensures forall f, n :: (f, n) in trace[i].heard ==> f in trace[i].air
    decreases i
  {
    hide Acted;
    if i > 0 {
      HeardWasSent(trace, i - 1);
      assert Step(trace[i - 1], trace[i - 1 + 1]);
      var ev :| Enabled(trace[i - 1], ev) && trace[i] == Next(trace[i - 1], ev);
    }
  }

  /** A stretch of a run that begins before the request is made; link counts may be required to stand still on it. */
  ghost predicate Stretch(trace: seq<Net>, id: U32, start: nat, fixed: bool, w: map<Address, nat>) {
    && start < |trace| && !RequestSent(trace[start], id)
    && (fixed ==> forall j :: start <= j < |trace| ==> HopCostsAre(trace[j], w))
  }

  lemma TrailsAtStart(trace: seq<Net>, id: U32, o: Address, d: Address, m: nat, start: nat, fixed: bool, w: map<Address, nat>)
    requires CleanRequest(trace, id, o, d, m) && Stretch(trace, id, start, fixed, w)
    ensures TrailInv(trace[start], id, o, d, fixed, w)
  {
    TreeThroughout(trace, id, o, d, m, start);
    HeardWasSent(trace, start);
    var net := trace[start];
    forall f, n | (f, n) in net.heard && f.Rreq? ensures f.id != id { AirHoldsRequest(net, f, id); }
  }

  lemma AirHoldsRequest(net: Net, f: Frame, id: U32)
    requires f in net.air && f.Rreq?
    ensures f.id == id ==> RequestSent(net, id)
  {
    if f.id == id { assert RreqFor(net, id, f); }
  }

  lemma {:induction false} TrailsThroughout(trace: seq<Net>, id: U32, o: Address, d: Address, m: nat, start: nat, fixed: bool, w: map<Address, nat>, i: nat)
    requires CleanRequest(trace, id, o, d, m) && Stretch(trace, id, start, fixed, w) && start <= i < |trace|
    ensures TrailInv(trace[i], id, o, d, fixed, w)
    decreases i
  {
    hide TrailInv, TreeInv, Step, BelongsTo, HopCostsWithin, RequestSent, HopCostsAre;
    if i == start {
      TrailsAtStart(trace, id, o, d, m, start, fixed, w);
    } else {
      TrailsThroughout(trace, id, o, d, m, start, fixed, w, i - 1);
      TreeThroughout(trace, id, o, d, m, i - 1);
      CleanEarlier(trace, id, o, d, m, i - 1);
      CleanEarlier(trace, id, o, d, m, i);
      assert Step(trace[i - 1], trace[i - 1 + 1]);
      StepKeepsTrails(trace[i - 1], trace[i], id, o, d, m, fixed, w);
    }
  }

  /** Transmissions p[0], p[1], ... by distinct nodes, each heard by the next sender, ending in the frame q. */
  ghost predicate IsChain(net: Net, id: U32, o: Address, d: Address, q: Frame, p: seq<Address>)
    requires q.Rreq?
  {
    && 0 < |p| && |p| + q.radius == 11 && p[0] == o && p[|p| - 1] == q.from && NoDuplicates(p) && d !in p
    && forall k :: 0 <= k < |p| - 1 ==> HeardFrom(net, id, p[k], p[k + 1])
  }

  lemma TrailIsChain(net: Net, id: U32, o: Address, d: Address, q: Frame, p: seq<Address>)
    requires q.Rreq? && q.from != d && |p| + q.radius == 11 && IsTrail(net, id, o, d, q.from, q.cost, p)
    ensures IsChain(net, id, o, d, q, p)
  {
  }

  /** Behind every RREQ there is a chain of transmissions that repeats no node and so is at most eleven long. */
  lemma ChainsNeverRepeat(trace: seq<Net>, id: U32, o: Address, d: Address, m: nat, i: nat, q: Frame)
    requires CleanRequest(trace, id, o, d, m) && i < |trace| && RreqFor(trace[i], id, q)
    ensures exists p: seq<Address> :: IsChain(trace[i], id, o, d, q, p)
  {
    var net := trace[i];
    assert Stretch(trace, id, 0, false, map[]);
    TrailsThroughout(trace, id, o, d, m, 0, false, map[], i);
    TreeThroughout(trace, id, o, d, m, i);
    hide TreeInv, CleanRequest, Explains, IsChain;
    assert RreqExplained(net, id, o, d, false, map[], q);
    SenderRelays(net, id, o, d, m, q);
    var p :| |p| + q.radius == ROUTE_RADIUS + 1 && Explains(net, id, o, d, false, map[], q.from, q.cost, p);
    ExplainsIsTrail(net, id, o, d, false, map[], q.from, q.cost, p);
    TrailIsChain(net, id, o, d, q, p);
  }

  lemma SenderRelays(net: Net, id: U32, o: Address, d: Address, m: nat, q: Frame)
    requires TreeInv(net, id, o, d, m) && RreqFor(net, id, q)
    ensures q.from != d && Rev(net, id, q.from)
  {
    assert RreqOk(net, id, o, d, m, q);
  }

  // ----- cheapest paths -----

  /** A path over radio edges from o to v that is not relayed through d. */
  ghost predicate IsPath(nodes: set<Address>, edges: set<(Address, Address)>, o: Address, d: Address, v: Address, p: seq<Address>) {
    && |p| > 0 && p[0] == o && p[|p| - 1] == v && Elements(p) <= nodes
    && forall i :: 0 <= i < |p| - 1 ==> p[i] != d && (p[i], p[i + 1]) in edges
  }

  /** Requests were heard along radio edges only. */
  ghost predicate HeardAlong(net: Net, id: U32, edges: set<(Address, Address)>) {
    forall f, n :: (f, n) in net.heard && f.Rreq? && f.id == id ==> (f.from, n) in edges
  }

  /** Nothing is lost and nothing is left to hear: each RREQ of the request has been heard by all radio neighbours. */
  ghost predicate Quiet(net: Net, id: U32, edges: set<(Address, Address)>) {
    forall q, n :: RreqFor(net, id, q) && n in net.nodes && (q.from, n) in edges ==> (q, n) in net.heard
  }

  /** An explained entry holds the cost of a path that requests were heard along. */
  lemma ExplainedCostIsPathCost(net: Net, id: U32, o: Address, d: Address, w: map<Address, nat>, edges: set<(Address, Address)>, v: Address)
    requires TrailInv(net, id, o, d, true, w) && HeardAlong(net, id, edges) && Rev(net, id, v)
    ensures exists p: seq<Address> :: IsPath(net.nodes.Keys, edges, o, d, v, p) && PathCost(w, p) == MinCost(net, id, v)
  {
    assert RevExplained(net, id, o, d, true, w, v);
    hide TrailInv;
    var p :| |p| <= ROUTE_RADIUS + 2 && Explains(net, id, o, d, true, w, v, MinCost(net, id, v), p);
    TrailIsPath(net, id, o, d, edges, v, MinCost(net, id, v), p);
  }

  /**
   In any run on which link counts stand still, the cost a node holds is the node-weighted cost of a path that requests
   were heard along, not relayed through the destination.
   */
  lemma CostIsOfRealPath(trace: seq<Net>, id: U32, o: Address, d: Address, m: nat, start: nat, w: map<Address, nat>,
                         edges: set<(Address, Address)>, i: nat, v: Address)
    requires CleanRequest(trace, id, o, d, m) && Stretch(trace, id, start, true, w) && start <= i < |trace|
    requires HeardAlong(trace[i], id, edges) && Rev(trace[i], id, v)
    ensures exists p: seq<Address> :: IsPath(trace[i].nodes.Keys, edges, o, d, v, p) && PathCost(w, p) == MinCost(trace[i], id, v)
  {
    hide *;
    TrailsThroughout(trace, id, o, d, m, start, true, w, i);
    ExplainedCostIsPathCost(trace[i], id, o, d, w, edges, v);
  }

  /** A request has reached a node along a path of at most eleven radio hops, which is why twelve nodes are the limit below. */
  lemma NothingBeyondElevenHops(trace: seq<Net>, id: U32, o: Address, d: Address, m: nat, edges: set<(Address, Address)>, i: nat, v: Address)
    requires CleanRequest(trace, id, o, d, m) && i < |trace| && HeardAlong(trace[i], id, edges) && Rev(trace[i], id, v)
    ensures exists p: seq<Address> :: IsPath(trace[i].nodes.Keys, edges, o, d, v, p) && |p| <= 12
  {
    assert Stretch(trace, id, 0, false, map[]);
    TrailsThroughout(trace, id, o, d, m, 0, false, map[], i);
    hide CleanRequest, Stretch;
    assert RevExplained(trace[i], id, o, d, false, map[], v);
    hide TrailInv;
    var p :| |p| <= ROUTE_RADIUS + 2 && Explains(trace[i], id, o, d, false, map[], v, MinCost(trace[i], id, v), p);
    TrailIsPath(trace[i], id, o, d, edges, v, MinCost(trace[i], id, v), p);
  }

  lemma TrailIsPath(net: Net, id: U32, o: Address, d: Address, edges: set<(Address, Address)>, v: Address, c: nat, p: seq<Address>)
    requires IsTrail(net, id, o, d, v, c, p) && HeardAlong(net, id, edges)
    ensures IsPath(net.nodes.Keys, edges, o, d, v, p)
  {
    forall i | 0 <= i < |p| - 1 ensures p[i] != d && (p[i], p[i + 1]) in edges {
      assert HeardFrom(net, id, p[i], p[i + 1]);
    }
    forall x | x in p ensures x in net.nodes.Keys {
      var i :| 0 <= i < |p| && p[i] == x;
      assert Rev(net, id, p[i]);
    }
  }

  lemma FullSequenceCovers(p: seq<Address>, s: set<Address>, x: Address)
    requires NoDuplicates(p) && Elements(p) <= s && |s| <= |p| && x in s
    ensures x in p
  {
    if x !in p {
      assert |s - {x}| == |s| - 1;
      DistinctCount(p, s - {x});
    }
  }

  /** Nodes that heard a request frame have an entry; with link counts fixed, one at most a hop dearer. */
  lemma AnnouncedEdgeRelaxed(net: Net, id: U32, o: Address, d: Address, fixed: bool, w: map<Address, nat>, edges: set<(Address, Address)>, q: Frame, v: Address)
    requires TrailInv(net, id, o, d, fixed, w) && Quiet(net, id, edges) && v != o && v != q.from
    requires RreqFor(net, id, q) && (q.from, v) in edges && v in net.nodes
    ensures Rev(net, id, v) && (fixed && v in w ==> MinCost(net, id, v) <= q.cost + w[v])
  {
    assert (q, v) in net.heard;
    assert HearingCounts(net, id, o, fixed, w, q, v);
  }

  /** A trail as long as the network has nodes has already passed everywhere. */
  lemma ExhaustedTrailCovers(net: Net, id: U32, o: Address, d: Address, u: Address, c: nat, p: seq<Address>, v: Address)
    requires |p| == 12 && IsTrail(net, id, o, d, u, c, p) && |net.nodes| <= 12 && v in net.nodes
    ensures Rev(net, id, v) && MinCost(net, id, v) <= c
  {
    forall x | x in p ensures x in net.nodes.Keys {
      var i :| 0 <= i < |p| && p[i] == x;
      assert Rev(net, id, p[i]);
    }
    assert |net.nodes| == |net.nodes.Keys|;
    FullSequenceCovers(p, net.nodes.Keys, v);
    var i :| 0 <= i < |p| && p[i] == v;
    assert Rev(net, id, p[i]) && MinCost(net, id, p[i]) <= c;
  }

  lemma AnnouncedFact(net: Net, id: U32, o: Address, d: Address, fixed: bool, w: map<Address, nat>, u: Address)
    requires TrailInv(net, id, o, d, fixed, w) && Rev(net, id, u) && u != d
    ensures Announced(net, id, o, d, u)
  {
    hide Announced;
  }

  /** One radio edge further is reached as well; with link counts fixed, at most the far end's weight is added. */
  lemma EdgeRelaxed(net: Net, id: U32, o: Address, d: Address, m: nat, fixed: bool, w: map<Address, nat>, edges: set<(Address, Address)>, u: Address, v: Address)
    requires TrailInv(net, id, o, d, fixed, w) && TreeInv(net, id, o, d, m) && Quiet(net, id, edges)
    requires |net.nodes| <= 12 && u != d && (u, v) in edges && v in net.nodes && Rev(net, id, u) && Rev(net, id, o)
    ensures Rev(net, id, v) && (fixed && v in w ==> MinCost(net, id, v) <= MinCost(net, id, u) + w[v])
  {
    hide TrailInv, TreeInv, Quiet, IsTrail;
    RevFact(net, id, o, d, m, o);
    AnnouncedFact(net, id, o, d, fixed, w, u);
    if v != o && v != u {
      if q :| RreqFor(net, id, q) && q.from == u && q.cost == MinCost(net, id, u) {
        AnnouncedEdgeRelaxed(net, id, o, d, fixed, w, edges, q, v);
      } else {
        var p :| |p| == ROUTE_RADIUS + 2 && IsTrail(net, id, o, d, u, MinCost(net, id, u), p);
        ExhaustedTrailCovers(net, id, o, d, u, MinCost(net, id, u), p, v);
      }
    }
  }

  /** Every path is covered; with link counts fixed, none is cheaper than the cost held at its end. */
  lemma {:induction false} PathsCovered(net: Net, id: U32, o: Address, d: Address, m: nat, fixed: bool, w: map<Address, nat>, edges: set<(Address, Address)>,
                                        v: Address, p: seq<Address>)
    requires TrailInv(net, id, o, d, fixed, w) && TreeInv(net, id, o, d, m) && Quiet(net, id, edges)
    requires |net.nodes| <= 12 && Rev(net, id, o) && IsPath(net.nodes.Keys, edges, o, d, v, p)
    ensures Rev(net, id, v) && (fixed && net.nodes.Keys <= w.Keys ==> MinCost(net, id, v) <= PathCost(w, p))
    decreases |p|
  {
    hide TrailInv, TreeInv, Quiet;
    if |p| == 1 {
      RevFact(net, id, o, d, m, o);
    } else {
      var front := p[..|p| - 1];
      var u := p[|p| - 2];
      assert front[|front| - 1] == u && (p[|p| - 2], p[|p| - 2 + 1]) in edges;
      PathsCovered(net, id, o, d, m, fixed, w, edges, u, front);
      assert v in net.nodes.Keys;
      EdgeRelaxed(net, id, o, d, m, fixed, w, edges, u, v);
    }
  }

  lemma SentMeansOriginatorKnows(net: Net, id: U32, o: Address, d: Address, m: nat)
    requires TreeInv(net, id, o, d, m) && RequestSent(net, id)
    ensures Rev(net, id, o)
  {
    var q :| RreqFor(net, id, q);
    assert RreqOk(net, id, o, d, m, q);
    hide TreeInv;
    assert Rev(net, id, q.from);
    var p := PathToOriginator(net, id, o, d, m, q.from);
  }

  ghost predicate Reachable(net: Net, edges: set<(Address, Address)>, o: Address, d: Address, v: Address) {
    exists p: seq<Address> :: IsPath(net.nodes.Keys, edges, o, d, v, p)
  }

  /** c is the cost of some path, and no path costs less. */
  ghost predicate IsLeastCost(net: Net, edges: set<(Address, Address)>, o: Address, d: Address, w: map<Address, nat>, v: Address, c: nat) {
    && (exists p: seq<Address> :: IsPath(net.nodes.Keys, edges, o, d, v, p) && PathCost(w, p) == c)
    && (forall p: seq<Address> :: IsPath(net.nodes.Keys, edges, o, d, v, p) ==> c <= PathCost(w, p))
  }

  lemma WeightsKnown(net: Net, w: map<Address, nat>)
    requires HopCostsAre(net, w)
    ensures net.nodes.Keys <= w.Keys
  {
    forall n | n in net.nodes.Keys ensures n in w.Keys { assert n in net.nodes; }
  }

  lemma QuietFloodIsCheapest(net: Net, id: U32, o: Address, d: Address, m: nat, w: map<Address, nat>, edges: set<(Address, Address)>, v: Address)
    requires TrailInv(net, id, o, d, true, w) && TreeInv(net, id, o, d, m) && HopCostsAre(net, w)
    requires |net.nodes| <= 12 && v in net.nodes && RequestSent(net, id) && HeardAlong(net, id, edges) && Quiet(net, id, edges)
    ensures Rev(net, id, v) <==> Reachable(net, edges, o, d, v)
    ensures Rev(net, id, v) ==> IsLeastCost(net, edges, o, d, w, v, MinCost(net, id, v))
  {
    WeightsKnown(net, w);
    hide TrailInv, TreeInv, HopCostsAre, Quiet, HeardAlong, IsPath, RequestSent;
    SentMeansOriginatorKnows(net, id, o, d, m);
    forall p: seq<Address> | IsPath(net.nodes.Keys, edges, o, d, v, p) ensures Rev(net, id, v) && MinCost(net, id, v) <= PathCost(w, p) {
      PathsCovered(net, id, o, d, m, true, w, edges, v, p);
    }
    if Rev(net, id, v) { ExplainedCostIsPathCost(net, id, o, d, w, edges, v); }
  }

  /**
   Whatever becomes of link counts meanwhile: with at most twelve nodes, nothing lost and nothing left to hear, the
   request has reached every node that radio edges connect to its originator without relaying through its destination.
   If requests are heard along radio edges only, it has reached no other.
   */
  lemma FloodReachesConnected(trace: seq<Net>, id: U32, o: Address, d: Address, m: nat, edges: set<(Address, Address)>, v: Address)
    requires IsTrace(trace) && CleanRequest(trace, id, o, d, m)
    requires var net := trace[|trace| - 1];
             |net.nodes| <= 12 && v in net.nodes && RequestSent(net, id) && Quiet(net, id, edges)
    ensures var net := trace[|trace| - 1];
            && (Reachable(net, edges, o, d, v) ==> Rev(net, id, v))
            && (HeardAlong(net, id, edges) ==> (Rev(net, id, v) <==> Reachable(net, edges, o, d, v)))
  {
    var net := trace[|trace| - 1];
    assert Stretch(trace, id, 0, false, map[]);
    hide *;
    TrailsThroughout(trace, id, o, d, m, 0, false, map[], |trace| - 1);
    TreeThroughout(trace, id, o, d, m, |trace| - 1);
    QuietFloodCovers(net, id, o, d, m, edges, v);
    if HeardAlong(net, id, edges) && Rev(net, id, v) {
      NothingBeyondElevenHops(trace, id, o, d, m, edges, |trace| - 1, v);
      var p: seq<Address> :| IsPath(net.nodes.Keys, edges, o, d, v, p) && |p| <= 12;
      PathReaches(net, edges, o, d, v, p);
    }
  }

  lemma QuietFloodCovers(net: Net, id: U32, o: Address, d: Address, m: nat, edges: set<(Address, Address)>, v: Address)
    requires TrailInv(net, id, o, d, false, map[]) && TreeInv(net, id, o, d, m)
    requires |net.nodes| <= 12 && RequestSent(net, id) && Quiet(net, id, edges)
    ensures Reachable(net, edges, o, d, v) ==> Rev(net, id, v)
  {
    hide TrailInv, TreeInv, Quiet, IsPath, RequestSent;
    if Reachable(net, edges, o, d, v) {
      var p: seq<Address> :| IsPath(net.nodes.Keys, edges, o, d, v, p);
      SentMeansOriginatorKnows(net, id, o, d, m);
      PathsCovered(net, id, o, d, m, false, map[], edges, v, p);
    }
  }

  lemma PathReaches(net: Net, edges: set<(Address, Address)>, o: Address, d: Address, v: Address, p: seq<Address>)
    requires IsPath(net.nodes.Keys, edges, o, d, v, p)
    ensures Reachable(net, edges, o, d, v)
  {
  }

  lemma StretchEnds(trace: seq<Net>, id: U32, start: nat, w: map<Address, nat>)
    requires Stretch(trace, id, start, true, w)
    ensures HopCostsAre(trace[|trace| - 1], w)
  {
    hide HopCostsAre;
  }

  /**
   Link counts fixed, at most twelve nodes, nothing lost and nothing left to hear: exactly the nodes that the
   originator reaches without relaying through the destination have an entry, and its cost is the least
   node-weighted path cost.
   */
  lemma FloodFindsCheapestCosts(trace: seq<Net>, id: U32, o: Address, d: Address, m: nat, start: nat, w: map<Address, nat>,
                                edges: set<(Address, Address)>, v: Address)
    requires IsTrace(trace) && CleanRequest(trace, id, o, d, m) && Stretch(trace, id, start, true, w)
    requires var net := trace[|trace| - 1];
             && |net.nodes| <= 12 && v in net.nodes
             && RequestSent(net, id) && HeardAlong(net, id, edges) && Quiet(net, id, edges)
    ensures var net := trace[|trace| - 1];
            && (Rev(net, id, v) <==> Reachable(net, edges, o, d, v))
            && (Rev(net, id, v) ==> IsLeastCost(net, edges, o, d, w, v, MinCost(net, id, v)))
  {
    var net := trace[|trace| - 1];
    hide *;
    StretchEnds(trace, id, start, w);
    TrailsThroughout(trace, id, o, d, m, start, true, w, |trace| - 1);
    TreeThroughout(trace, id, o, d, m, |trace| - 1);
    QuietFloodIsCheapest(net, id, o, d, m, w, edges, v);
  }
}
