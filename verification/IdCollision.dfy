/** Why request ids must not collide: two requests sharing an id are enough for a routing loop. */
module IdCollision {
  import opened Types
  import opened NodeModel
  import opened NodeFacts
  import opened Effects
  import opened DataEffects
  import opened Network
  import opened RouteOrder
  import opened LoopFreedom
  import opened Links
  import opened ReplyProgress

  const P: Address := 0
  const E: Address := 1
  const D: Address := 2
  const Q: Address := 3

  function Rreq7(): Frame { Rreq(E, Q, Q, 7, 1, 0, 10) }
  function Rreq8(): Frame { Rreq(D, E, E, 8, 1, 0, 10) }
  function Rreq8Relayed(): Frame { Rreq(D, P, E, 8, 1, 1, 9) }
  function Rrep7(): Frame { Rrep(Q, E, Q, 7, 1, 1) }
  function Rrep8(): Frame { Rrep(P, D, E, 8, 0, 1) }
  function Rrep8Relayed(): Frame { Rrep(E, P, E, 8, 0, 2) }

  /** A node that has just asked for `dest`, having done nothing else. */
  function Asking(n: Address, dest: Address, id: U32): State {
    Fresh(n, {}).(seqNo := 1, reversePaths := map[id := ReverseEntry(dest, n, 0)],
                  lastRreq := map[dest := 0], pendingRoutes := map[dest := [[1]]])
  }

  /** Only node n changed, and frames stayed on the air. */
  ghost predicate OnlyNode(net: Net, net': Net, n: Address) {
    && WellFormed(net') && net'.nodes.Keys == net.nodes.Keys && net.air <= net'.air
    && forall k :: k in net.nodes && k != n ==> net'.nodes[k] == net.nodes[k]
  }

  lemma CommitsOnlyNode(net: Net, net': Net, n: Address, t: State)
    requires WellFormed(net) && Commits(net, net', n, t) && t.addr == n
    ensures OnlyNode(net, net', n)
  {
  }

  lemma FirstRequest(net: Net, n: Address, dest: Address, id: U32) returns (net': Net)
    requires n in net.nodes && net.nodes[n] == Fresh(n, {}) && dest != n && WellFormed(net)
    ensures Step(net, net') && OnlyNode(net, net', n) && net'.nodes[n] == Asking(n, dest, id)
    ensures Rreq(dest, n, n, id, 1, 0, 10) in net'.air
  {
    var ev := Submit(n, dest, [1], 0, id);
    net' := Next(net, ev);
    assert Enabled(net, ev);
    assert Parked([], [1]) == [[1]];
    var t := Asking(n, dest, id).(queue := [Rreq(dest, n, n, id, 1, 0, 10)]);
    assert Acted(net, ev) == t;
    hide Acted, Next, Enabled, OnlyNode;
    NextCommits(net, ev);
    CommitsOnlyNode(net, net', n, t);
  }

  /** What the first RREQ of a request does to a node without links. */
  lemma FirstTake(s: State, q: Frame)
    requires q.Rreq? && q.from != s.addr && q.orig != s.addr && s.links == map[]
    requires q.id !in s.reversePaths && q.orig !in s.routes && q.cost < 100 && q.radius > 0 && s.queue == []
    ensures var t := AfterRreq(s, q);
            && t.routes == s.routes[q.orig := RouteEntry(q.from, q.cost + 1, q.origSeq)]
            && t.reversePaths == s.reversePaths[q.id := ReverseEntry(q.dest, q.from, q.cost + 1)]
            && t.links == map[]
            && t.queue == [if q.dest == s.addr then Rrep(q.from, s.addr, q.orig, q.id, Truncate(s.seqNo), 1)
                           else q.(from := s.addr, cost := q.cost + 1, radius := q.radius - 1)]
  {
  }

  /** Node n hears a RREQ. */
  lemma RequestHeard(net: Net, n: Address, q: Frame) returns (net': Net)
    requires n in net.nodes && WellFormed(net) && q.Rreq? && q in net.air
    ensures Step(net, net') && OnlyNode(net, net', n)
    ensures net'.nodes[n] == Settled(AfterRreq(net.nodes[n], q))
    ensures forall f :: f in AfterRreq(net.nodes[n], q).queue ==> f in net'.air
  {
    hide OnlyNode, AfterRreq;
    var s := net.nodes[n];
    var ev := HearFrame(n, q, 0, AnyOrder(s.pendingRoutes.Keys));
    net' := Next(net, ev);
    assert Enabled(net, ev);
    var t := AfterRreq(s, q);
    assert Acted(net, ev) == t;
    RreqRest(s, q);
    hide Acted, Next, Enabled;
    NextCommits(net, ev);
    CommitsOnlyNode(net, net', n, t);
  }

  /** Node n hears a RREP, addressed to it or not, about a request it has a reverse entry for. */
  lemma ReplyHeard(net: Net, n: Address, r: Frame) returns (net': Net)
    requires n in net.nodes && WellFormed(net) && r.Rrep? && r in net.air && RrepAccepted(net.nodes[n], r) && net.nodes[n].links == map[]
    ensures Step(net, net') && OnlyNode(net, net', n)
    ensures net'.nodes[n].routes == RrepRoutes(net.nodes[n], r) && net'.nodes[n].reversePaths == net.nodes[n].reversePaths
    ensures net'.nodes[n].links == map[]
    ensures RrepForwarded(net.nodes[n], r) ==> RrepOnward(net.nodes[n], r) in net'.air
  {
    hide AfterRrep, OnlyNode;
    var s := net.nodes[n];
    var ev := HearFrame(n, r, 0, AnyOrder(s.pendingRoutes.Keys));
    net' := Next(net, ev);
    assert Enabled(net, ev);
    assert Acted(net, ev) == AfterRrep(s, r, 0, ev.order);
    hide Acted, Next, Enabled;
    NextCommits(net, ev);
    RrepTables(s, r, 0, ev.order);
    RrepFrames(s, r, 0, ev.order);
    RrepLinks(s, r, 0, ev.order);
    CommitsOnlyNode(net, net', n, AfterRrep(s, r, 0, ev.order));
  }

  lemma TraceExtends(trace: seq<Net>, net: Net)
    requires IsTrace(trace) && Step(trace[|trace| - 1], net)
    ensures IsTrace(trace + [net])
  {
    hide Step;
    var t := trace + [net];
    forall i | 0 <= i < |t| - 1 ensures Step(t[i], t[i + 1]) {
      if i < |trace| - 1 { assert Step(trace[i], trace[i + 1]); }
    }
  }

  lemma SilentStart() returns (net: Net)
    ensures Init(net) && WellFormed(net) && net.nodes.Keys == {P, E, D, Q}
    ensures forall n :: n in net.nodes ==> net.nodes[n] == Fresh(n, {})
  {
    net := Net(map[P := Fresh(P, {}), E := Fresh(E, {}), D := Fresh(D, {}), Q := Fresh(Q, {})], {}, [], 0,
               (n: Address, d: Address) => 0, {}, {}, {});
  }

  lemma ThreeRequests() returns (trace: seq<Net>)
    ensures IsTrace(trace) && |trace| > 0 && Asked(trace[|trace| - 1])
  {
    hide Step, WellFormed, Fresh, Asking, Init;
    var n0 := SilentStart();
    var n1 := FirstRequest(n0, E, D, 8);
    var n2 := FirstRequest(n1, P, D, 7);
    var n3 := FirstRequest(n2, Q, E, 7);
    trace := [n0, n1, n2, n3];
  }

  /** E has asked for D under id 8; P has asked for D, and Q for E, both under id 7. */
  ghost predicate Asked(net: Net) {
    && net.nodes.Keys == {P, E, D, Q} && WellFormed(net)
    && net.nodes[P] == Asking(P, D, 7) && net.nodes[E] == Asking(E, D, 8) && net.nodes[Q] == Asking(Q, E, 7) && net.nodes[D] == Fresh(D, {})
    && Rreq7() in net.air && Rreq(D, P, P, 7, 1, 0, 10) in net.air && Rreq8() in net.air
  }

  /** Hearing E's reply to Q, P learns a route to D through E: its own id 7 asked for D. */
  ghost predicate Misled(net: Net) {
    && net.nodes.Keys == {P, E, D, Q} && WellFormed(net)
    && Rreq7() in net.air && Rreq(D, P, P, 7, 1, 0, 10) in net.air && Rreq8() in net.air
    && net.nodes[P].routes == map[D := RouteEntry(E, 2, 1)] && net.nodes[P].reversePaths == map[7 := ReverseEntry(D, P, 0)]
    && D !in net.nodes[E].routes && 8 in net.nodes[E].reversePaths && net.nodes[E].reversePaths[8].dest == D
    && net.nodes[D] == Fresh(D, {}) && net.nodes[P].links == net.nodes[E].links == map[]
  }

  lemma EAnswers(n3: Net) returns (n4: Net)
    requires Asked(n3)
    ensures Step(n3, n4) && OnlyNode(n3, n4, E) && Rrep7() in n4.air
    ensures D !in n4.nodes[E].routes && 8 in n4.nodes[E].reversePaths && n4.nodes[E].reversePaths[8].dest == D && n4.nodes[E].links == map[]
  {
    hide Step, AfterRreq;
    FirstTake(n3.nodes[E], Rreq7());
    n4 := RequestHeard(n3, E, Rreq7());
    assert Rrep7() in AfterRreq(n3.nodes[E], Rreq7()).queue;
  }

  lemma POverhears(n3: Net, n4: Net) returns (n5: Net)
    requires Asked(n3) && OnlyNode(n3, n4, E) && Rrep7() in n4.air
    requires D !in n4.nodes[E].routes && 8 in n4.nodes[E].reversePaths && n4.nodes[E].reversePaths[8].dest == D && n4.nodes[E].links == map[]
    ensures Step(n4, n5) && Misled(n5)
  {
    hide Step;
    n5 := ReplyHeard(n4, P, Rrep7());
  }

  lemma PMisled() returns (trace: seq<Net>)
    ensures IsTrace(trace) && |trace| > 0 && Misled(trace[|trace| - 1])
  {
    hide Step, IsTrace, Init, Misled, Asked, OnlyNode;
    var t3 := ThreeRequests();
    var n4 := EAnswers(t3[|t3| - 1]);
    var n5 := POverhears(t3[|t3| - 1], n4);
    TraceExtends(t3, n4);
    TraceExtends(t3 + [n4], n5);
    trace := t3 + [n4] + [n5];
  }

  /** P has relayed E's request, and D has answered it. */
  ghost predicate Answered(net: Net) {
    && net.nodes.Keys == {P, E, D, Q} && WellFormed(net)
    && Rreq7() in net.air && Rreq(D, P, P, 7, 1, 0, 10) in net.air && Rrep8() in net.air
    && net.nodes[P].routes == map[D := RouteEntry(E, 2, 1), E := RouteEntry(E, 1, 1)]
    && 8 in net.nodes[P].reversePaths && net.nodes[P].reversePaths[8] == ReverseEntry(D, E, 1)
    && D !in net.nodes[E].routes && 8 in net.nodes[E].reversePaths && net.nodes[E].reversePaths[8].dest == D
    && net.nodes[P].links == net.nodes[E].links == map[]
  }

  lemma DAnswers(net: Net) returns (net1: Net, net2: Net)
    requires Misled(net)
    ensures Step(net, net1) && Step(net1, net2) && Answered(net2)
  {
    hide Step, AfterRreq;
    FirstTake(net.nodes[P], Rreq8());
    net1 := RequestHeard(net, P, Rreq8());
    assert Rreq8Relayed() in AfterRreq(net.nodes[P], Rreq8()).queue;
    FirstTake(net1.nodes[D], Rreq8Relayed());
    net2 := RequestHeard(net1, D, Rreq8Relayed());
    assert Rrep8() in AfterRreq(net1.nodes[D], Rreq8Relayed()).queue;
  }

  /** D's reply does not displace P's newer-looking route, but P passes it on. */
  lemma PForwards(net: Net) returns (net1: Net)
    requires Answered(net)
    ensures Step(net, net1) && OnlyNode(net, net1, P) && Rrep8Relayed() in net1.air
    ensures net1.nodes[P].routes == net.nodes[P].routes
  {
    hide Step, OnlyNode;
    net1 := ReplyHeard(net, P, Rrep8());
    assert RrepOnward(net.nodes[P], Rrep8()) == Rrep8Relayed();
  }

  lemma EIsMisledToo(net: Net, net1: Net) returns (net2: Net)
    requires Answered(net) && OnlyNode(net, net1, P) && Rrep8Relayed() in net1.air && net1.nodes[P].routes == net.nodes[P].routes
    ensures Step(net1, net2) && net.air <= net2.air && IsWalk(net2, D, [P, E, P])
  {
    hide Step, IsWalk;
    net2 := ReplyHeard(net1, E, Rrep8Relayed());
    RoundTrip(net2);
  }

  lemma RoundTrip(net: Net)
    requires Has(net, P, D) && Entry(net, P, D).nextHop == E && Has(net, E, D) && Entry(net, E, D).nextHop == P
    ensures IsWalk(net, D, [P, E, P])
  {
  }

  /** Two requests sharing id 7 suffice: P routes D through E, and E routes D through P. */
  lemma CollidingIdsLoop() returns (trace: seq<Net>)
    ensures IsTrace(trace) && !ConsistentIds(trace[|trace| - 1])
    ensures IsWalk(trace[|trace| - 1], D, [P, E, P])
  {
    hide Step, IsTrace, IsWalk, Misled, OnlyNode;
    var t5 := PMisled();
    var n6, n7 := DAnswers(t5[|t5| - 1]);
    var n8 := PForwards(n7);
    var n9 := EIsMisledToo(n7, n8);
    TraceExtends(t5, n6);
    TraceExtends(t5 + [n6], n7);
    TraceExtends(t5 + [n6] + [n7], n8);
    TraceExtends(t5 + [n6] + [n7] + [n8], n9);
    trace := t5 + [n6] + [n7] + [n8] + [n9];
    var f, g := Rreq7(), Rreq(D, P, P, 7, 1, 0, 10);
    assert f in n9.air && g in n9.air && f.id == g.id && f.dest != g.dest;
  }

  /** The same requests with the same ids need not lead to a loop: as long as none is heard, no node has any route. */
  lemma CollisionWithoutLoop() returns (trace: seq<Net>)
    ensures IsTrace(trace) && !ConsistentIds(trace[|trace| - 1])
    ensures Rreq7() in trace[|trace| - 1].air && Rreq(D, P, P, 7, 1, 0, 10) in trace[|trace| - 1].air
    ensures forall i, n, d :: 0 <= i < |trace| ==> !Has(trace[i], n, d)
  {
    trace := ThreeRequests();
    var last := trace[|trace| - 1];
    var f, g := Rreq7(), Rreq(D, P, P, 7, 1, 0, 10);
    assert f in last.air && g in last.air && f.id == g.id && f.dest != g.dest;
    NoRoutesAsked(last);
    hide Asked, Step, Init;
    forall i, n, d | 0 <= i < |trace| ensures !Has(trace[i], n, d) {
      TraceGrows(trace, i, |trace| - 1);
      NoRouteEarlier(trace[i], last, n, d);
    }
  }

  lemma NoRoutesAsked(net: Net)
    requires Asked(net)
    ensures forall n, d :: !Has(net, n, d)
  {
    forall n | n in net.nodes ensures net.nodes[n].routes == map[] {
      assert n in net.nodes.Keys;
    }
  }

  lemma NoRouteEarlier(net: Net, later: Net, n: Address, d: Address)
    requires Grows(net, later) && !Has(later, n, d)
    ensures !Has(net, n, d)
  {
    if n in net.nodes { assert n in later.nodes.Keys; }
  }
}
