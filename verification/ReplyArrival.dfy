/** Replies over whole runs: where nothing sent is lost, the originator hears one and has its route. */
module ReplyArrival {
  import opened Types
  import opened NodeModel
  import opened NodeFacts
  import opened Network
  import opened Effects
  import opened Links
  import opened RouteOrder
  import opened ReversePaths
  import opened ReverseTree
  import opened ReplyProgress
  import CheapestCosts

  /** In step t a node put r on the air. */
  ghost predicate Emits(trace: seq<Net>, t: nat, r: Frame) {
    exists ev :: Happens(trace, t, ev) && r in Acted(trace[t], ev).queue
  }

  /** In step t the addressee of r heard it. */
  ghost predicate Hears(trace: seq<Net>, t: nat, r: Frame)
    requires r.Rrep?
  {
    exists ev :: Happens(trace, t, ev) && ev.HearFrame? && ev.frame == r && ev.node == r.to
  }

  ghost predicate HeardAfter(trace: seq<Net>, t: nat, r: Frame)
    requires r.Rrep?
  {
    exists u :: t < u && Hears(trace, u, r)
  }

  /** No reply is lost: whenever one is put on the air, its addressee hears it some time later. */
  ghost predicate NoReplyLost(trace: seq<Net>, id: U32) {
    forall t, r: Frame :: r.Rrep? && r.id == id && Emits(trace, t, r) ==> HeardAfter(trace, t, r)
  }

  /** One step: the addressee of a reply, hearing it, is the originator or puts it back on the air towards a cheaper node. */
  lemma HearingMovesOn(net: Net, ev: Event, id: U32, o: Address, d: Address, m: nat)
    requires TreeInv(net, id, o, d, m) && Enabled(net, ev) && ev.HearFrame? && RrepFor(net, id, ev.frame) && ev.node == ev.frame.to
    ensures Rev(net, id, ev.node) && ev.node != d && RrepAccepted(net.nodes[ev.node], ev.frame) && ev.frame.orig == o
    ensures TakesRrep(net, ev, Acted(net, ev))
    ensures ev.node != o ==>
              var r := RrepOnward(net.nodes[ev.node], ev.frame);
              && r in Acted(net, ev).queue && r.id == id && r.from == ev.node && r.dstSeq == ev.frame.dstSeq
              && Rev(net, id, r.to) && MinCost(net, id, r.to) < MinCost(net, id, ev.node)
  {
    hide AfterRrep;
    var s, r := net.nodes[ev.node], ev.frame;
    assert RrepOk(net, id, o, d, r);
    assert RevOk(net, id, o, d, m, ev.node);
    assert s.addr == ev.node;
    RrepHasEffect(s, r, ev.now, ev.order);
  }

  /** A reply heard, and when. */
  datatype Hearing = Hearing(time: nat, frame: Frame)

  ghost predicate IsHearing(trace: seq<Net>, id: U32, h: Hearing) {
    h.frame.Rrep? && h.frame.id == id && Hears(trace, h.time, h.frame)
  }

  /** b is the reply that the addressee of a put on the air when it heard a, heard in its turn. */
  ghost predicate PassedOn(trace: seq<Net>, a: Hearing, b: Hearing) {
    && a.time < b.time && a.time < |trace|
    && a.frame.Rrep? && a.frame.to in trace[a.time].nodes && RrepAccepted(trace[a.time].nodes[a.frame.to], a.frame)
    && b.frame == RrepOnward(trace[a.time].nodes[a.frame.to], a.frame)
  }

  /** A reply on its way: each addressee hears it and passes it on to the next. */
  ghost predicate IsRelay(trace: seq<Net>, id: U32, hs: seq<Hearing>) {
    && (forall k :: 0 <= k < |hs| ==> IsHearing(trace, id, hs[k]))
    && forall k :: 0 <= k < |hs| - 1 ==> PassedOn(trace, hs[k], hs[k + 1])
  }

  lemma EmittedIsOnAir(trace: seq<Net>, t: nat, r: Frame)
    requires Emits(trace, t, r)
    ensures t + 1 < |trace| && r in trace[t + 1].air
  {
    hide Acted;
    var ev :| Happens(trace, t, ev) && r in Acted(trace[t], ev).queue;
    NextCommits(trace[t], ev);
  }

  /** The addressee of a reply on the air has the reverse entry, and is not the destination. */
  lemma AddresseeKnows(trace: seq<Net>, id: U32, o: Address, d: Address, m: nat, i: nat, r: Frame)
    requires CleanRequest(trace, id, o, d, m) && i < |trace| && RrepFor(trace[i], id, r)
    ensures Rev(trace[i], id, r.to) && r.to != d && r.orig == o
  {
    TreeThroughout(trace, id, o, d, m, i);
    assert RrepOk(trace[i], id, o, d, r);
  }

  /**
   Over runs: the addressee of a reply, hearing it at step u, has the reverse entry and is not the destination; it is
   the originator, or the reply it then puts on the air is for a node of strictly smaller cost than its own.
   */
  lemma ReplyMovesOn(trace: seq<Net>, id: U32, o: Address, d: Address, m: nat, u: nat, r: Frame)
    requires CleanRequest(trace, id, o, d, m) && r.Rrep? && r.id == id && Hears(trace, u, r)
    ensures u + 1 < |trace| && Rev(trace[u], id, r.to) && r.to in trace[u].nodes && r.to != d && RrepAccepted(trace[u].nodes[r.to], r)
    ensures r.to != o ==>
              var onward := RrepOnward(trace[u].nodes[r.to], r);
              && Emits(trace, u, onward) && onward.Rrep? && onward.id == id && onward.dstSeq == r.dstSeq
              && Rev(trace[u + 1], id, onward.to) && MinCost(trace[u + 1], id, onward.to) < MinCost(trace[u], id, r.to)
  {
    var ev :| Happens(trace, u, ev) && ev.HearFrame? && ev.frame == r && ev.node == r.to;
    TreeThroughout(trace, id, o, d, m, u);
    hide CleanRequest, TreeInv, Acted, Next;
    HearingMovesOn(trace[u], ev, id, o, d, m);
    if r.to != o {
      var onward := RrepOnward(trace[u].nodes[r.to], r);
      assert Emits(trace, u, onward);
      CostsOnlyFall(trace, id, o, d, m, u, u + 1, onward.to);
    }
  }

  /**
   With no reply lost, every reply put on the air gets home: handed from addressee to addressee, while reverse entries
   keep improving, it is heard at the originator after at most as many further hops as the first addressee's cost.
   */
  lemma {:induction false} ReplyGetsHome(trace: seq<Net>, id: U32, o: Address, d: Address, m: nat, t: nat, r: Frame) returns (hs: seq<Hearing>)
    requires CleanRequest(trace, id, o, d, m) && NoReplyLost(trace, id) && r.Rrep? && r.id == id && Emits(trace, t, r)
    ensures t + 1 < |trace| && Rev(trace[t + 1], id, r.to)
    ensures hs != [] && IsRelay(trace, id, hs) && hs[0].frame == r && t < hs[0].time && hs[|hs| - 1].frame.to == o
    ensures |hs| - 1 <= MinCost(trace[t + 1], id, r.to)
    decreases EmissionCost(trace, id, t, r)
  {
    hide *;
    EmittedIsOnAir(trace, t, r);
    EmittedIsFor(trace, id, t, r);
    AddresseeKnows(trace, id, o, d, m, t + 1, r);
    var h := HeardNext(trace, id, t, r);
    ReplyMovesOn(trace, id, o, d, m, h.time, r);
    CostsOnlyFall(trace, id, o, d, m, t + 1, h.time, r.to);
    if r.to == o {
      hs := [h];
      RelayStarts(trace, id, h);
    } else {
      var onward := RrepOnward(trace[h.time].nodes[r.to], r);
      EmissionCostIs(trace, id, t, r);
      EmissionCostIs(trace, id, h.time, onward);
      var rest := ReplyGetsHome(trace, id, o, d, m, h.time, onward);
      HandedOn(trace, h, rest[0]);
      hs := [h] + rest;
      RelayExtends(trace, id, h, rest);
    }
  }

  lemma EmittedIsFor(trace: seq<Net>, id: U32, t: nat, r: Frame)
    requires r.Rrep? && r.id == id && t + 1 < |trace| && r in trace[t + 1].air
    ensures RrepFor(trace[t + 1], id, r)
  {
  }

  lemma HeardNext(trace: seq<Net>, id: U32, t: nat, r: Frame) returns (h: Hearing)
    requires NoReplyLost(trace, id) && r.Rrep? && r.id == id && Emits(trace, t, r)
    ensures t < h.time && h.frame == r && Hears(trace, h.time, r) && IsHearing(trace, id, h)
  {
    hide Emits, Hears;
    assert HeardAfter(trace, t, r);
    var u :| t < u && Hears(trace, u, r);
    h := Hearing(u, r);
  }

  lemma EmissionCostIs(trace: seq<Net>, id: U32, t: nat, r: Frame)
    requires t + 1 < |trace| && r.Rrep? && Rev(trace[t + 1], id, r.to)
    ensures EmissionCost(trace, id, t, r) == MinCost(trace[t + 1], id, r.to)
  {
  }

  lemma HandedOn(trace: seq<Net>, a: Hearing, b: Hearing)
    requires a.time < b.time && a.time < |trace|
    requires a.frame.Rrep? && a.frame.to in trace[a.time].nodes && RrepAccepted(trace[a.time].nodes[a.frame.to], a.frame)
    requires b.frame == RrepOnward(trace[a.time].nodes[a.frame.to], a.frame)
    ensures PassedOn(trace, a, b)
  {
  }

  ghost function EmissionCost(trace: seq<Net>, id: U32, t: nat, r: Frame): nat {
    if t + 1 < |trace| && r.Rrep? && Rev(trace[t + 1], id, r.to) then MinCost(trace[t + 1], id, r.to) else 0
  }

  lemma RelayStarts(trace: seq<Net>, id: U32, h: Hearing)
    requires IsHearing(trace, id, h)
    ensures IsRelay(trace, id, [h])
  {
  }

  lemma RelayExtends(trace: seq<Net>, id: U32, h: Hearing, rest: seq<Hearing>)
    requires IsHearing(trace, id, h) && IsRelay(trace, id, rest) && rest != [] && PassedOn(trace, h, rest[0])
    ensures IsRelay(trace, id, [h] + rest)
  {
    hide IsHearing, PassedOn;
    var hs := [h] + rest;
    forall k | 0 <= k < |hs| - 1 ensures PassedOn(trace, hs[k], hs[k + 1]) {
      if k > 0 { assert PassedOn(trace, rest[k - 1], rest[k - 1 + 1]); }
    }
  }

  // ----- the request answered -----

  /** The step in which the destination first got the request, and the reply it then sent. */
  lemma {:induction false} DestinationAnswers(trace: seq<Net>, id: U32, o: Address, d: Address, m: nat, i: nat) returns (t: nat, r: Frame)
    requires CleanRequest(trace, id, o, d, m) && i < |trace| && Rev(trace[i], id, d)
    ensures t < i && r.Rrep? && r.id == id && Emits(trace, t, r)
    decreases i
  {
    hide *;
    if i == 0 {
      NothingReversedYet(trace, id, o, d, m);
      assert false;
    } else if Rev(trace[i - 1], id, d) {
      t, r := DestinationAnswers(trace, id, o, d, m, i - 1);
    } else {
      CleanIsTrace(trace, id, o, d, m);
      var ev := SomethingHappens(trace, i - 1);
      t := i - 1;
      r := FirstEntryAnswers(trace, id, o, d, m, t, ev);
    }
  }

  lemma CleanIsTrace(trace: seq<Net>, id: U32, o: Address, d: Address, m: nat)
    requires CleanRequest(trace, id, o, d, m)
    ensures IsTrace(trace)
  {
  }

  lemma NothingReversedYet(trace: seq<Net>, id: U32, o: Address, d: Address, m: nat)
    requires CleanRequest(trace, id, o, d, m)
    ensures !Rev(trace[0], id, d)
  {
  }

  lemma StarterIsOriginator(net: Net, ev: Event, o: Address, d: Address)
    requires WellFormed(net) && Enabled(net, ev) && StartsRequest(net, ev, Acted(net, ev)) && BelongsTo(Next(net, ev), ev.id, o, d)
    ensures ev.node == o
  {
    RequestEnters(net, ev);
    hide Acted, Next;
    var f := FirstRreq(net.nodes[ev.node], ev.dest, ev.id);
    assert RreqFor(Next(net, ev), ev.id, f);
  }

  lemma FirstEntryAnswers(trace: seq<Net>, id: U32, o: Address, d: Address, m: nat, t: nat, ev: Event) returns (r: Frame)
    requires CleanRequest(trace, id, o, d, m) && Happens(trace, t, ev) && !Rev(trace[t], id, d) && Rev(trace[t + 1], id, d)
    ensures r.Rrep? && r.id == id && Emits(trace, t, r)
  {
    var net := trace[t];
    TreeThroughout(trace, id, o, d, m, t);
    TreeThroughout(trace, id, o, d, m, t + 1);
    CleanEarlier(trace, id, o, d, m, t);
    CleanEarlier(trace, id, o, d, m, t + 1);
    assert WellFormed(net) && o != d;
    hide CleanRequest, TreeInv, Acted, Next, HopCostsWithin, BelongsTo;
    if StartsRequest(net, ev, Acted(net, ev)) && ev.id == id {
      StarterIsOriginator(net, ev, o, d);
      RequestEnters(net, ev);
      assert false;
    } else if TakesRreq(net, ev, Acted(net, ev)) && ev.frame.id == id {
      RreqEnters(net, ev);
      assert RreqFor(net, id, ev.frame) && ev.frame.dest == d by { assert BelongsTo(net, id, o, d); RequestIsFor(net, id, o, d, ev.frame); }
      assert net.nodes[ev.node].addr == ev.node == d;
      r := RreqAnswer(net.nodes[ev.node], ev.frame);
    } else {
      UntouchedByOthers(net, ev, id);
      assert false;
    }
  }

  /** An originator that hears the reply has a route to the destination from then on. */
  lemma HomeGivesRoute(trace: seq<Net>, id: U32, o: Address, d: Address, m: nat, u: nat, r: Frame)
    requires CleanRequest(trace, id, o, d, m) && r.Rrep? && r.id == id && Hears(trace, u, r) && r.to == o
    ensures Has(trace[|trace| - 1], o, d)
  {
    hide TreeInv, Acted, Next;
    var ev :| Happens(trace, u, ev) && ev.HearFrame? && ev.frame == r && ev.node == r.to;
    TreeThroughout(trace, id, o, d, m, u);
    HearingGivesRoute(trace[u], ev, id, o, d, m);
    assert IsTrace(trace);
    hide CleanRequest, Happens;
    TraceGrows(trace, u + 1, |trace| - 1);
    assert d in trace[u + 1].nodes[o].routes.Keys;
  }

  lemma HearingGivesRoute(net: Net, ev: Event, id: U32, o: Address, d: Address, m: nat)
    requires TreeInv(net, id, o, d, m) && Enabled(net, ev) && ev.HearFrame? && RrepFor(net, id, ev.frame) && ev.node == ev.frame.to == o
    ensures Has(Next(net, ev), o, d)
  {
    hide TreeInv, Acted, Next;
    HearingMovesOn(net, ev, id, o, d, m);
    RevFact(net, id, o, d, m, o);
    assert d in Acted(net, ev).routes;
    NextCommits(net, ev);
  }

  lemma RequestIsFor(net: Net, id: U32, o: Address, d: Address, q: Frame)
    requires BelongsTo(net, id, o, d) && RreqFor(net, id, q)
    ensures q.orig == o && q.dest == d
  {
  }

  /**
   Main result: if the request has reached its destination and no reply is lost, the originator hears a reply passed
   down the reverse path, and has a route to the destination at the end of the run.
   */
  lemma RequestIsAnswered(trace: seq<Net>, id: U32, o: Address, d: Address, m: nat, i: nat)
    requires CleanRequest(trace, id, o, d, m) && NoReplyLost(trace, id) && i < |trace| && Rev(trace[i], id, d)
    ensures exists u, r: Frame :: r.Rrep? && r.id == id && r.to == o && Hears(trace, u, r)
    ensures Has(trace[|trace| - 1], o, d)
  {
    hide CleanRequest, NoReplyLost;
    var t, r := DestinationAnswers(trace, id, o, d, m, i);
    var hs := ReplyGetsHome(trace, id, o, d, m, t, r);
    var last := hs[|hs| - 1];
    assert IsHearing(trace, id, last);
    hide Hears;
    assert Hears(trace, last.time, last.frame);
    HomeGivesRoute(trace, id, o, d, m, last.time, last.frame);
  }

  /**
   Route discovery succeeds: in a network of at most twelve nodes, where the flood of a request loses nothing and no
   reply is lost, the originator ends with a route to any destination that radio edges connect it to.  Links may be
   set up all the while, as discovery itself does.
   */
  lemma DiscoverySucceeds(trace: seq<Net>, id: U32, o: Address, d: Address, m: nat, edges: set<(Address, Address)>)
    requires IsTrace(trace) && CleanRequest(trace, id, o, d, m) && NoReplyLost(trace, id)
    requires var net := trace[|trace| - 1];
             && |net.nodes| <= 12 && d in net.nodes && RequestSent(net, id)
             && CheapestCosts.Quiet(net, id, edges) && CheapestCosts.Reachable(net, edges, o, d, d)
    ensures Has(trace[|trace| - 1], o, d)
  {
    assert |trace| > 0;
    hide *;
    CheapestCosts.FloodReachesConnected(trace, id, o, d, m, edges, d);
    RequestIsAnswered(trace, id, o, d, m, |trace| - 1);
  }
}
