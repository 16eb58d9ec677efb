/** Rebroadcasts of a request as they happen in a run: how far they go, and what costs they add up. */
module Cascades {
  import opened Types
  import opened NodeModel
  import opened Network
  import opened Effects
  import opened ReversePaths
  import opened ReverseTree
  import opened ReplyProgress

  // ----- chains of rebroadcasts -----

  /** In step t a node took the request q up and rebroadcast it as f. */
  ghost predicate Relays(trace: seq<Net>, t: nat, q: Frame, f: Frame) {
    exists ev :: Happens(trace, t, ev) && RelaysIn(trace[t], ev, q, f)
  }

  ghost predicate RelaysIn(net: Net, ev: Event, q: Frame, f: Frame)
    requires Enabled(net, ev)
  {
    && TakesRreq(net, ev, Acted(net, ev)) && ev.frame == q && q.dest != ev.node && q.radius > 0
    && f == RreqOnward(net.nodes[ev.node], q)
  }

  /** Request qs[k] was heard and rebroadcast as qs[k + 1] in step ts[k], one step after another. */
  ghost predicate IsCascade(trace: seq<Net>, id: U32, qs: seq<Frame>, ts: seq<nat>) {
    && |qs| == |ts| + 1 && |ts| > 0
    && (forall k :: 0 <= k < |qs| ==> qs[k].Rreq? && qs[k].id == id)
    && (forall k :: 0 <= k < |ts| ==> Relays(trace, ts[k], qs[k], qs[k + 1]))
    && forall j, k :: 0 <= j < k < |ts| ==> ts[j] < ts[k]
  }

  /** A rebroadcast carries one hop less and strictly more cost, and undercuts whatever cost its sender had before. */
  lemma RelayStep(trace: seq<Net>, id: U32, o: Address, d: Address, m: nat, t: nat, q: Frame, f: Frame)
    requires CleanRequest(trace, id, o, d, m) && q.Rreq? && q.id == id && Relays(trace, t, q, f)
    ensures t + 1 < |trace| && RreqFor(trace[t], id, q) && f.Rreq? && q.radius <= ROUTE_RADIUS
    ensures f.radius + 1 == q.radius && q.cost < f.cost && (Rev(trace[t], id, f.from) ==> f.cost < MinCost(trace[t], id, f.from))
  {
    var ev :| Happens(trace, t, ev) && RelaysIn(trace[t], ev, q, f);
    TreeThroughout(trace, id, o, d, m, t);
    CleanEarlier(trace, id, o, d, m, t);
    assert trace[t].nodes[ev.node].addr == ev.node;
    assert RreqFor(trace[t], id, q);
    hide CleanRequest, TreeInv, Acted, Next, HopCostsWithin, BelongsTo, EntryAllowed, TakesRreq;
    RreqBrings(trace[t], ev, id, o, d, m);
    RreqFact(trace[t], id, o, d, m, q);
  }

  lemma {:induction false} CostsRise(trace: seq<Net>, id: U32, o: Address, d: Address, m: nat, qs: seq<Frame>, ts: seq<nat>, i: nat, j: nat)
    requires CleanRequest(trace, id, o, d, m) && IsCascade(trace, id, qs, ts) && i <= j < |qs|
    ensures qs[i].cost <= qs[j].cost && qs[i].radius == qs[j].radius + (j - i)
    decreases j
  {
    hide CleanRequest, Relays;
    if i < j {
      CostsRise(trace, id, o, d, m, qs, ts, i, j - 1);
      assert Relays(trace, ts[j - 1], qs[j - 1], qs[j - 1 + 1]);
      RelayStep(trace, id, o, d, m, ts[j - 1], qs[j - 1], qs[j]);
    }
  }

  /** Whoever sent request i of a cascade held at most its cost from when it was first heard on. */
  lemma SenderHolds(trace: seq<Net>, id: U32, o: Address, d: Address, m: nat, q: Frame, t: nat, u: nat)
    requires CleanRequest(trace, id, o, d, m) && t <= u < |trace| && RreqFor(trace[t], id, q)
    ensures Rev(trace[u], id, q.from) && MinCost(trace[u], id, q.from) <= q.cost
  {
    AirGrows(trace, t, u);
    TreeThroughout(trace, id, o, d, m, u);
    assert RreqFor(trace[u], id, q);
    hide CleanRequest;
    assert RreqOk(trace[u], id, o, d, m, q);
  }

  lemma SendersDiffer(trace: seq<Net>, id: U32, o: Address, d: Address, m: nat, qs: seq<Frame>, ts: seq<nat>, i: nat, j: nat)
    requires CleanRequest(trace, id, o, d, m) && IsCascade(trace, id, qs, ts) && i < j < |qs|
    ensures qs[i].from != qs[j].from
  {
    hide CleanRequest, Relays;
    assert Relays(trace, ts[i], qs[i], qs[i + 1]) && Relays(trace, ts[j - 1], qs[j - 1], qs[j - 1 + 1]);
    RelayStep(trace, id, o, d, m, ts[i], qs[i], qs[i + 1]);
    RelayStep(trace, id, o, d, m, ts[j - 1], qs[j - 1], qs[j]);
    CostsRise(trace, id, o, d, m, qs, ts, i, j - 1);
    assert ts[i] <= ts[j - 1];
    SenderHolds(trace, id, o, d, m, qs[i], ts[i], ts[j - 1]);
  }

  /** Main result: every chain of rebroadcasts in any run has at most eleven transmissions, all by different nodes. */
  lemma CascadesAreShort(trace: seq<Net>, id: U32, o: Address, d: Address, m: nat, qs: seq<Frame>, ts: seq<nat>)
    requires CleanRequest(trace, id, o, d, m) && IsCascade(trace, id, qs, ts)
    ensures |qs| <= 11
    ensures forall i, j :: 0 <= i < j < |qs| ==> qs[i].from != qs[j].from
  {
    hide CleanRequest, Relays;
    assert Relays(trace, ts[0], qs[0], qs[0 + 1]);
    RelayStep(trace, id, o, d, m, ts[0], qs[0], qs[1]);
    CostsRise(trace, id, o, d, m, qs, ts, 0, |qs| - 1);
    forall i, j | 0 <= i < j < |qs| ensures qs[i].from != qs[j].from {
      SendersDiffer(trace, id, o, d, m, qs, ts, i, j);
    }
  }

  // ----- what a cost is made of -----

  /** In step t node v heard a transmission of the request by u. */
  ghost predicate HeardAt(trace: seq<Net>, t: nat, id: U32, u: Address, v: Address) {
    exists ev :: Happens(trace, t, ev) && HearsFrom(ev, id, u, v)
  }

  predicate HearsFrom(ev: Event, id: U32, u: Address, v: Address) {
    ev.HearFrame? && ev.frame.Rreq? && ev.frame.id == id && ev.frame.from == u && ev.node == v
  }

  /** A hearing: in step `time` node `to` heard a transmission of the request by node `from`. */
  datatype Link = Link(time: nat, from: Address, to: Address)

  ghost predicate IsLink(trace: seq<Net>, id: U32, d: Address, i: nat, l: Link) {
    l.time < i <= |trace| && l.from != d && l.to in trace[l.time].nodes && HeardAt(trace, l.time, id, l.from, l.to)
  }

  /** Where a history that starts at o has got to. */
  function Reached(o: Address, hist: seq<Link>): Address {
    if hist == [] then o else hist[|hist| - 1].to
  }

  /** Hearings up to step i, one after another and each by the next sender, starting at o and none relayed by d. */
  ghost predicate IsHistory(trace: seq<Net>, id: U32, o: Address, d: Address, i: nat, hist: seq<Link>) {
    && (forall k :: 0 <= k < |hist| ==> IsLink(trace, id, d, i, hist[k]))
    && (forall k :: 0 <= k < |hist| ==> hist[k].from == Reached(o, hist[..k]))
    && forall j, k :: 0 <= j < k < |hist| ==> hist[j].time < hist[k].time
  }

  /** The hop costs that the hearers had at those moments, added up. */
  function HopSum(trace: seq<Net>, hist: seq<Link>): nat {
    if hist == [] then 0
    else
      var l := hist[|hist| - 1];
      HopSum(trace, hist[..|hist| - 1]) + (if l.time < |trace| && l.to in trace[l.time].nodes then 1 + |trace[l.time].nodes[l.to].links| else 0)
  }

  /** The cost c of node n is what some history that leads to n added up to. */
  ghost predicate AddsUp(trace: seq<Net>, id: U32, o: Address, d: Address, i: nat, n: Address, c: nat) {
    exists hist: seq<Link> :: IsHistory(trace, id, o, d, i, hist) && Reached(o, hist) == n && HopSum(trace, hist) == c
  }

  lemma AddsUpLater(trace: seq<Net>, id: U32, o: Address, d: Address, i: nat, j: nat, n: Address, c: nat)
    requires AddsUp(trace, id, o, d, i, n, c) && i <= j <= |trace|
    ensures AddsUp(trace, id, o, d, j, n, c)
  {
    hide HeardAt;
    var hist: seq<Link> :| IsHistory(trace, id, o, d, i, hist) && Reached(o, hist) == n && HopSum(trace, hist) == c;
    assert IsHistory(trace, id, o, d, j, hist);
  }

  lemma OriginatorAddsUp(trace: seq<Net>, id: U32, o: Address, d: Address, i: nat)
    ensures AddsUp(trace, id, o, d, i, o, 0)
  {
    var hist: seq<Link> := [];
    assert IsHistory(trace, id, o, d, i, hist) && HopSum(trace, hist) == 0;
  }

  lemma HistoryExtends(trace: seq<Net>, id: U32, o: Address, d: Address, t: nat, hist: seq<Link>, l: Link)
    requires IsHistory(trace, id, o, d, t, hist) && l.time == t && l.from == Reached(o, hist) && IsLink(trace, id, d, t + 1, l)
    ensures IsHistory(trace, id, o, d, t + 1, hist + [l])
  {
    hide HeardAt;
    var longer := hist + [l];
    forall k | 0 <= k < |longer| ensures IsLink(trace, id, d, t + 1, longer[k]) {
      if k < |hist| { assert IsLink(trace, id, d, t, hist[k]); }
    }
    TimesRise(trace, id, o, d, t, hist, l);
    hide IsLink;
    forall k | 0 <= k < |longer| ensures longer[k].from == Reached(o, longer[..k]) {
      assert longer[..k] == if k < |hist| then hist[..k] else hist;
    }
  }

  lemma TimesRise(trace: seq<Net>, id: U32, o: Address, d: Address, t: nat, hist: seq<Link>, l: Link)
    requires IsHistory(trace, id, o, d, t, hist) && l.time == t
    ensures forall j, k :: 0 <= j < k < |hist + [l]| ==> (hist + [l])[j].time < (hist + [l])[k].time
  {
    hide HeardAt, Reached;
    forall j | 0 <= j < |hist| ensures hist[j].time < t {
      assert IsLink(trace, id, d, t, hist[j]);
    }
  }

  /** One more hearing. */
  lemma HearingAddsUp(trace: seq<Net>, id: U32, o: Address, d: Address, t: nat, u: Address, v: Address, c: nat)
    requires AddsUp(trace, id, o, d, t, u, c) && t < |trace| && u != d && v in trace[t].nodes && HeardAt(trace, t, id, u, v)
    ensures AddsUp(trace, id, o, d, t + 1, v, c + 1 + |trace[t].nodes[v].links|)
  {
    var hist: seq<Link> :| IsHistory(trace, id, o, d, t, hist) && Reached(o, hist) == u && HopSum(trace, hist) == c;
    var l := Link(t, u, v);
    assert IsLink(trace, id, d, t + 1, l);
    hide IsHistory, IsLink, HeardAt;
    HistoryExtends(trace, id, o, d, t, hist, l);
    assert (hist + [l])[..|hist|] == hist;
    assert HopSum(trace, hist + [l]) == c + 1 + |trace[t].nodes[v].links|;
  }

  ghost predicate EntryAddsUp(trace: seq<Net>, id: U32, o: Address, d: Address, i: nat, n: Address)
    requires i < |trace| && Rev(trace[i], id, n)
  {
    AddsUp(trace, id, o, d, i, n, MinCost(trace[i], id, n))
  }

  ghost predicate AllAddUp(trace: seq<Net>, id: U32, o: Address, d: Address, i: nat)
    requires i < |trace|
  {
    && (forall q :: RreqFor(trace[i], id, q) ==> AddsUp(trace, id, o, d, i, q.from, q.cost))
    && forall n :: Rev(trace[i], id, n) ==> EntryAddsUp(trace, id, o, d, i, n)
  }

  lemma EntersAddsUp(trace: seq<Net>, id: U32, o: Address, d: Address, t: nat, n: Address, e: ReverseEntry, fs: set<Frame>)
    requires t + 1 < |trace| && AllAddUp(trace, id, o, d, t) && Enters(trace[t], trace[t + 1], id, n, e, fs)
    requires AddsUp(trace, id, o, d, t + 1, n, e.minCost)
    requires forall f :: f in fs ==> f.Rreq? && f.from == n && f.cost == e.minCost
    ensures AllAddUp(trace, id, o, d, t + 1)
  {
    hide AddsUp;
    var j := t + 1;
    forall q | RreqFor(trace[j], id, q) ensures AddsUp(trace, id, o, d, j, q.from, q.cost) {
      if RreqFor(trace[t], id, q) { AddsUpLater(trace, id, o, d, t, t + 1, q.from, q.cost); }
    }
    forall k | Rev(trace[j], id, k) ensures EntryAddsUp(trace, id, o, d, j, k) {
      if k != n { assert EntryAddsUp(trace, id, o, d, t, k); AddsUpLater(trace, id, o, d, t, t + 1, k, MinCost(trace[t], id, k)); }
    }
  }

  lemma UntouchedAddsUp(trace: seq<Net>, id: U32, o: Address, d: Address, t: nat)
    requires t + 1 < |trace| && AllAddUp(trace, id, o, d, t) && Untouched(trace[t], trace[t + 1], id)
    ensures AllAddUp(trace, id, o, d, t + 1)
  {
    hide AddsUp;
    var j := t + 1;
    forall q | RreqFor(trace[j], id, q) ensures AddsUp(trace, id, o, d, j, q.from, q.cost) {
      AddsUpLater(trace, id, o, d, t, t + 1, q.from, q.cost);
    }
    forall k | Rev(trace[j], id, k) ensures EntryAddsUp(trace, id, o, d, j, k) {
      assert EntryAddsUp(trace, id, o, d, t, k);
      AddsUpLater(trace, id, o, d, t, t + 1, k, MinCost(trace[t], id, k));
    }
  }

  lemma TakerHeard(trace: seq<Net>, id: U32, o: Address, d: Address, m: nat, t: nat, ev: Event)
    requires CleanRequest(trace, id, o, d, m) && Happens(trace, t, ev)
    requires TakesRreq(trace[t], ev, Acted(trace[t], ev)) && ev.frame.id == id
    ensures var net, s, q := trace[t], trace[t].nodes[ev.node], ev.frame;
            && RreqFor(net, id, q) && q.from != d && s.addr == ev.node && HeardAt(trace, t, id, q.from, ev.node)
            && RreqEntry(s, q).minCost == q.cost + HopCost(s)
            && Enters(net, trace[t + 1], id, ev.node, RreqEntry(s, q), RreqRelayed(s, q))
  {
    var net, q := trace[t], ev.frame;
    TreeThroughout(trace, id, o, d, m, t);
    CleanEarlier(trace, id, o, d, m, t);
    assert WellFormed(net) && net.nodes[ev.node].addr == ev.node && RreqFor(net, id, q);
    assert HearsFrom(ev, id, q.from, ev.node);
    hide CleanRequest, Acted, HopCostsWithin, BelongsTo, TakesRreq, RreqEffect, HopBudget;
    assert RreqOk(net, id, o, d, m, q);
    hide TreeInv, Next, EntryAllowed;
    RreqBrings(net, ev, id, o, d, m);
    RreqEnters(net, ev);
  }

  lemma TakeAddsUp(trace: seq<Net>, id: U32, o: Address, d: Address, m: nat, t: nat, ev: Event)
    requires CleanRequest(trace, id, o, d, m) && Happens(trace, t, ev) && AllAddUp(trace, id, o, d, t)
    requires TakesRreq(trace[t], ev, Acted(trace[t], ev)) && ev.frame.id == id
    ensures AllAddUp(trace, id, o, d, t + 1)
  {
    TakerHeard(trace, id, o, d, m, t, ev);
    hide CleanRequest, Acted, Next, TakesRreq, AddsUp, HeardAt, Enters;
    var s, q := trace[t].nodes[ev.node], ev.frame;
    HearingAddsUp(trace, id, o, d, t, q.from, ev.node, q.cost);
    EntersAddsUp(trace, id, o, d, t, ev.node, RreqEntry(s, q), RreqRelayed(s, q));
  }

  lemma StartAddsUp(trace: seq<Net>, id: U32, o: Address, d: Address, m: nat, t: nat, ev: Event)
    requires CleanRequest(trace, id, o, d, m) && Happens(trace, t, ev) && AllAddUp(trace, id, o, d, t)
    requires StartsRequest(trace[t], ev, Acted(trace[t], ev)) && ev.id == id
    ensures AllAddUp(trace, id, o, d, t + 1)
  {
    var net, s := trace[t], trace[t].nodes[ev.node];
    TreeThroughout(trace, id, o, d, m, t);
    CleanEarlier(trace, id, o, d, m, t + 1);
    var f := FirstRreq(s, ev.dest, id);
    assert s.addr == ev.node;
    hide CleanRequest, Acted, Next, HopCostsWithin, AddsUp, TreeInv;
    RequestEnters(net, ev);
    assert RreqFor(trace[t + 1], id, f);
    assert ev.node == o;
    hide Enters;
    OriginatorAddsUp(trace, id, o, d, t + 1);
    EntersAddsUp(trace, id, o, d, t, o, ReverseEntry(ev.dest, ev.node, 0), {f});
  }

  /**
   Even while link counts change: every request in flight carries, and every node holds, the sum of the hop costs that
   the nodes on one path from the originator had at the moments they heard the request from one another.
   */
  lemma {:induction false} CostsAddUp(trace: seq<Net>, id: U32, o: Address, d: Address, m: nat, i: nat)
    requires CleanRequest(trace, id, o, d, m) && i < |trace|
    ensures AllAddUp(trace, id, o, d, i)
    decreases i
  {
    hide Init, Next, Enabled, AddsUp;
    if i == 0 {
      NothingYet(trace, id, o, d, m);
    } else {
      CostsAddUp(trace, id, o, d, m, i - 1);
      var ev := SomethingHappens(trace, i - 1);
      var net := trace[i - 1];
      if StartsRequest(net, ev, Acted(net, ev)) && ev.id == id {
        StartAddsUp(trace, id, o, d, m, i - 1, ev);
      } else if TakesRreq(net, ev, Acted(net, ev)) && ev.frame.id == id {
        TakeAddsUp(trace, id, o, d, m, i - 1, ev);
      } else {
        FormThroughout(trace, i - 1);
        UntouchedByOthers(net, ev, id);
        UntouchedAddsUp(trace, id, o, d, i - 1);
      }
    }
  }

  lemma NothingYet(trace: seq<Net>, id: U32, o: Address, d: Address, m: nat)
    requires CleanRequest(trace, id, o, d, m)
    ensures AllAddUp(trace, id, o, d, 0)
  {
  }
}
