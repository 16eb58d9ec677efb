/** One step of any node keeps the reverse-path tree of a request. */
module ReverseTree {
  import opened Types
  import opened NodeModel
  import opened NodeFacts
  import opened Network
  import opened Effects
  import opened Links
  import opened ReversePaths

  const MAX_COST: nat := 0xFFFF

  /** Costs of this request only fall, and known entries stay known. */
  ghost predicate CostsFall(net: Net, net': Net, id: U32) {
    forall k :: Rev(net, id, k) ==> Rev(net', id, k) && MinCost(net', id, k) <= MinCost(net, id, k)
  }

  /** What a node may set its entry to: the originator its own zero entry, anyone else a costlier hop than its relay's. */
  ghost predicate EntryAllowed(net: Net, id: U32, o: Address, d: Address, m: nat, n: Address, e: ReverseEntry) {
    && n in net.nodes && o != d && e.dest == d
    && (if n == o then e == ReverseEntry(d, o, 0)
        else e.prevHop != d && e.prevHop != n && Rev(net, id, e.prevHop) && MinCost(net, id, e.prevHop) < e.minCost <= HopBudget(ROUTE_RADIUS + 1, m))
    && (Rev(net, id, n) ==> e.minCost <= MinCost(net, id, n))
  }

  lemma RevsStayOk(net: Net, net': Net, id: U32, o: Address, d: Address, m: nat, n: Address, e: ReverseEntry, fs: set<Frame>)
    requires TreeInv(net, id, o, d, m) && Enters(net, net', id, n, e, fs) && EntryAllowed(net, id, o, d, m, n, e)
    ensures CostsFall(net, net', id)
    ensures forall k :: Rev(net', id, k) ==> RevOk(net', id, o, d, m, k)
  {
    forall k | Rev(net', id, k) ensures RevOk(net', id, o, d, m, k) {
      if k != n { assert RevOk(net, id, o, d, m, k); }
    }
  }

  lemma RreqsStayOk(net: Net, net': Net, id: U32, o: Address, d: Address, m: nat, n: Address, e: ReverseEntry, fs: set<Frame>)
    requires TreeInv(net, id, o, d, m) && Enters(net, net', id, n, e, fs) && CostsFall(net, net', id)
    requires forall f :: f in fs ==> f.Rreq? && RreqOk(net', id, o, d, m, f)
    ensures forall q :: RreqFor(net', id, q) ==> RreqOk(net', id, o, d, m, q)
  {
    forall q | RreqFor(net', id, q) ensures RreqOk(net', id, o, d, m, q) {
      if RreqFor(net, id, q) { assert RreqOk(net, id, o, d, m, q); }
    }
  }

  lemma NewReplyOk(net: Net, ev: Event, id: U32, o: Address, d: Address, m: nat, r: Frame)
    requires TreeInv(net, id, o, d, m) && BelongsTo(net, id, o, d) && Enabled(net, ev)
    requires RrepFor(Next(net, ev), id, r) && r !in net.air
    ensures RrepOk(net, id, o, d, r)
  {
    hide Acted, Next;
    NewReplies(net, ev, id, r);
    var t, f := Acted(net, ev), ev.frame;
    if TakesRreq(net, ev, t) && f.id == id {
      assert RreqFor(net, id, f);
      assert RreqOk(net, id, o, d, m, f);
    } else {
      assert RrepFor(net, id, f);
      assert RrepOk(net, id, o, d, f);
      assert RevOk(net, id, o, d, m, ev.node);
    }
  }

  lemma RepliesStayOk(net: Net, ev: Event, id: U32, o: Address, d: Address, m: nat)
    requires TreeInv(net, id, o, d, m) && BelongsTo(net, id, o, d) && Enabled(net, ev) && CostsFall(net, Next(net, ev), id)
    ensures forall r :: RrepFor(Next(net, ev), id, r) ==> RrepOk(Next(net, ev), id, o, d, r)
  {
    hide Next;
    forall r | RrepFor(Next(net, ev), id, r) ensures RrepOk(Next(net, ev), id, o, d, r) {
      if r in net.air {
        assert RrepFor(net, id, r);
        assert RrepOk(net, id, o, d, r);
      } else {
        NewReplyOk(net, ev, id, o, d, m, r);
      }
    }
  }

  lemma WithinBudget(cost: U16, radius: nat, hop: nat, m: nat)
    requires radius <= ROUTE_RADIUS && cost <= HopBudget(ROUTE_RADIUS - radius, m)
    requires hop <= m && HopBudget(ROUTE_RADIUS + 1, m) <= MAX_COST
    ensures SatAdd(cost, hop) == cost + hop <= HopBudget(ROUTE_RADIUS + 1, m)
  {
    BudgetGrows(ROUTE_RADIUS - radius, ROUTE_RADIUS, m);
  }

  /** A useful RREQ brings a strictly smaller cost, one hop above its sender's, without saturating. */
  lemma RreqBrings(net: Net, ev: Event, id: U32, o: Address, d: Address, m: nat)
    requires TreeInv(net, id, o, d, m) && BelongsTo(net, id, o, d) && Enabled(net, ev)
    requires HopCostsWithin(net, m) && HopBudget(ROUTE_RADIUS + 1, m) <= MAX_COST
    requires TakesRreq(net, ev, Acted(net, ev)) && ev.frame.id == id
    ensures var s, q := net.nodes[ev.node], ev.frame;
            && q.orig == o && q.dest == d && ev.node != o
            && EntryAllowed(net, id, o, d, m, ev.node, RreqEntry(s, q))
            && RreqEntry(s, q).minCost == q.cost + HopCost(s)
            && (Rev(net, id, ev.node) ==> RreqEntry(s, q).minCost < MinCost(net, id, ev.node))
  {
    hide Acted, HopBudget, RreqEffect;
    var s, q := net.nodes[ev.node], ev.frame;
    assert RreqFor(net, id, q) && RreqOk(net, id, o, d, m, q);
    WithinBudget(q.cost, q.radius, HopCost(s), m);
    if Rev(net, id, ev.node) { assert RevOk(net, id, o, d, m, ev.node); }
  }

  lemma RelayedOk(net: Net, net': Net, id: U32, o: Address, d: Address, m: nat, n: Address, q: Frame, f: Frame)
    requires HopCostsWithin(net, m) && n in net.nodes && net.nodes[n].addr == n && q.Rreq? && q.dest == d && RreqOk(net, id, o, d, m, q)
    requires f in RreqRelayed(net.nodes[n], q)
    requires Rev(net', id, n) && RevEntry(net', id, n).minCost == SatAdd(q.cost, HopCost(net.nodes[n])) == q.cost + HopCost(net.nodes[n])
    ensures f.Rreq? && RreqOk(net', id, o, d, m, f)
  {
  }

  lemma TakeKeepsTree(net: Net, ev: Event, id: U32, o: Address, d: Address, m: nat)
    requires TreeInv(net, id, o, d, m) && BelongsTo(net, id, o, d) && Enabled(net, ev)
    requires HopCostsWithin(net, m) && HopBudget(ROUTE_RADIUS + 1, m) <= MAX_COST
    requires TakesRreq(net, ev, Acted(net, ev)) && ev.frame.id == id
    ensures TreeInv(Next(net, ev), id, o, d, m) && CostsFall(net, Next(net, ev), id)
  {
    var net', s, q := Next(net, ev), net.nodes[ev.node], ev.frame;
    var e, fs := RreqEntry(s, q), RreqRelayed(s, q);
    FormStays(net, ev);
    RreqEnters(net, ev);
    RreqBrings(net, ev, id, o, d, m);
    assert RreqFor(net, id, q) && RreqOk(net, id, o, d, m, q) && RreqFor(net', id, q) && RequestSent(net', id);
    hide Acted, Next, HopBudget, RequestSent, RreqOk, RevOk, RrepOk, RreqRelayed, TakesRreq;
    RevsStayOk(net, net', id, o, d, m, ev.node, e, fs);
    forall f | f in fs ensures f.Rreq? && RreqOk(net', id, o, d, m, f) {
      RelayedOk(net, net', id, o, d, m, ev.node, q, f);
    }
    RreqsStayOk(net, net', id, o, d, m, ev.node, e, fs);
    RepliesStayOk(net, ev, id, o, d, m);
  }

  lemma RequestKeepsTree(net: Net, ev: Event, id: U32, o: Address, d: Address, m: nat)
    requires TreeInv(net, id, o, d, m) && BelongsTo(net, id, o, d) && Enabled(net, ev) && BelongsTo(Next(net, ev), id, o, d)
    requires StartsRequest(net, ev, Acted(net, ev)) && ev.id == id
    ensures TreeInv(Next(net, ev), id, o, d, m) && CostsFall(net, Next(net, ev), id)
  {
    var net', s := Next(net, ev), net.nodes[ev.node];
    var e, f := ReverseEntry(ev.dest, ev.node, 0), FirstRreq(s, ev.dest, id);
    FormStays(net, ev);
    RequestEnters(net, ev);
    assert ev.dest != ev.node && RreqFor(net', id, f) && RequestSent(net', id);
    hide Acted, Next, HopBudget, RequestSent, RreqOk, RevOk, RrepOk, StartsRequest;
    RevsStayOk(net, net', id, o, d, m, ev.node, e, {f});
    assert RreqOk(net', id, o, d, m, f) by { RequestOk(net', id, o, d, m, f); }
    RreqsStayOk(net, net', id, o, d, m, ev.node, e, {f});
    RepliesStayOk(net, ev, id, o, d, m);
  }

  lemma RequestOk(net': Net, id: U32, o: Address, d: Address, m: nat, f: Frame)
    requires f.Rreq? && f.from == o && o != d && f.cost == 0 && f.radius == ROUTE_RADIUS
    requires Rev(net', id, o) && MinCost(net', id, o) == 0
    ensures RreqOk(net', id, o, d, m, f)
  {
  }

  lemma UntouchedEntriesOk(net: Net, net': Net, id: U32, o: Address, d: Address, m: nat)
    requires TreeInv(net, id, o, d, m) && Untouched(net, net', id)
    ensures CostsFall(net, net', id)
    ensures forall n :: Rev(net', id, n) ==> RevOk(net', id, o, d, m, n)
  {
    hide HopBudget;
    forall n | Rev(net', id, n) ensures RevOk(net', id, o, d, m, n) {
      assert RevOk(net, id, o, d, m, n);
    }
  }

  lemma UntouchedRreqsOk(net: Net, net': Net, id: U32, o: Address, d: Address, m: nat)
    requires TreeInv(net, id, o, d, m) && Untouched(net, net', id)
    ensures forall q :: RreqFor(net', id, q) ==> RreqOk(net', id, o, d, m, q)
    ensures forall n :: Rev(net', id, n) ==> o != d && RequestSent(net', id)
  {
    hide HopBudget;
    if q :| RreqFor(net, id, q) { assert RreqFor(net', id, q); }
    forall q | RreqFor(net', id, q) ensures RreqOk(net', id, o, d, m, q) {
      assert RreqFor(net, id, q) && RreqOk(net, id, o, d, m, q);
    }
  }

  lemma UntouchedKeepsTree(net: Net, ev: Event, id: U32, o: Address, d: Address, m: nat)
    requires TreeInv(net, id, o, d, m) && BelongsTo(net, id, o, d) && Enabled(net, ev) && Untouched(net, Next(net, ev), id)
    ensures TreeInv(Next(net, ev), id, o, d, m) && CostsFall(net, Next(net, ev), id)
  {
    assert WellFormed(net);
    FormStays(net, ev);
    hide Next, RreqOk, RevOk, RrepOk, Untouched, BelongsTo, RequestSent;
    UntouchedEntriesOk(net, Next(net, ev), id, o, d, m);
    UntouchedRreqsOk(net, Next(net, ev), id, o, d, m);
    RepliesStayOk(net, ev, id, o, d, m);
  }

  lemma StepKeepsTree(net: Net, net': Net, id: U32, o: Address, d: Address, m: nat)
    requires TreeInv(net, id, o, d, m) && Step(net, net')
    requires BelongsTo(net, id, o, d) && BelongsTo(net', id, o, d) && HopCostsWithin(net, m) && HopBudget(ROUTE_RADIUS + 1, m) <= MAX_COST
    ensures TreeInv(net', id, o, d, m) && CostsFall(net, net', id)
  {
    var ev :| Enabled(net, ev) && net' == Next(net, ev);
    assert WellFormed(net);
    hide Acted, Next, TreeInv, CostsFall, HopCostsWithin, BelongsTo;
    if StartsRequest(net, ev, Acted(net, ev)) && ev.id == id {
      RequestKeepsTree(net, ev, id, o, d, m);
    } else if TakesRreq(net, ev, Acted(net, ev)) && ev.frame.id == id {
      TakeKeepsTree(net, ev, id, o, d, m);
    } else {
      UntouchedByOthers(net, ev, id);
      UntouchedKeepsTree(net, ev, id, o, d, m);
    }
  }
}
