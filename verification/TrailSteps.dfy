/** Every event keeps every chain explained. */
module TrailSteps {
  import opened Types
  import opened NodeModel
  import opened NodeFacts
  import opened Network
  import opened Effects
  import opened ReversePaths
  import opened ReverseTree
  import opened Trails

  lemma NextIsLater(net: Net, ev: Event, id: U32)
    requires Enabled(net, ev) && CostsFall(net, Next(net, ev), id)
    ensures Later(net, Next(net, ev), id)
  {
    hide Acted;
  }

  /** What the only possible new hearing means, when it changed nothing. */
  lemma IdleHearingCounts(net: Net, ev: Event, id: U32, o: Address, d: Address, fixed: bool, w: map<Address, nat>)
    requires WellFormed(net) && BelongsTo(net, id, o, d) && Enabled(net, ev) && (fixed ==> HopCostsAre(net, w))
    requires ev.HearFrame? && ev.frame.Rreq? && ev.frame.id == id && !TakesRreq(net, ev, Acted(net, ev))
    ensures HearingCounts(net, id, o, fixed, w, ev.frame, ev.node)
  {
    hide AfterRreq;
    assert RreqFor(net, id, ev.frame);
    if RreqUseful(net.nodes[ev.node], ev.frame) { RreqHasEffect(net.nodes[ev.node], ev.frame); }
  }

  lemma UntouchedStaysExplained(net: Net, net': Net, id: U32, o: Address, d: Address, fixed: bool, w: map<Address, nat>)
    requires TrailInv(net, id, o, d, fixed, w) && Untouched(net, net', id) && Later(net, net', id)
    ensures forall q :: RreqFor(net', id, q) ==> RreqExplained(net', id, o, d, fixed, w, q)
    ensures forall n :: Rev(net', id, n) ==> RevExplained(net', id, o, d, fixed, w, n)
    ensures forall n :: Rev(net', id, n) && n != d ==> Announced(net', id, o, d, n)
  {
    hide RreqExplained, RevExplained, Announced;
    forall q | RreqFor(net', id, q) ensures RreqExplained(net', id, o, d, fixed, w, q) {
      RreqExplanationPersists(net, net', id, o, d, fixed, w, q);
    }
    forall n | Rev(net', id, n) ensures RevExplained(net', id, o, d, fixed, w, n) && (n != d ==> Announced(net', id, o, d, n)) {
      RevExplanationPersists(net, net', id, o, d, fixed, w, n);
      if n != d { AnnouncementPersists(net, net', id, o, d, n); }
    }
  }

  lemma HearingsKept(net: Net, ev: Event, id: U32, o: Address, d: Address, fixed: bool, w: map<Address, nat>)
    requires TrailInv(net, id, o, d, fixed, w) && Enabled(net, ev) && Later(net, Next(net, ev), id)
    requires ev.HearFrame? && ev.frame.Rreq? && ev.frame.id == id ==> HearingCounts(Next(net, ev), id, o, fixed, w, ev.frame, ev.node)
    ensures forall f, n :: (f, n) in Next(net, ev).heard && f.Rreq? && f.id == id ==> HearingCounts(Next(net, ev), id, o, fixed, w, f, n)
  {
    var net' := Next(net, ev);
    assert forall f, n :: (f, n) in net'.heard ==> (f, n) in net.heard || (ev.HearFrame? && f == ev.frame && n == ev.node);
    hide Acted, Next, HearingCounts, RreqExplained, RevExplained, Announced;
    forall f, n | (f, n) in net'.heard && f.Rreq? && f.id == id ensures HearingCounts(net', id, o, fixed, w, f, n) {
      if (f, n) in net.heard { HearingPersists(net, net', id, o, fixed, w, f, n); }
    }
  }

  lemma UntouchedKeepsTrails(net: Net, ev: Event, id: U32, o: Address, d: Address, fixed: bool, w: map<Address, nat>)
    requires TrailInv(net, id, o, d, fixed, w) && WellFormed(net) && BelongsTo(net, id, o, d) && (fixed ==> HopCostsAre(net, w))
    requires Enabled(net, ev) && Untouched(net, Next(net, ev), id) && CostsFall(net, Next(net, ev), id)
    requires TakesRreq(net, ev, Acted(net, ev)) ==> ev.frame.id != id
    ensures TrailInv(Next(net, ev), id, o, d, fixed, w)
  {
    hide Next, Untouched, Later, CostsFall, RreqExplained, RevExplained, Announced, HearingCounts, TrailInv;
    NextIsLater(net, ev, id);
    UntouchedStaysExplained(net, Next(net, ev), id, o, d, fixed, w);
    if ev.HearFrame? && ev.frame.Rreq? && ev.frame.id == id {
      IdleHearingCounts(net, ev, id, o, d, fixed, w);
      HearingPersists(net, Next(net, ev), id, o, fixed, w, ev.frame, ev.node);
    }
    HearingsKept(net, ev, id, o, d, fixed, w);
    TrailInvFrom(Next(net, ev), id, o, d, fixed, w);
  }

  lemma TrailInvFrom(net: Net, id: U32, o: Address, d: Address, fixed: bool, w: map<Address, nat>)
    requires forall q :: RreqFor(net, id, q) ==> RreqExplained(net, id, o, d, fixed, w, q)
    requires forall n :: Rev(net, id, n) ==> RevExplained(net, id, o, d, fixed, w, n)
    requires forall n :: Rev(net, id, n) && n != d ==> Announced(net, id, o, d, n)
    requires forall f, n :: (f, n) in net.heard && f.Rreq? && f.id == id ==> HearingCounts(net, id, o, fixed, w, f, n)
    ensures TrailInv(net, id, o, d, fixed, w)
  {
  }

  /** Entering a new cost at n keeps everyone explained, given a trail that explains n and the frames it sent. */
  lemma EnteredStaysExplained(net: Net, net': Net, id: U32, o: Address, d: Address, fixed: bool, w: map<Address, nat>,
                              n: Address, e: ReverseEntry, fs: set<Frame>)
    requires TrailInv(net, id, o, d, fixed, w) && Enters(net, net', id, n, e, fs) && Later(net, net', id)
    requires RevExplained(net', id, o, d, fixed, w, n) && (n != d ==> Announced(net', id, o, d, n))
    requires forall f :: f in fs ==> f.Rreq? && RreqExplained(net', id, o, d, fixed, w, f)
    ensures forall q :: RreqFor(net', id, q) ==> RreqExplained(net', id, o, d, fixed, w, q)
    ensures forall k :: Rev(net', id, k) ==> RevExplained(net', id, o, d, fixed, w, k)
    ensures forall k :: Rev(net', id, k) && k != d ==> Announced(net', id, o, d, k)
  {
    hide RreqExplained, RevExplained, Announced;
    forall q | RreqFor(net', id, q) ensures RreqExplained(net', id, o, d, fixed, w, q) {
      if RreqFor(net, id, q) { RreqExplanationPersists(net, net', id, o, d, fixed, w, q); }
    }
    forall k | Rev(net', id, k) ensures RevExplained(net', id, o, d, fixed, w, k) && (k != d ==> Announced(net', id, o, d, k)) {
      if k != n {
        RevExplanationPersists(net, net', id, o, d, fixed, w, k);
        if k != d { AnnouncementPersists(net, net', id, o, d, k); }
      }
    }
  }

  /** The trail behind a taken RREQ, extended by the taker, explains the taker and whatever it relays. */
  lemma TakeExplained(net: Net, net': Net, id: U32, o: Address, d: Address, fixed: bool, w: map<Address, nat>, q: Frame, s: State)
    requires Later(net, net', id) && q.Rreq? && q.id == id && q.dest == d && q.from != d && RreqExplained(net, id, o, d, fixed, w, q)
    requires var n, c := s.addr, SatAdd(q.cost, HopCost(s));
             && c == q.cost + HopCost(s) && (Rev(net, id, n) ==> c < MinCost(net, id, n))
             && Rev(net', id, n) && MinCost(net', id, n) == c && (q, n) in net'.heard
             && (fixed ==> n in w && HopCost(s) == w[n])
    requires forall f :: f in RreqRelayed(s, q) ==> RreqFor(net', id, f)
    ensures RevExplained(net', id, o, d, fixed, w, s.addr)
    ensures s.addr != d ==> Announced(net', id, o, d, s.addr)
    ensures forall f :: f in RreqRelayed(s, q) ==> RreqExplained(net', id, o, d, fixed, w, f)
  {
    var n, c := s.addr, SatAdd(q.cost, HopCost(s));
    var p :| |p| + q.radius == ROUTE_RADIUS + 1 && Explains(net, id, o, d, fixed, w, q.from, q.cost, p);
    assert HeardFrom(net', id, q.from, n);
    TrailExtends(net, net', id, o, d, fixed, w, q, n, c, p);
    hide Explains;
    var p' := p + [n];
    assert |p'| <= ROUTE_RADIUS + 2 && Explains(net', id, o, d, fixed, w, n, MinCost(net', id, n), p');
    if n != d {
      if q.radius > 0 {
        var f := RreqOnward(s, q);
        assert f in RreqRelayed(s, q) && RreqFor(net', id, f);
        assert |p'| + f.radius == ROUTE_RADIUS + 1 && Explains(net', id, o, d, fixed, w, f.from, f.cost, p');
      } else {
        ExplainsIsTrail(net', id, o, d, fixed, w, n, c, p');
      }
    }
  }

  lemma ExplainsIsTrail(net: Net, id: U32, o: Address, d: Address, fixed: bool, w: map<Address, nat>, n: Address, c: nat, p: seq<Address>)
    requires Explains(net, id, o, d, fixed, w, n, c, p)
    ensures IsTrail(net, id, o, d, n, c, p)
  {
  }

  lemma TakeKeepsTrails(net: Net, ev: Event, id: U32, o: Address, d: Address, m: nat, fixed: bool, w: map<Address, nat>)
    requires TrailInv(net, id, o, d, fixed, w) && TreeInv(net, id, o, d, m) && BelongsTo(net, id, o, d) && Enabled(net, ev)
    requires HopCostsWithin(net, m) && HopBudget(ROUTE_RADIUS + 1, m) <= MAX_COST && (fixed ==> HopCostsAre(net, w))
    requires TakesRreq(net, ev, Acted(net, ev)) && ev.frame.id == id
    ensures TrailInv(Next(net, ev), id, o, d, fixed, w)
  {
    var net', s, q := Next(net, ev), net.nodes[ev.node], ev.frame;
    assert s.addr == ev.node && RreqFor(net, id, q) && (q, ev.node) in net'.heard;
    assert RreqOk(net, id, o, d, m, q);
    assert RreqExplained(net, id, o, d, fixed, w, q);
    RreqBrings(net, ev, id, o, d, m);
    RreqEnters(net, ev);
    TakeKeepsTree(net, ev, id, o, d, m);
    hide Next, Later, CostsFall, RreqExplained, RevExplained, Announced, TrailInv, TreeInv, RreqOk, RevOk, TakesRreq, HopBudget, EntryAllowed, RreqRelayed;
    NextIsLater(net, ev, id);
    TakeExplained(net, net', id, o, d, fixed, w, q, s);
    EnteredStaysExplained(net, net', id, o, d, fixed, w, ev.node, RreqEntry(s, q), RreqRelayed(s, q));
    HearingsKept(net, ev, id, o, d, fixed, w);
    TrailInvFrom(net', id, o, d, fixed, w);
  }

  lemma StartExplained(net: Net, id: U32, o: Address, d: Address, fixed: bool, w: map<Address, nat>, f: Frame)
    requires RreqFor(net, id, f) && f.from == o && f.cost == 0 && f.radius == ROUTE_RADIUS
    requires Rev(net, id, o) && MinCost(net, id, o) == 0
    ensures RevExplained(net, id, o, d, fixed, w, o) && Announced(net, id, o, d, o) && RreqExplained(net, id, o, d, fixed, w, f)
  {
    var p := [o];
    assert Explains(net, id, o, d, fixed, w, o, 0, p);
  }

  lemma RequestKeepsTrails(net: Net, ev: Event, id: U32, o: Address, d: Address, m: nat, fixed: bool, w: map<Address, nat>)
    requires TrailInv(net, id, o, d, fixed, w) && TreeInv(net, id, o, d, m) && BelongsTo(net, id, o, d) && Enabled(net, ev)
    requires BelongsTo(Next(net, ev), id, o, d) && StartsRequest(net, ev, Acted(net, ev)) && ev.id == id
    ensures TrailInv(Next(net, ev), id, o, d, fixed, w)
  {
    var net', s := Next(net, ev), net.nodes[ev.node];
    var f := FirstRreq(s, ev.dest, id);
    RequestEnters(net, ev);
    RequestKeepsTree(net, ev, id, o, d, m);
    assert RreqFor(net', id, f);
    hide Next, Later, CostsFall, RreqExplained, RevExplained, Announced, TrailInv, TreeInv, StartsRequest;
    NextIsLater(net, ev, id);
    StartExplained(net', id, o, d, fixed, w, f);
    EnteredStaysExplained(net, net', id, o, d, fixed, w, o, ReverseEntry(ev.dest, ev.node, 0), {f});
    HearingsKept(net, ev, id, o, d, fixed, w);
    TrailInvFrom(net', id, o, d, fixed, w);
  }

  lemma StepKeepsTrails(net: Net, net': Net, id: U32, o: Address, d: Address, m: nat, fixed: bool, w: map<Address, nat>)
    requires TrailInv(net, id, o, d, fixed, w) && TreeInv(net, id, o, d, m) && Step(net, net')
    requires BelongsTo(net, id, o, d) && BelongsTo(net', id, o, d) && HopCostsWithin(net, m) && HopBudget(ROUTE_RADIUS + 1, m) <= MAX_COST
    requires fixed ==> HopCostsAre(net, w)
    ensures TrailInv(net', id, o, d, fixed, w)
  {
    assert WellFormed(net);
    hide Acted, Next, TrailInv, TreeInv, HopCostsWithin, BelongsTo, HopBudget, HopCostsAre;
    var ev :| Enabled(net, ev) && net' == Next(net, ev);
    if StartsRequest(net, ev, Acted(net, ev)) && ev.id == id {
      RequestKeepsTrails(net, ev, id, o, d, m, fixed, w);
    } else if TakesRreq(net, ev, Acted(net, ev)) && ev.frame.id == id {
      TakeKeepsTrails(net, ev, id, o, d, m, fixed, w);
    } else {
      UntouchedByOthers(net, ev, id);
      UntouchedKeepsTree(net, ev, id, o, d, m);
      UntouchedKeepsTrails(net, ev, id, o, d, fixed, w);
    }
  }
}
