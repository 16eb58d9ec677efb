/** One request's reverse paths: a tree of strictly falling cost rooted at the originator, in every run. */
module ReversePaths {
  import opened Types
  import opened NodeModel
  import opened NodeFacts
  import opened Network
  import opened Effects
  import opened Links

  ghost predicate Rev(net: Net, id: U32, n: Address) {
    n in net.nodes && id in net.nodes[n].reversePaths
  }

  ghost function RevEntry(net: Net, id: U32, n: Address): ReverseEntry
    requires Rev(net, id, n)
  {
    net.nodes[n].reversePaths[id]
  }

  ghost function MinCost(net: Net, id: U32, n: Address): U16
    requires Rev(net, id, n)
  {
    RevEntry(net, id, n).minCost
  }

  ghost predicate RreqFor(net: Net, id: U32, q: Frame) {
    q in net.air && q.Rreq? && q.id == id
  }

  ghost predicate RequestSent(net: Net, id: U32) {
    exists q :: RreqFor(net, id, q)
  }

  ghost predicate RrepFor(net: Net, id: U32, r: Frame) {
    r in net.air && r.Rrep? && r.id == id
  }

  /** Every request ever sent under this id came from originator o and asks for destination d. */
  ghost predicate BelongsTo(net: Net, id: U32, o: Address, d: Address) {
    forall q :: RreqFor(net, id, q) ==> q.orig == o && q.dest == d
  }

  ghost predicate HopCostsWithin(net: Net, m: nat) {
    forall n :: n in net.nodes ==> 1 + |net.nodes[n].links| <= m
  }

  /** The most a cost can grow over `hops` hops of at most m each. */
  function HopBudget(hops: nat, m: nat): nat {
    if hops == 0 then 0 else HopBudget(hops - 1, m) + m
  }

  lemma {:induction false} BudgetIsProduct(hops: nat, m: nat)
    ensures HopBudget(hops, m) == hops * m
  {
    if hops > 0 {
      BudgetIsProduct(hops - 1, m);
      assert hops * m == (hops - 1) * m + m;
    }
  }

  lemma {:induction false} BudgetGrows(hops: nat, hops': nat, m: nat)
    requires hops <= hops'
    ensures HopBudget(hops, m) <= HopBudget(hops', m)
    decreases hops'
  {
    if hops < hops' { BudgetGrows(hops, hops' - 1, m); }
  }

  /** A request in flight with radius r has cost at most (10 - r) * m, and its sender relays, with no higher cost. */
  ghost predicate RreqOk(net: Net, id: U32, o: Address, d: Address, m: nat, q: Frame)
    requires q.Rreq?
  {
    && q.from != d && Rev(net, id, q.from) && MinCost(net, id, q.from) <= q.cost
    && q.radius <= ROUTE_RADIUS && q.cost <= HopBudget(ROUTE_RADIUS - q.radius, m)
  }

  /** The originator sits at cost 0; anyone else points at a relaying node of strictly smaller cost. */
  ghost predicate RevOk(net: Net, id: U32, o: Address, d: Address, m: nat, n: Address)
    requires Rev(net, id, n)
  {
    var e := RevEntry(net, id, n);
    && e.dest == d
    && (n == o ==> e.minCost == 0 && e.prevHop == o)
    && (n != o ==> e.prevHop != d && Rev(net, id, e.prevHop) && MinCost(net, id, e.prevHop) < e.minCost <= HopBudget(ROUTE_RADIUS + 1, m))
  }

  /** A reply is on its way to a node that can pass it on, and that is not the destination. */
  ghost predicate RrepOk(net: Net, id: U32, o: Address, d: Address, r: Frame)
    requires r.Rrep?
  {
    r.orig == o && r.to != d && r.to != r.from && Rev(net, id, r.to)
  }

  ghost predicate TreeInv(net: Net, id: U32, o: Address, d: Address, m: nat) {
    && WellFormed(net)
    && (forall q :: RreqFor(net, id, q) ==> RreqOk(net, id, o, d, m, q))
    && (forall n :: Rev(net, id, n) ==> RevOk(net, id, o, d, m, n))
    && (forall r :: RrepFor(net, id, r) ==> RrepOk(net, id, o, d, r))
    && (forall n :: Rev(net, id, n) ==> o != d && RequestSent(net, id))
  }

  // ----- how one event bears on one request -----

  /** The event left this request's reverse entries and its RREQ frames alone. */
  ghost predicate Untouched(net: Net, net': Net, id: U32) {
    && net'.nodes.Keys == net.nodes.Keys
    && (forall n :: Rev(net', id, n) <==> Rev(net, id, n))
    && (forall n :: Rev(net, id, n) ==> RevEntry(net', id, n) == RevEntry(net, id, n))
    && (forall q :: RreqFor(net', id, q) <==> RreqFor(net, id, q))
  }

  /** Node n set its entry to e, and put exactly the RREQ frames fs on the air for this request. */
  ghost predicate Enters(net: Net, net': Net, id: U32, n: Address, e: ReverseEntry, fs: set<Frame>) {
    && net'.nodes.Keys == net.nodes.Keys
    && Rev(net', id, n) && RevEntry(net', id, n) == e
    && (forall k :: k != n ==> (Rev(net', id, k) <==> Rev(net, id, k)))
    && (forall k :: k != n && Rev(net, id, k) ==> RevEntry(net', id, k) == RevEntry(net, id, k))
    && (forall q :: RreqFor(net', id, q) <==> RreqFor(net, id, q) || q in fs)
  }

  lemma UntouchedByOthers(net: Net, ev: Event, id: U32)
    requires WellFormed(net) && Enabled(net, ev)
    requires StartsRequest(net, ev, Acted(net, ev)) ==> ev.id != id
    requires TakesRreq(net, ev, Acted(net, ev)) ==> ev.frame.id != id
    ensures Untouched(net, Next(net, ev), id)
  {
    hide Acted, Next;
    NextCommits(net, ev);
    Classify(net, ev);
  }

  /** What a useful RREQ makes of the entry. */
  ghost function RreqEntry(s: State, q: Frame): ReverseEntry
    requires q.Rreq?
  {
    ReverseEntry(if q.id in s.reversePaths then s.reversePaths[q.id].dest else q.dest, q.from, SatAdd(q.cost, HopCost(s)))
  }

  ghost function RreqRelayed(s: State, q: Frame): set<Frame>
    requires q.Rreq?
  {
    if q.dest != s.addr && q.radius > 0 then {RreqOnward(s, q)} else {}
  }

  lemma RreqEnters(net: Net, ev: Event)
    requires WellFormed(net) && Enabled(net, ev) && TakesRreq(net, ev, Acted(net, ev))
    ensures var s, q := net.nodes[ev.node], ev.frame;
            Enters(net, Next(net, ev), q.id, ev.node, RreqEntry(s, q), RreqRelayed(s, q))
  {
    hide Acted, Next;
    NextCommits(net, ev);
  }

  ghost function FirstRreq(s: State, dest: Address, id: U32): Frame {
    Rreq(dest, s.addr, s.addr, id, Truncate(WrapSucc(s.seqNo)), 0, ROUTE_RADIUS)
  }

  lemma RequestEnters(net: Net, ev: Event)
    requires WellFormed(net) && Enabled(net, ev) && StartsRequest(net, ev, Acted(net, ev))
    ensures Enters(net, Next(net, ev), ev.id, ev.node, ReverseEntry(ev.dest, ev.node, 0), {FirstRreq(net.nodes[ev.node], ev.dest, ev.id)})
  {
    hide Acted, Next;
    NextCommits(net, ev);
  }

  /** Replies are put on the air by the destination answering, and by a node passing one on. */
  lemma NewReplies(net: Net, ev: Event, id: U32, r: Frame)
    requires WellFormed(net) && Enabled(net, ev) && RrepFor(Next(net, ev), id, r) && r !in net.air
    ensures var s, t := net.nodes[ev.node], Acted(net, ev);
            || (TakesRreq(net, ev, t) && ev.frame.id == id && ev.frame.dest == s.addr && r == RreqAnswer(s, ev.frame))
            || (TakesRrep(net, ev, t) && ev.frame.id == id && RrepForwarded(s, ev.frame) && r == RrepOnward(s, ev.frame))
  {
    hide Acted, Next;
    NextCommits(net, ev);
    Classify(net, ev);
  }
}
