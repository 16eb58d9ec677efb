/** When a slot finds an empty payload at the head of a link queue, which the driver asserts it never does. */
module EmptyPayloads {
  import opened Types
  import opened NodeModel
  import opened NodeFacts
  import opened Network
  import opened DataEffects
  import opened Effects
  import opened Sealing
  import opened LinkQueues

  /** The application never handed in an empty payload. */
  ghost predicate NoneSubmittedEmpty(net: Net) {
    forall m :: m in net.submitted ==> m.payload != []
  }

  /** The assertion holds in every state of every run in which the application hands in no empty payload. */
  lemma NothingEmptyWaits(trace: seq<Net>, i: nat, n: Address, p: Address, k: nat)
    requires IsTrace(trace) && i < |trace| && NoneSubmittedEmpty(trace[i]) && k < |Pending(trace[i], n, p)|
    ensures Pending(trace[i], n, p)[k].payload != []
  {
    hide IsTrace;
    DeliveriesAuthentic(trace, i);
    assert Submitted(trace[i], Pending(trace[i], n, p)[k]);
  }

  // ----- the exact condition -----

  /** No payload queued on a link or parked for want of a route is empty. */
  ghost predicate NoneEmpty(s: State) {
    && (forall p, it :: p in s.links && it in s.links[p].pending ==> it.payload != [])
    && (forall d, p :: d in s.pendingRoutes && p in s.pendingRoutes[d] ==> p != [])
  }

  predicate HasRoom(s: State, p: Address) {
    p in s.links && |s.links[p].pending| < PENDING_TX_MAX
  }

  /** A call to send keeps the payload: on the direct link, else on that to the next hop, else parked if it is the node's own. */
  predicate TakesIn(s: State, dest: Address, source: Address) {
    && dest != s.addr
    && if dest in s.links then HasRoom(s, dest)
       else if dest in s.routes && s.routes[dest].nextHop in s.links then HasRoom(s, s.routes[dest].nextHop)
       else source == s.addr
  }

  lemma OfferedEmptyIff(s: State, p: Address, item: PendingTx)
    requires NoneEmpty(s) && p in s.links
    ensures NoneEmpty(Offered(s, p, item)) <==> item.payload != [] || !HasRoom(s, p)
  {
    var t := Offered(s, p, item);
    if HasRoom(s, p) { assert item in t.links[p].pending; }
  }

  lemma ParkedEmptyIff(s: State, dest: Address, payload: Payload, now: nat, id: U32)
    requires NoneEmpty(s)
    ensures NoneEmpty(AfterInitiate(s, dest, payload, now, id)) <==> payload != []
  {
    var t := AfterInitiate(s, dest, payload, now, id);
    var waiting := if dest in s.pendingRoutes then s.pendingRoutes[dest] else [];
    assert t.links == s.links && t.pendingRoutes == s.pendingRoutes[dest := Parked(waiting, payload)];
    var parked := Parked(waiting, payload);
    assert parked[|parked| - 1] == payload && payload in parked && parked == t.pendingRoutes[dest];
    if payload != [] {
      forall d, p | d in t.pendingRoutes && p in t.pendingRoutes[d] ensures p != [] {
        if d == dest && p != payload { assert p in waiting && p in s.pendingRoutes[dest]; }
      }
    }
  }

  lemma SameHoldings(s: State, t: State)
    requires NoneEmpty(s) && t.links == s.links && t.pendingRoutes == s.pendingRoutes
    ensures NoneEmpty(t)
  {
  }

  /** After a call to send with nothing empty before it, something is empty if and only if the payload is and was kept. */
  lemma SendLeavesEmptyIff(s: State, dest: Address, source: Address, payload: Payload, now: nat, id: U32)
    requires NoneEmpty(s)
    ensures NoneEmpty(AfterSend(s, dest, source, payload, now, id)) <==> payload != [] || !TakesIn(s, dest, source)
  {
    hide Offered, AfterInitiate, AfterTryEstablish, NoneEmpty;
    if |payload| > ROUTE_MAX_PAYLOAD || dest == s.addr {
    } else if dest in s.links {
      OfferedEmptyIff(s, dest, PendingTx(dest, source, payload));
    } else if dest in s.routes && s.routes[dest].nextHop in s.links {
      OfferedEmptyIff(s, s.routes[dest].nextHop, PendingTx(dest, source, payload));
    } else {
      var s1 := if dest in s.routes then AfterTryEstablish(s, s.routes[dest].nextHop, now) else s;
      var s2 := if dest in s1.neighbors then AfterTryEstablish(s1, dest, now) else s1;
      if dest in s.routes { TryEstablishFacts(s, s.routes[dest].nextHop, now); }
      TryEstablishFacts(s1, dest, now);
      SameHoldings(s, s2);
      if source != s.addr { SameHoldings(s, AfterSend(s, dest, source, payload, now, id)); }
      ParkedEmptyIff(s2, dest, payload, now, id);
    }
  }

  /** Nothing empty is queued, parked or sealed anywhere. */
  ghost predicate AllFilled(net: Net) {
    && (forall n :: n in net.nodes ==> NoneEmpty(net.nodes[n]))
    && (forall i :: 0 <= i < |net.sealed| ==> net.sealed[i].frame.payload != [])
  }

  /** An application hands in an empty payload and the node keeps it. */
  ghost predicate TakesEmpty(net: Net, ev: Event)
    requires Enabled(net, ev)
  {
    ev.Submit? && ev.payload == [] && TakesIn(net.nodes[ev.node], ev.dest, ev.node)
  }

  lemma GivenStaysFilled(s: State, t: State, given: set<PendingTx>)
    requires NoneEmpty(s) && ItemsAccounted(s, t, given) && ParkedAccounted(s, t, given)
    requires forall it :: it in given ==> it.payload != []
    ensures NoneEmpty(t)
  {
  }

  lemma ActedFilledIff(net: Net, ev: Event)
    requires WellFormed(net) && Enabled(net, ev) && AllFilled(net)
    ensures NoneEmpty(Acted(net, ev)) <==> !TakesEmpty(net, ev)
  {
    hide AfterSend, AfterSealed, AfterAnnounce, AfterRreq, AfterRrep, AfterLinkFrame, AfterSeal, NoneEmpty, TakesIn, ItemsAccounted, ParkedAccounted;
    var s := net.nodes[ev.node];
    if ev.Submit? {
      SendLeavesEmptyIff(s, ev.dest, ev.node, ev.payload, ev.now, ev.id);
    } else {
      ItemsOfEvent(net, ev);
      ParkedOfEvent(net, ev);
      GivenStaysFilled(s, Acted(net, ev), Given(net, ev));
    }
  }

  /** One step out of a state with nothing empty leads to one with something empty exactly if an empty payload is kept in it. */
  lemma StepFilledIff(net: Net, ev: Event)
    requires WellFormed(net) && Enabled(net, ev) && AllFilled(net)
    ensures AllFilled(Next(net, ev)) <==> !TakesEmpty(net, ev)
    ensures TakesEmpty(net, ev) ==> !NoneEmpty(Next(net, ev).nodes[ev.node])
  {
    ActedFilledIff(net, ev);
    var net' := Next(net, ev);
    assert net'.nodes == net.nodes[ev.node := Settled(Acted(net, ev))];
    assert NoneEmpty(net'.nodes[ev.node]) <==> NoneEmpty(Acted(net, ev)) by { hide Acted; }
    if !TakesEmpty(net, ev) { SealedStayFilled(net, ev); }
    hide Acted, Next, NoneEmpty, TakesEmpty;
    forall n | n in net'.nodes && n != ev.node ensures NoneEmpty(net'.nodes[n]) { assert n in net.nodes; }
  }

  lemma SealedStayFilled(net: Net, ev: Event)
    requires Enabled(net, ev) && AllFilled(net)
    ensures forall i :: 0 <= i < |Next(net, ev).sealed| ==> Next(net, ev).sealed[i].frame.payload != []
  {
    hide Acted;
    if ev.Transmit? {
      var head := net.nodes[ev.node].links[ev.peer].pending[0];
      assert head in net.nodes[ev.node].links[ev.peer].pending;
    }
  }

  /** In step t an application hands in an empty payload and the node keeps it. */
  ghost predicate KeepsEmpty(trace: seq<Net>, t: nat) {
    exists ev :: Happens(trace, t, ev) && TakesEmpty(trace[t], ev)
  }

  /** Node n holds an empty payload at time i. */
  ghost predicate HoldsEmpty(trace: seq<Net>, i: nat, n: Address) {
    i < |trace| && n in trace[i].nodes && !NoneEmpty(trace[i].nodes[n])
  }

  lemma {:induction false} FilledUntilKept(trace: seq<Net>, i: nat)
    requires IsTrace(trace) && i < |trace| && forall t: nat :: t < i ==> !KeepsEmpty(trace, t)
    ensures AllFilled(trace[i])
    decreases i
  {
    hide AllFilled, TakesEmpty, Next, Enabled;
    if i == 0 {
      FilledAtStart(trace[0]);
    } else {
      FilledUntilKept(trace, i - 1);
      FormThroughout(trace, i - 1);
      var ev := SomethingHappens(trace, i - 1);
      assert !KeepsEmpty(trace, i - 1);
      StepFilledIff(trace[i - 1], ev);
    }
  }

  lemma FilledAtStart(net: Net)
    requires Init(net)
    ensures AllFilled(net)
  {
  }

  /** The first step that keeps an empty payload. */
  lemma {:induction false} FirstKept(trace: seq<Net>, t: nat) returns (first: nat)
    requires KeepsEmpty(trace, t)
    ensures first <= t && KeepsEmpty(trace, first) && forall u: nat :: u < first ==> !KeepsEmpty(trace, u)
    decreases t
  {
    hide KeepsEmpty;
    if u: nat :| u < t && KeepsEmpty(trace, u) { first := FirstKept(trace, u); } else { first := t; }
  }

  /**
   Main result: over any run, a node comes to hold an empty payload, queued or parked, if and only if in some step an
   application hands one in for another node while the link it goes to has room, or there is no link for it yet.
   */
  lemma EmptyHeldIffKept(trace: seq<Net>)
    requires IsTrace(trace)
    ensures (exists i, n :: HoldsEmpty(trace, i, n)) <==> (exists t: nat :: KeepsEmpty(trace, t))
  {
    hide IsTrace, AllFilled, NoneEmpty, TakesEmpty, KeepsEmpty;
    if t: nat :| KeepsEmpty(trace, t) {
      var first := FirstKept(trace, t);
      KeptIsHeld(trace, first);
    } else if i, n :| HoldsEmpty(trace, i, n) {
      FilledUntilKept(trace, i);
      FilledHolds(trace, i, n);
      assert false;
    }
  }

  lemma FilledHolds(trace: seq<Net>, i: nat, n: Address)
    requires i < |trace| && AllFilled(trace[i])
    ensures !HoldsEmpty(trace, i, n)
  {
    hide NoneEmpty;
  }

  lemma KeptIsHeld(trace: seq<Net>, t: nat)
    requires IsTrace(trace) && KeepsEmpty(trace, t) && forall u: nat :: u < t ==> !KeepsEmpty(trace, u)
    ensures exists i, n :: HoldsEmpty(trace, i, n)
  {
    var ev :| Happens(trace, t, ev) && TakesEmpty(trace[t], ev);
    FilledUntilKept(trace, t);
    FormThroughout(trace, t);
    StepFilledIff(trace[t], ev);
    NextCommits(trace[t], ev);
    hide NoneEmpty, TakesEmpty, KeepsEmpty, Acted, Next, IsTrace, AllFilled;
    assert HoldsEmpty(trace, t + 1, ev.node);
  }

  // ----- a run in which the assertion fails -----

  function Asking(): State {
    Fresh(1, {2}).(neighbors := map[2 := NeighborInfo(true, 1)])
  }

  const ASK: Frame := LinkFrame(Request, 2, 1, 1)

  function Linked(waiting: seq<PendingTx>): State {
    Fresh(2, {}).(neighbors := map[1 := NeighborInfo(true, 0)], links := map[1 := LinkInfo(DeriveLinkKey(Ecdh(2, 1), 2, 1), 0, waiting)])
  }

  const EMPTY: PendingTx := PendingTx(1, 2, [])

  lemma Asks()
    ensures AfterAnnounce(Fresh(1, {2}), 2, 1) == Asking().(queue := [ASK])
  {
  }

  lemma Links()
    ensures AfterLinkFrame(Fresh(2, {}), ASK, []) == Linked([]).(queue := [LinkFrame(Response, 1, 2, 2)])
  {
    hide DeriveLinkKey, Ecdh;
  }

  lemma Queues()
    ensures AfterSend(Linked([]), 1, 2, [], 0, 0) == Linked([EMPTY])
  {
    hide DeriveLinkKey, Ecdh;
    assert [] + [EMPTY] == [EMPTY];
  }

  function Two(a: State, b: State): map<Address, State> { map[1 := a, 2 := b] }

  lemma NodeSteps(net: Net, ev: Event)
    requires Enabled(net, ev)
    ensures Next(net, ev).nodes == net.nodes[ev.node := Settled(Acted(net, ev))]
    ensures Elements(Acted(net, ev).queue) <= Next(net, ev).air
  {
    hide Acted;
  }

  lemma AskingStep(net: Net) returns (net': Net)
    requires net.nodes == Two(Fresh(1, {2}), Fresh(2, {}))
    ensures Step(net, net') && net'.nodes == Two(Asking(), Fresh(2, {})) && ASK in net'.air
  {
    var ev := HearAnnounce(1, 2, 1);
    Asks();
    hide AfterAnnounce;
    assert Enabled(net, ev) && Acted(net, ev).queue == [ASK] && Settled(Acted(net, ev)) == Asking();
    NodeSteps(net, ev);
    hide Next, Acted, Enabled, Asking;
    net' := Next(net, ev);
    assert ASK in Elements([ASK]);
  }

  lemma LinkingStep(net: Net) returns (net': Net)
    requires net.nodes == Two(Asking(), Fresh(2, {})) && ASK in net.air
    ensures Step(net, net') && net'.nodes == Two(Asking(), Linked([]))
  {
    var ev := HearFrame(2, ASK, 0, []);
    Links();
    hide AfterLinkFrame, Asking;
    assert Enabled(net, ev) && Settled(Acted(net, ev)) == Linked([]);
    NodeSteps(net, ev);
    hide Next, Acted, Enabled, Linked;
    net' := Next(net, ev);
  }

  lemma SubmittingStep(net: Net) returns (net': Net)
    requires net.nodes == Two(Asking(), Linked([]))
    ensures Step(net, net') && net'.nodes == Two(Asking(), Linked([EMPTY]))
  {
    var ev := Submit(2, 1, [], 0, 0);
    Queues();
    hide AfterSend, Asking;
    assert Enabled(net, ev) && Settled(Acted(net, ev)) == Linked([EMPTY]);
    NodeSteps(net, ev);
    hide Next, Acted, Enabled, Linked;
    net' := Next(net, ev);
  }

  /** A link is set up, and an empty payload handed in for its far end heads the link's queue. */
  lemma EmptyPayloadWaits()
    ensures exists trace: seq<Net> :: IsTrace(trace) && Pending(trace[|trace| - 1], 2, 1) == [EMPTY]
  {
    var a := Net(Two(Fresh(1, {2}), Fresh(2, {})), {}, [], 0, (n, d) => 0, {}, {}, {});
    assert Init(a);
    var b := AskingStep(a);
    var c := LinkingStep(b);
    var d := SubmittingStep(c);
    assert Pending(d, 2, 1) == [EMPTY];
    hide Step, Init, Pending;
    var trace := [a, b, c, d];
    assert IsTrace(trace);
  }
}
