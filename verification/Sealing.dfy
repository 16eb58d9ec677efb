/** Sealing: no (key, nonce) pair is used twice, and what is handed out was handed in by its named source. */
module Sealing {
  import opened Types
  import opened NodeModel
  import opened NodeFacts
  import opened Network
  import opened Effects
  import opened DataEffects
  import opened Links

  lemma {:induction false} LittleEndianInjective(a: nat, b: nat, n: nat)
    requires a < Pow256(n) && b < Pow256(n) && LittleEndian(a, n) == LittleEndian(b, n)
    ensures a == b
    decreases n
  {
    if n > 0 {
      var x, y := LittleEndian(a, n), LittleEndian(b, n);
      assert a % 256 == x[0] == y[0] == b % 256;
      assert LittleEndian(a / 256, n - 1) == x[1..] == y[1..] == LittleEndian(b / 256, n - 1);
      LittleEndianInjective(a / 256, b / 256, n - 1);
    }
  }

  /** One endpoint's nonces differ whenever its counters do; the two endpoints' nonces always differ. */
  lemma NoncesDiffer(my: Address, peer: Address, counter: U64, my': Address, peer': Address, counter': U64)
    requires my != peer && {my, peer} == {my', peer'} && my' != peer'
    ensures LinkNonce(my, peer, counter) == LinkNonce(my', peer', counter') <==> my == my' && counter == counter'
  {
    var x, y := LinkNonce(my, peer, counter).bytes, LinkNonce(my', peer', counter').bytes;
    assert my' in {my, peer} && peer' in {my, peer};
    if x == y {
      assert x[11] == y[11];
      assert x[..8] == LittleEndian(counter, 8) && y[..8] == LittleEndian(counter', 8);
      assert Pow256(8) == 0x1_0000_0000_0000_0000;
      LittleEndianInjective(counter, counter', 8);
    }
  }

  ghost predicate CounterSpent(net: Net, e: SealedEntry) {
    && e.sender in net.nodes && e.peer in net.nodes[e.sender].links
    && e.sender != e.peer && e.frame.key == PairKey(e.sender, e.peer)
    && e.counter < net.nodes[e.sender].links[e.peer].txCounter
    && e.frame.nonce == LinkNonce(e.sender, e.peer, e.counter)
  }

  ghost predicate CountersRise(sealed: seq<SealedEntry>) {
    forall i, j :: 0 <= i < j < |sealed| && sealed[i].sender == sealed[j].sender && sealed[i].peer == sealed[j].peer ==>
      sealed[i].counter < sealed[j].counter
  }

  ghost predicate NonceInv(net: Net) {
    && LinkInv(net)
    && (forall i :: 0 <= i < |net.sealed| ==> CounterSpent(net, net.sealed[i]))
    && CountersRise(net.sealed)
  }

  /** A counter never goes back, not even when a handshake reinstalls the key. */
  lemma SpentStaysSpent(net: Net, ev: Event, e: SealedEntry)
    requires NonceInv(net) && Enabled(net, ev) && CounterSpent(net, e)
    ensures CounterSpent(Next(net, ev), e)
  {
    hide Acted, Next, CountersRise, LinkFramesHonest;
    NextCommits(net, ev);
    LinksOfEvent(net, ev);
  }

  lemma NewlySealedSpent(net: Net, ev: Event)
    requires NonceInv(net) && Enabled(net, ev) && Seals(net, ev)
    ensures CounterSpent(Next(net, ev), NewlySealed(net, ev)[0])
  {
    hide CountersRise, LinkFramesHonest;
  }

  lemma EventKeepsNonceInv(net: Net, ev: Event)
    requires NonceInv(net) && Enabled(net, ev) && LinkInv(Next(net, ev))
    ensures NonceInv(Next(net, ev))
  {
    hide Acted, LinkInv;
    assert LinkInv(net);
    var net' := Next(net, ev);
    assert net'.sealed == net.sealed + NewlySealed(net, ev);
    forall i | 0 <= i < |net'.sealed| ensures CounterSpent(net', net'.sealed[i]) {
      if i < |net.sealed| {
        SpentStaysSpent(net, ev, net.sealed[i]);
      } else {
        NewlySealedSpent(net, ev);
      }
    }
  }

  lemma NonceInvAtStart(net: Net)
    requires Init(net)
    ensures NonceInv(net)
  {
  }

  lemma {:induction false} NonceInvThroughout(trace: seq<Net>, i: nat)
    requires IsTrace(trace) && i < |trace|
    ensures NonceInv(trace[i])
    decreases i
  {
    hide NonceInv, Init;
    if i == 0 {
      NonceInvAtStart(trace[0]);
    } else {
      NonceInvThroughout(trace, i - 1);
      assert Step(trace[i - 1], trace[i - 1 + 1]);
      StepKeepsNonceInv(trace[i - 1], trace[i]);
    }
  }

  lemma StepKeepsNonceInv(net: Net, net': Net)
    requires NonceInv(net) && Step(net, net')
    ensures NonceInv(net')
  {
    var ev :| Enabled(net, ev) && net' == Next(net, ev);
    hide Next, LinkInv;
    StepKeepsLinkInv(net, net');
    EventKeepsNonceInv(net, ev);
  }

  /**
   Over every run, with any number of re-handshakes, no two sealed frames share both link key and nonce, as long
   as no counter has left the 64 bits it is encoded in.
   */
  lemma NonceUniqueness(trace: seq<Net>, t: nat, i: nat, j: nat)
    requires IsTrace(trace) && t < |trace| && i < j < |trace[t].sealed|
    requires trace[t].sealed[i].counter < 0x1_0000_0000_0000_0000 && trace[t].sealed[j].counter < 0x1_0000_0000_0000_0000
    ensures trace[t].sealed[i].frame.key != trace[t].sealed[j].frame.key
            || trace[t].sealed[i].frame.nonce != trace[t].sealed[j].frame.nonce
  {
    NonceInvThroughout(trace, t);
    var a, b := trace[t].sealed[i], trace[t].sealed[j];
    assert CounterSpent(trace[t], a) && CounterSpent(trace[t], b);
    if a.frame.key == b.frame.key {
      PairKeyIdentifiesPair(a.sender, a.peer, b.sender, b.peer);
      NoncesDiffer(a.sender, a.peer, a.counter, b.sender, b.peer, b.counter);
      assert b.sender in {a.sender, a.peer} && b.peer in {a.sender, a.peer};
    }
  }

  // ----- provenance -----

  ghost predicate Submitted(net: Net, it: PendingTx) {
    Message(it.source, it.dest, it.payload) in net.submitted
  }

  ghost predicate PendingAuthentic(net: Net) {
    forall n, h, it :: n in net.nodes && h in net.nodes[n].links && it in net.nodes[n].links[h].pending ==> Submitted(net, it)
  }

  ghost predicate ParkedAuthentic(net: Net) {
    forall n, d, p :: n in net.nodes && d in net.nodes[n].pendingRoutes && p in net.nodes[n].pendingRoutes[d] ==>
      Submitted(net, PendingTx(d, n, p))
  }

  ghost predicate QueuesAuthentic(net: Net) {
    PendingAuthentic(net) && ParkedAuthentic(net)
  }

  ghost predicate AirAuthentic(net: Net) {
    && (forall i :: 0 <= i < |net.sealed| ==> Message(net.sealed[i].frame.source, net.sealed[i].frame.dest, net.sealed[i].frame.payload) in net.submitted)
    && net.accepted <= net.submitted
  }

  ghost predicate Authentic(net: Net) {
    WellFormed(net) && QueuesAuthentic(net) && AirAuthentic(net)
  }

  lemma GivenSubmitted(net: Net, ev: Event, it: PendingTx)
    requires Authentic(net) && Enabled(net, ev) && it in Given(net, ev)
    ensures Submitted(Next(net, ev), it)
  {
    hide Acted;
  }

  lemma ItemStaysAuthentic(net: Net, ev: Event, h: Address, it: PendingTx)
    requires Authentic(net) && Enabled(net, ev)
    requires h in Acted(net, ev).links && it in Acted(net, ev).links[h].pending
    ensures Submitted(Next(net, ev), it)
  {
    var n, s := ev.node, net.nodes[ev.node];
    assert net.submitted <= Next(net, ev).submitted;
    ItemsOfEvent(net, ev);
    hide Acted, Next, Given, AirAuthentic;
    if h in s.links && it in s.links[h].pending {
      assert Submitted(net, it);
    } else if WasParked(s, it) {
      assert Submitted(net, PendingTx(it.dest, n, it.payload));
    } else {
      GivenSubmitted(net, ev, it);
    }
  }

  lemma PendingStaysAuthentic(net: Net, ev: Event)
    requires Authentic(net) && Enabled(net, ev)
    ensures PendingAuthentic(Next(net, ev))
  {
    var net', n := Next(net, ev), ev.node;
    NextCommits(net, ev);
    assert net.submitted <= net'.submitted;
    hide Acted, Next, AirAuthentic, ParkedAuthentic, WellFormed;
    forall k, h, it | k in net'.nodes && h in net'.nodes[k].links && it in net'.nodes[k].links[h].pending ensures Submitted(net', it) {
      if k != n { assert Submitted(net, it); } else { ItemStaysAuthentic(net, ev, h, it); }
    }
  }

  lemma ParkedStaysAuthentic(net: Net, ev: Event)
    requires Authentic(net) && Enabled(net, ev)
    ensures ParkedAuthentic(Next(net, ev))
  {
    var net', n, s, t := Next(net, ev), ev.node, net.nodes[ev.node], Acted(net, ev);
    NextCommits(net, ev);
    assert net.submitted <= net'.submitted;
    hide Acted, Next, Given, AirAuthentic, PendingAuthentic;
    ParkedOfEvent(net, ev);
    forall k, d, p | k in net'.nodes && d in net'.nodes[k].pendingRoutes && p in net'.nodes[k].pendingRoutes[d]
      ensures Submitted(net', PendingTx(d, k, p))
    {
      if k != n || (d in s.pendingRoutes && p in s.pendingRoutes[d]) {
        assert Submitted(net, PendingTx(d, k, p));
      } else {
        GivenSubmitted(net, ev, PendingTx(d, n, p));
      }
    }
  }

  lemma AirStaysAuthentic(net: Net, ev: Event)
    requires Authentic(net) && Enabled(net, ev)
    ensures AirAuthentic(Next(net, ev))
  {
    hide Acted;
    var net', t := Next(net, ev), Acted(net, ev);
    DeliveriesOfEvent(net, ev);
    if Seals(net, ev) {
      var head := net.nodes[ev.node].links[ev.peer].pending[0];
      assert head in net.nodes[ev.node].links[ev.peer].pending;
      assert Submitted(net, head);
    }
    forall m | m in net'.accepted ensures m in net'.submitted {
      if m !in net.accepted {
        assert ev.HearSealed?;
      }
    }
  }

  lemma StepKeepsAuthentic(net: Net, net': Net)
    requires Authentic(net) && Step(net, net')
    ensures Authentic(net')
  {
    var ev :| Enabled(net, ev) && net' == Next(net, ev);
    hide Next, QueuesAuthentic, AirAuthentic;
    FormStays(net, ev);
    PendingStaysAuthentic(net, ev);
    ParkedStaysAuthentic(net, ev);
    AirStaysAuthentic(net, ev);
  }

  /** A payload handed out at a node was handed in, unchanged and for that node, by the source named with it. */
  lemma {:induction false} DeliveriesAuthentic(trace: seq<Net>, i: nat)
    requires IsTrace(trace) && i < |trace|
    ensures Authentic(trace[i])
    ensures forall m :: m in trace[i].accepted ==> m in trace[i].submitted
    decreases i
  {
    if i > 0 {
      hide Authentic;
      DeliveriesAuthentic(trace, i - 1);
      assert Step(trace[i - 1], trace[i - 1 + 1]);
      StepKeepsAuthentic(trace[i - 1], trace[i]);
    }
  }
}
