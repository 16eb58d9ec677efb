/** What a flood keeps to while no cache evicts a packet, in every mode, and how far a naive one gets. */
module FloodCoverage {
  import opened Types
  import opened DuplicateCache
  import opened Mpr
  import opened FloodModel
  import opened FloodNet
  import opened FloodBound
  import opened FloodRuns

  /** Every key ever put on the air. */
  function KeysSent(net: Net): set<Key> {
    set t | t in net.sent :: t.packet.key
  }

  /** Node v remembers k: it received it, or is its source. */
  predicate Knows(net: Net, v: Address, k: Key) {
    v in net.nodes && k in net.nodes[v].recent
  }

  function Got(net: Net, k: Key): set<Address> {
    set v | v in net.nodes && Knows(net, v, k)
  }

  /** Node v put k on the air. */
  ghost predicate Sent(net: Net, k: Key, v: Address) {
    exists i :: 0 <= i < |net.sent| && net.sent[i].packet.key == k && net.sent[i].packet.lastHop == v
  }

  ghost predicate IsDestination(net: Net, k: Key, v: Address) {
    exists i :: 0 <= i < |net.sent| && net.sent[i].packet.key == k && net.sent[i].packet.dst == v
  }

  /** Few enough different packets that no cache ever evicts one. */
  ghost predicate Roomy(net: Net) {
    |KeysSent(net)| <= RECENT_CACHE_CAP
  }

  ghost predicate AllNaive(net: Net) {
    forall v :: v in net.nodes ==> net.nodes[v].mode == Naive
  }

  /** Only packets on the air are remembered, and only remembered ones are pending. */
  ghost predicate KnowsWhatWasSent(net: Net) {
    && (forall v, k :: Knows(net, v, k) ==> k in KeysSent(net))
    && (forall v, k :: v in net.nodes && k in net.nodes[v].pending ==> Knows(net, v, k))
  }

  /** The i-th transmission is remembered by its source and by every node no longer waiting for it. */
  ghost predicate KnownAt(net: Net, i: nat)
    requires i < |net.sent|
  {
    var k := net.sent[i].packet.key;
    && Knows(net, k.src, k)
    && forall v :: v in net.nodes && v !in net.sent[i].waiting ==> Knows(net, v, k)
  }

  ghost predicate KnownWhereHeard(net: Net) {
    forall i :: 0 <= i < |net.sent| ==> KnownAt(net, i)
  }

  ghost predicate Remembers(net: Net) {
    KnowsWhatWasSent(net) && KnownWhereHeard(net)
  }

  /** Hops already used are matched by nodes already reached. */
  ghost predicate SentPaced(net: Net, k: Key) {
    forall i :: 0 <= i < |net.sent| && net.sent[i].packet.key == k ==>
      |Got(net, k)| + net.sent[i].packet.hop >= BudgetOf(net, k) + 1
  }

  ghost predicate PendingPaced(net: Net, k: Key) {
    forall v :: v in net.nodes && k in net.nodes[v].pending ==>
      |Got(net, k)| + net.nodes[v].pending[k].hop >= BudgetOf(net, k) + 1
  }

  ghost predicate Paced(net: Net, k: Key) {
    SentPaced(net, k) && PendingPaced(net, k)
  }

  predicate IsPending(net: Net, k: Key, v: Address) {
    v in net.nodes && k in net.nodes[v].pending
  }

  /** Who has the packet has relayed it, is about to, refused to, is its destination, or came last of at least budget + 2 nodes. */
  ghost predicate Answered(net: Net, k: Key, v: Address) {
    Knows(net, v, k) ==>
      || Sent(net, k, v) || IsPending(net, k, v) || IsDestination(net, k, v) || (k, v) in net.refused
      || |Got(net, k)| >= BudgetOf(net, k) + 2
  }

  ghost predicate Covering(net: Net, k: Key) {
    Paced(net, k) && forall v :: Answered(net, k, v)
  }

  lemma KeysGrow(net: Net, ev: Event)
    requires Enabled(net, ev)
    ensures KeysSent(net) <= KeysSent(Next(net, ev))
    ensures forall i :: 0 <= i < |net.sent| ==>
              && |Next(net, ev).sent| >= |net.sent| && Next(net, ev).sent[i].packet == net.sent[i].packet
              && Next(net, ev).sent[i].waiting <= net.sent[i].waiting
  {
    hide Acted, IsElection, IsHelloOf;
    var sent' := Next(net, ev).sent;
    assert forall i :: 0 <= i < |net.sent| ==> |sent'| >= |net.sent| && sent'[i].packet == net.sent[i].packet;
    forall t | t in net.sent ensures t.packet.key in KeysSent(Next(net, ev)) {
      var i :| 0 <= i < |net.sent| && net.sent[i] == t;
      assert sent'[i] in sent';
    }
  }

  /** The key the acting node remembers in this step, if any. */
  function Noted(net: Net, ev: Event): set<Key>
    requires ev.node in net.nodes
    requires ev.Receive? ==> ev.index < |net.sent|
  {
    if ev.Start? then {Key(ev.node, net.nodes[ev.node].nextPacketId)}
    else if ev.Receive? then {net.sent[ev.index].packet.key}
    else {}
  }

  lemma NotedIsSent(net: Net, ev: Event)
    requires Enabled(net, ev) && WellFormed(net)
    ensures Noted(net, ev) <= KeysSent(Next(net, ev))
  {
    hide Acted, IsElection, IsHelloOf;
    var sent' := Next(net, ev).sent;
    if ev.Start? {
      assert sent'[|sent'| - 1] in sent' && sent'[|sent'| - 1].packet.key == Key(ev.node, net.nodes[ev.node].nextPacketId);
    } else if ev.Receive? {
      assert sent'[ev.index] in sent' && sent'[ev.index].packet.key == net.sent[ev.index].packet.key;
    }
  }

  lemma NothingForgotten(recent: seq<Key>, k: Key, sent: set<Key>)
    requires NoDuplicates(recent) && |sent| <= RECENT_CACHE_CAP && Elements(recent) <= sent && k in sent
    ensures Elements(Remembered(recent, k)) == Elements(recent) + {k}
  {
    if k !in recent { DistinctCount(recent, sent - {k}); }
    RememberedKeeps(recent, k);
  }

  /** With room in the cache, a node's memory only grows. */
  lemma MemoryGrows(net: Net, ev: Event)
    requires Enabled(net, ev) && WellFormed(net) && AllHealthy(net) && Remembers(net) && Roomy(Next(net, ev))
    ensures Elements(Acted(net, ev).recent) == Elements(net.nodes[ev.node].recent) + Noted(net, ev)
  {
    var s := net.nodes[ev.node];
    ActedDoes(net, ev);
    KeysGrow(net, ev);
    NotedIsSent(net, ev);
    assert Healthy(s);
    MemoryIsSent(net, ev.node);
    hide Acted, Enabled, Next, RelayEffect, Remembered, KeysSent, Remembers, WellFormed, AllHealthy, HonestCounts, RelaysAreNeighbours, AccountsBalance;
    if ev.Start? {
      NothingForgotten(s.recent, Key(ev.node, s.nextPacketId), KeysSent(Next(net, ev)));
    } else if ev.Receive? {
      NothingForgotten(s.recent, net.sent[ev.index].packet.key, KeysSent(Next(net, ev)));
    }
  }

  lemma MemoryIsSent(net: Net, n: Address)
    requires Remembers(net) && n in net.nodes
    ensures Elements(net.nodes[n].recent) <= KeysSent(net)
  {
    hide KeysSent;
    forall k | k in net.nodes[n].recent ensures k in KeysSent(net) { assert Knows(net, n, k); }
  }

  /** The memory after a step: what was known before, and what node n has noted. */
  ghost predicate MemoryMoves(net: Net, net': Net, n: Address, noted: set<Key>) {
    && net'.nodes.Keys == net.nodes.Keys
    && forall v, k :: Knows(net', v, k) <==> Knows(net, v, k) || (v == n && k in noted)
  }

  lemma KnowsMoves(net: Net, net': Net, n: Address, t: State, noted: set<Key>)
    requires n in net.nodes && net'.nodes == net.nodes[n := t] && Elements(t.recent) == Elements(net.nodes[n].recent) + noted
    ensures MemoryMoves(net, net', n, noted)
  {
    forall v, k ensures Knows(net', v, k) <==> Knows(net, v, k) || (v == n && k in noted) {
      assert k in t.recent <==> k in Elements(t.recent);
    }
  }

  lemma MemoryAfter(net: Net, ev: Event)
    requires Enabled(net, ev) && WellFormed(net) && AllHealthy(net) && Remembers(net) && Roomy(Next(net, ev))
    ensures MemoryMoves(net, Next(net, ev), ev.node, Noted(net, ev))
  {
    MemoryGrows(net, ev);
    assert Next(net, ev).nodes == net.nodes[ev.node := Acted(net, ev)];
    hide *;
    KnowsMoves(net, Next(net, ev), ev.node, Acted(net, ev), Noted(net, ev));
  }

  lemma KeepsKnowing(net: Net, ev: Event)
    requires Enabled(net, ev) && WellFormed(net) && AllHealthy(net) && Remembers(net) && Roomy(Next(net, ev))
    ensures KnowsWhatWasSent(Next(net, ev))
  {
    MemoryAfter(net, ev);
    NotedIsSent(net, ev);
    KeysGrow(net, ev);
    ActedDoes(net, ev);
    hide Acted, Channel, Remembered, RelayEffect, IsElection, IsHelloOf, AllHealthy, KeysSent, Roomy, KnownWhereHeard, Knows;
    var net' := Next(net, ev);
    forall v, k | v in net'.nodes && k in net'.nodes[v].pending ensures Knows(net', v, k) {
      assert Knows(net, v, k) || (v == ev.node && k in Noted(net, ev));
    }
  }

  /** The packet this step puts on the air, if any. */
  function Emitted(net: Net, ev: Event): Option<Packet>
    requires ev.node in net.nodes
    requires ev.Fire? ==> ev.key in net.nodes[ev.node].pending
  {
    match ev
    case Start(v, dst, payload, now) => Some(OriginatedPacket(net.nodes[v], dst, payload, now))
    case Fire(v, k) => Some(FiredPacket(net.nodes[v], k))
    case _ => None
  }

  /** How the channel after a step compares with the channel before it. */
  ghost predicate ChannelMoves(net: Net, ev: Event, net': Net)
    requires Enabled(net, ev)
  {
    && |net'.sent| == |net.sent| + (if Emitted(net, ev).Some? then 1 else 0)
    && (Emitted(net, ev).Some? ==>
          net'.sent[|net.sent|] == Transmission(Emitted(net, ev).value, net.nodes.Keys - {ev.node}))
    && (forall i :: 0 <= i < |net.sent| ==> net'.sent[i].packet == net.sent[i].packet)
    && (forall i, v :: 0 <= i < |net.sent| && v !in net'.sent[i].waiting ==>
          v !in net.sent[i].waiting || (v == ev.node && net.sent[i].packet.key in Noted(net, ev)))
  }

  lemma ChannelDoes(net: Net, ev: Event)
    requires Enabled(net, ev)
    ensures ChannelMoves(net, ev, Next(net, ev))
  {
    hide Acted, IsElection, IsHelloOf;
  }

  lemma SentSourceKnows(net: Net, k: Key)
    requires KnownWhereHeard(net) && k in KeysSent(net)
    ensures Knows(net, k.src, k)
  {
    var t :| t in net.sent && t.packet.key == k;
    var i :| 0 <= i < |net.sent| && net.sent[i] == t;
    assert KnownAt(net, i);
  }

  /** A node that transmits a packet remembers it, and so does the source of the packet. */
  lemma SenderRemembers(net: Net, ev: Event)
    requires Enabled(net, ev) && WellFormed(net) && Remembers(net) && Emitted(net, ev).Some?
    ensures var k := Emitted(net, ev).value.key;
            && (Knows(net, ev.node, k) || k in Noted(net, ev))
            && (Knows(net, k.src, k) || (k.src == ev.node && k in Noted(net, ev)))
  {
    hide Acted, IsElection, IsHelloOf, KeysSent, KnownWhereHeard;
    if ev.Fire? { SentSourceKnows(net, ev.key); }
  }

  lemma OldStaysKnown(net: Net, ev: Event, net': Net, i: nat)
    requires Enabled(net, ev) && MemoryMoves(net, net', ev.node, Noted(net, ev)) && ChannelMoves(net, ev, net')
    requires i < |net.sent| && KnownAt(net, i)
    ensures KnownAt(net', i)
  {
    hide Enabled, Noted, Emitted, Knows;
    var k := net.sent[i].packet.key;
    forall v | v in net'.nodes && v !in net'.sent[i].waiting ensures Knows(net', v, k) {
      assert v in net.nodes.Keys;
    }
  }

  lemma NewIsKnown(net: Net, ev: Event, net': Net)
    requires Enabled(net, ev) && MemoryMoves(net, net', ev.node, Noted(net, ev)) && ChannelMoves(net, ev, net')
    requires WellFormed(net) && Remembers(net) && Emitted(net, ev).Some?
    ensures KnownAt(net', |net.sent|)
  {
    SenderRemembers(net, ev);
    hide Enabled, Noted, Emitted, WellFormed, Remembers, Knows;
    var k := Emitted(net, ev).value.key;
    forall v | v in net'.nodes && v !in net'.sent[|net.sent|].waiting ensures Knows(net', v, k) {
      assert v in net.nodes.Keys;
    }
  }

  lemma KeepsKnownWhereHeard(net: Net, ev: Event)
    requires Enabled(net, ev) && WellFormed(net) && AllHealthy(net) && Remembers(net) && Roomy(Next(net, ev))
    ensures KnownWhereHeard(Next(net, ev))
  {
    var net' := Next(net, ev);
    MemoryAfter(net, ev);
    ChannelDoes(net, ev);
    assert |net'.sent| == |net.sent| + (if Emitted(net, ev).Some? then 1 else 0);
    hide Enabled, Next, AllHealthy, Roomy, KnowsWhatWasSent, WellFormed, KnownAt, MemoryMoves, ChannelMoves;
    forall i | 0 <= i < |net'.sent| ensures KnownAt(net', i) {
      if i < |net.sent| {
        OldStaysKnown(net, ev, net', i);
      } else {
        NewIsKnown(net, ev, net');
      }
    }
  }

  /** The nodes holding k after a step. */
  lemma GotMoves(net: Net, net': Net, n: Address, noted: set<Key>, k: Key)
    requires n in net.nodes && MemoryMoves(net, net', n, noted)
    ensures Got(net', k) == Got(net, k) + (if k in noted then {n} else {})
    ensures |Got(net, k)| + (if k in noted && n !in Got(net, k) then 1 else 0) <= |Got(net', k)|
  {
    hide Knows;
    assert forall v :: v in net'.nodes <==> v in net'.nodes.Keys;
    assert forall v :: v in net.nodes <==> v in net.nodes.Keys;
    if k in noted && n !in Got(net, k) {
      assert Got(net', k) == Got(net, k) + {n};
    } else {
      assert Got(net', k) == Got(net, k);
    }
  }

  lemma GotAfter(net: Net, ev: Event, k: Key)
    requires Enabled(net, ev) && WellFormed(net) && AllHealthy(net) && Remembers(net) && Roomy(Next(net, ev))
    ensures Got(Next(net, ev), k) == Got(net, k) + (if k in Noted(net, ev) then {ev.node} else {})
    ensures |Got(net, k)| + (if k in Noted(net, ev) && ev.node !in Got(net, k) then 1 else 0) <= |Got(Next(net, ev), k)|
  {
    MemoryAfter(net, ev);
    assert ev.node in net.nodes;
    hide *;
    GotMoves(net, Next(net, ev), ev.node, Noted(net, ev), k);
  }

  lemma BudgetStays(net: Net, ev: Event, k: Key)
    requires Enabled(net, ev) && WellFormed(net)
    ensures BudgetOf(Next(net, ev), k) == BudgetOf(net, k)
  {
    hide Acted, IsElection, IsHelloOf, Channel;
    StepKeepsForm(net, ev);
  }

  lemma StepKeepsSentPaced(net: Net, ev: Event, k: Key)
    requires Enabled(net, ev) && WellFormed(net) && AllHealthy(net) && Remembers(net) && Roomy(Next(net, ev))
    requires Paced(net, k)
    ensures SentPaced(Next(net, ev), k)
  {
    hide Enabled, Next, AllHealthy, Roomy, Remembers, WellFormed, Got, BudgetOf;
    var net' := Next(net, ev);
    forall i | 0 <= i < |net'.sent| && net'.sent[i].packet.key == k
      ensures |Got(net', k)| + net'.sent[i].packet.hop >= BudgetOf(net', k) + 1
    {
      KeepsSentPacedAt(net, ev, k, i);
    }
  }

  lemma KeepsSentPacedAt(net: Net, ev: Event, k: Key, i: nat)
    requires Enabled(net, ev) && WellFormed(net) && AllHealthy(net) && Remembers(net) && Roomy(Next(net, ev))
    requires Paced(net, k) && i < |Next(net, ev).sent| && Next(net, ev).sent[i].packet.key == k
    ensures |Got(Next(net, ev), k)| + Next(net, ev).sent[i].packet.hop >= BudgetOf(Next(net, ev), k) + 1
  {
    hide *;
    GotAfter(net, ev, k);
    BudgetStays(net, ev, k);
    ChannelDoes(net, ev);
    var net' := Next(net, ev);
    if i < |net.sent| {
      OldSentPaced(net, ev, net', k, i);
    } else {
      NewSentPaced(net, ev, net', k, i);
    }
  }

  /** A transmission already on the air stays within its pace, as the nodes reached only become more. */
  lemma OldSentPaced(net: Net, ev: Event, net': Net, k: Key, i: nat)
    requires Enabled(net, ev) && ChannelMoves(net, ev, net') && Paced(net, k) && i < |net.sent| && net'.sent[i].packet.key == k
    requires |Got(net, k)| <= |Got(net', k)| && BudgetOf(net', k) == BudgetOf(net, k)
    ensures |Got(net', k)| + net'.sent[i].packet.hop >= BudgetOf(net', k) + 1
  {
    hide Enabled, Got, BudgetOf, PendingPaced, Emitted, Noted;
    assert net.sent[i].packet.key == k;
  }

  /** A new transmission is the source's, which counts itself, or takes over the pace of the timer that set it off. */
  lemma NewSentPaced(net: Net, ev: Event, net': Net, k: Key, i: nat)
    requires Enabled(net, ev) && WellFormed(net) && ChannelMoves(net, ev, net') && Paced(net, k)
    requires |net.sent| <= i < |net'.sent| && net'.sent[i].packet.key == k
    requires Got(net', k) == Got(net, k) + (if k in Noted(net, ev) then {ev.node} else {})
    requires |Got(net, k)| <= |Got(net', k)| && BudgetOf(net', k) == BudgetOf(net, k)
    ensures |Got(net', k)| + net'.sent[i].packet.hop >= BudgetOf(net', k) + 1
  {
    hide WellFormed, Got, BudgetOf, SentPaced, Emitted, Noted;
    NewPaced(net, ev);
    if ev.Start? {
      assert ev.node in Got(net', k);
      assert Got(net', k) != {};
    }
    hide Enabled;
  }

  /** A new packet carries the full budget, or the hops its timer had left. */
  lemma NewPaced(net: Net, ev: Event)
    requires Enabled(net, ev) && WellFormed(net) && Emitted(net, ev).Some?
    ensures var p := Emitted(net, ev).value;
            if ev.Start? then p.hop == BudgetOf(net, p.key) && p.key in Noted(net, ev)
            else p.key in net.nodes[ev.node].pending && net.nodes[ev.node].pending[p.key].hop == p.hop
  {
    hide Acted, IsElection, IsHelloOf;
    assert net.nodes[ev.node].myId == ev.node;
    if ev.Fire? { assert net.nodes[ev.node].pending[ev.key].key == ev.key; }
  }

  /** A timer is armed by an accepted packet, unless that is refused, and removed by going off or by a refusal. */
  ghost predicate PendingMoves(net: Net, ev: Event, k: Key, t: State)
    requires Enabled(net, ev)
  {
    var s := net.nodes[ev.node];
    var refused := (k, ev.node) in Refusing(net, ev);
    if ev.Receive? && net.sent[ev.index].packet.key == k then
      var p := net.sent[ev.index].packet;
      if k in s.pending then
        if refused then s.mode != Naive && k !in t.pending else k in t.pending && t.pending[k] == s.pending[k]
      else if k !in s.recent && p.hop > 0 && k.src != ev.node && p.dst != ev.node then
        if refused then s.mode != Naive && k !in t.pending
        else k in t.pending && t.pending[k].hop == p.hop - 1 && t.pending[k].dst == p.dst
      else !refused && k !in t.pending
    else
      && !refused
      && if ev.Fire? && ev.key == k then k !in t.pending
         else (k in t.pending <==> k in s.pending) && (k in s.pending ==> t.pending[k] == s.pending[k])
  }

  lemma PendingDoes(net: Net, ev: Event, k: Key)
    requires Enabled(net, ev) && WellFormed(net)
    ensures PendingMoves(net, ev, k, Acted(net, ev))
  {
    hide IsElection, IsHelloOf, Channel, Remembered, Acted;
    ActedDoes(net, ev);
    assert net.nodes[ev.node].myId == ev.node;
  }

  lemma KeepsPendingPacedAt(net: Net, ev: Event, k: Key)
    requires Enabled(net, ev) && WellFormed(net) && AllHealthy(net) && Remembers(net) && Roomy(Next(net, ev))
    requires Paced(net, k) && k in Acted(net, ev).pending
    ensures |Got(Next(net, ev), k)| + Acted(net, ev).pending[k].hop >= BudgetOf(net, k) + 1
  {
    PendingDoes(net, ev, k);
    GotAfter(net, ev, k);
    hide Acted, Next, Remembers, WellFormed, AllHealthy, Roomy, IsElection, IsHelloOf, Remembered, BudgetOf;
  }

  lemma StepKeepsPendingPaced(net: Net, ev: Event, k: Key)
    requires Enabled(net, ev) && WellFormed(net) && AllHealthy(net) && Remembers(net) && Roomy(Next(net, ev))
    requires Paced(net, k)
    ensures PendingPaced(Next(net, ev), k)
  {
    assert PendingPaced(net, k);
    BudgetStays(net, ev, k);
    GotAfter(net, ev, k);
    if k in Acted(net, ev).pending { KeepsPendingPacedAt(net, ev, k); }
    assert Next(net, ev).nodes == net.nodes[ev.node := Acted(net, ev)];
    hide *;
    PendingPacedMoves(net, Next(net, ev), ev.node, Acted(net, ev), k);
  }

  lemma PendingPacedMoves(net: Net, net': Net, n: Address, t: State, k: Key)
    requires net'.nodes == net.nodes[n := t] && PendingPaced(net, k)
    requires |Got(net, k)| <= |Got(net', k)| && BudgetOf(net', k) == BudgetOf(net, k)
    requires k in t.pending ==> |Got(net', k)| + t.pending[k].hop >= BudgetOf(net, k) + 1
    ensures PendingPaced(net', k)
  {
    hide Got, BudgetOf;
  }

  // ----- who has the packet passes it on -----

  lemma StillSent(net: Net, ev: Event, k: Key, v: Address)
    requires Enabled(net, ev)
    ensures Sent(net, k, v) ==> Sent(Next(net, ev), k, v)
    ensures IsDestination(net, k, v) ==> IsDestination(Next(net, ev), k, v)
  {
    ChannelDoes(net, ev);
    var net' := Next(net, ev);
    hide Enabled, Next, Emitted, Noted;
    if Sent(net, k, v) {
      var i :| 0 <= i < |net.sent| && net.sent[i].packet.key == k && net.sent[i].packet.lastHop == v;
      assert net'.sent[i].packet == net.sent[i].packet;
    }
    if IsDestination(net, k, v) {
      var i :| 0 <= i < |net.sent| && net.sent[i].packet.key == k && net.sent[i].packet.dst == v;
      assert net'.sent[i].packet == net.sent[i].packet;
    }
  }

  lemma EmitterSent(net: Net, ev: Event)
    requires Enabled(net, ev) && WellFormed(net) && Emitted(net, ev).Some?
    ensures Sent(Next(net, ev), Emitted(net, ev).value.key, ev.node)
    ensures ev.Start? ==> Emitted(net, ev).value.key in Noted(net, ev)
    ensures ev.Fire? ==> Emitted(net, ev).value.key == ev.key
  {
    ChannelDoes(net, ev);
    assert Emitted(net, ev).value.lastHop == net.nodes[ev.node].myId == ev.node;
    assert Next(net, ev).sent[|net.sent|].packet == Emitted(net, ev).value;
  }

  /** A timer that disappears has gone off, or was refused. */
  lemma StillPending(net: Net, ev: Event, k: Key, v: Address)
    requires Enabled(net, ev) && WellFormed(net)
    ensures IsPending(net, k, v) ==> IsPending(Next(net, ev), k, v) || Sent(Next(net, ev), k, v) || (k, v) in Next(net, ev).refused
  {
    PendingDoes(net, ev, k);
    if ev.Fire? { EmitterSent(net, ev); }
    var net' := Next(net, ev);
    assert net'.nodes == net.nodes[ev.node := Acted(net, ev)] && net'.refused == net.refused + Refusing(net, ev);
    hide Next, WellFormed, Sent, Acted, Emitted, IsElection, IsHelloOf, Refusing;
  }

  lemma RefusalsStay(net: Net, ev: Event)
    requires Enabled(net, ev)
    ensures net.refused <= Next(net, ev).refused
  {
  }

  lemma OldStaysAnswered(net: Net, ev: Event, k: Key, v: Address)
    requires Enabled(net, ev) && WellFormed(net) && AllHealthy(net) && Remembers(net) && Roomy(Next(net, ev))
    requires Covering(net, k) && Knows(net, v, k)
    ensures Answered(Next(net, ev), k, v)
  {
    assert Answered(net, k, v);
    StillPending(net, ev, k, v);
    RefusalsStay(net, ev);
    StillSent(net, ev, k, v);
    GotAfter(net, ev, k);
    BudgetStays(net, ev, k);
    hide Enabled, Next, WellFormed, AllHealthy, Remembers, Roomy, Sent, IsPending, IsDestination, Got, BudgetOf, Noted, Covering;
  }

  /** A node that receives the packet for the first time arms a timer or refuses, unless it is the destination or the hops are used up. */
  lemma ReceiverAnswers(net: Net, ev: Event)
    requires Enabled(net, ev) && WellFormed(net) && AllHealthy(net) && Remembers(net) && Roomy(Next(net, ev))
    requires ev.Receive? && Covering(net, net.sent[ev.index].packet.key) && !Knows(net, ev.node, net.sent[ev.index].packet.key)
    ensures Answered(Next(net, ev), net.sent[ev.index].packet.key, ev.node)
  {
    var p := net.sent[ev.index].packet;
    assert KnownAt(net, ev.index);
    assert p.key !in net.nodes[ev.node].pending by { assert KnowsWhatWasSent(net); }
    PendingDoes(net, ev, p.key);
    GotAfter(net, ev, p.key);
    BudgetStays(net, ev, p.key);
    StillSent(net, ev, p.key, ev.node);
    assert |Got(net, p.key)| + p.hop >= BudgetOf(net, p.key) + 1;
    if p.dst == ev.node { assert IsDestination(net, p.key, ev.node); }
    var net' := Next(net, ev);
    assert net'.nodes == net.nodes[ev.node := Acted(net, ev)] && net'.refused == net.refused + Refusing(net, ev);
    hide Enabled, Next, WellFormed, AllHealthy, Remembers, Roomy, Sent, IsDestination, BudgetOf, Covering, Acted, Refusing;
  }

  lemma StepKeepsCovering(net: Net, ev: Event, k: Key)
    requires Enabled(net, ev) && WellFormed(net) && AllHealthy(net) && Remembers(net) && Roomy(Next(net, ev))
    requires Covering(net, k)
    ensures Covering(Next(net, ev), k)
  {
    StepKeepsSentPaced(net, ev, k);
    StepKeepsPendingPaced(net, ev, k);
    MemoryAfter(net, ev);
    if ev.Start? { EmitterSent(net, ev); }
    hide Enabled, Next, WellFormed, AllHealthy, Remembers, Roomy, Covering, Paced, Sent, Knows, IsPending, IsDestination, Got, BudgetOf;
    forall v ensures Answered(Next(net, ev), k, v) {
      if Knows(net, v, k) {
        OldStaysAnswered(net, ev, k, v);
      } else if v == ev.node && k in Noted(net, ev) && ev.Receive? {
        ReceiverAnswers(net, ev);
      }
    }
    assert Covering(Next(net, ev), k) by { BuildCovering(Next(net, ev), k); }
  }

  lemma BuildCovering(net: Net, k: Key)
    requires SentPaced(net, k) && PendingPaced(net, k) && forall v :: Answered(net, k, v)
    ensures Covering(net, k)
  {
  }

  // ----- whole runs -----

  lemma RoomyEarlier(net: Net, ev: Event)
    requires Enabled(net, ev) && WellFormed(net) && Roomy(Next(net, ev))
    ensures Roomy(net)
  {
    KeysGrow(net, ev);
    hide Acted, Channel, KeysSent, IsElection, IsHelloOf, WellFormed;
    SubsetSize(KeysSent(net), KeysSent(Next(net, ev)));
  }

  lemma InitiallyCovering(net: Net, k: Key)
    requires Init(net)
    ensures Remembers(net) && Covering(net, k)
  {
  }

  lemma {:induction false} CoveringThroughout(trace: seq<Net>, i: nat, k: Key)
    requires IsTrace(trace) && i < |trace| && Roomy(trace[i])
    ensures WellFormed(trace[i]) && AllHealthy(trace[i]) && Remembers(trace[i]) && Covering(trace[i], k)
  {
    HealthyThroughout(trace, i);
    hide WellFormed, AllHealthy, Remembers, Covering, Roomy, Next, Enabled;
    if i == 0 {
      InitiallyCovering(trace[0], k);
    } else {
      HealthyThroughout(trace, i - 1);
      assert Step(trace[i - 1], trace[i - 1 + 1]);
      var ev :| Enabled(trace[i - 1], ev) && trace[i] == Next(trace[i - 1], ev);
      RoomyEarlier(trace[i - 1], ev);
      CoveringThroughout(trace, i - 1, k);
      KeepsKnowing(trace[i - 1], ev);
      KeepsKnownWhereHeard(trace[i - 1], ev);
      assert Remembers(trace[i]) by { BuildRemembers(trace[i]); }
      StepKeepsCovering(trace[i - 1], ev, k);
    }
  }

  lemma BuildRemembers(net: Net)
    requires KnowsWhatWasSent(net) && KnownWhereHeard(net)
    ensures Remembers(net)
  {
  }

  /** Nothing is pending, and every transmission has reached every node in range of its sender. */
  ghost predicate Quiet(net: Net, k: Key, links: set<(Address, Address)>) {
    && (forall v :: !IsPending(net, k, v))
    && forall i, v :: 0 <= i < |net.sent| && net.sent[i].packet.key == k && v in net.nodes && (net.sent[i].packet.lastHop, v) in links ==>
         v !in net.sent[i].waiting
  }

  /** A path from the source of k over working links that no destination of k would have to relay. */
  ghost predicate IsPath(net: Net, k: Key, links: set<(Address, Address)>, path: seq<Address>) {
    && path != [] && path[0] == k.src
    && (forall i :: 0 <= i < |path| ==> path[i] in net.nodes)
    && (forall i :: 0 <= i < |path| - 1 ==> (path[i], path[i + 1]) in links)
    && forall i :: 0 < i < |path| - 1 ==> !IsDestination(net, k, path[i])
  }

  lemma HeardFrom(net: Net, k: Key, links: set<(Address, Address)>, u: Address, v: Address)
    requires Remembers(net) && Quiet(net, k, links) && Sent(net, k, u) && (u, v) in links && v in net.nodes
    ensures Knows(net, v, k)
  {
    var i :| 0 <= i < |net.sent| && net.sent[i].packet.key == k && net.sent[i].packet.lastHop == u;
    assert KnownAt(net, i);
  }

  lemma SomebodyMissing(net: Net, k: Key, v: Address)
    requires v in net.nodes && !Knows(net, v, k)
    ensures |Got(net, k)| < |net.nodes|
  {
    var others := net.nodes.Keys - {v};
    assert |net.nodes| == |net.nodes.Keys| && net.nodes.Keys == others + {v};
    assert others == Got(net, k) + (others - Got(net, k));
  }

  /** No relay on the path refused the packet. */
  ghost predicate Willing(net: Net, k: Key, path: seq<Address>) {
    forall i :: 0 < i < |path| - 1 ==> (k, path[i]) !in net.refused
  }

  lemma {:induction false} ReachedAlong(net: Net, k: Key, links: set<(Address, Address)>, path: seq<Address>, j: nat)
    requires Remembers(net) && Covering(net, k) && |net.nodes| <= BudgetOf(net, k) + 2
    requires Quiet(net, k, links) && IsPath(net, k, links, path) && Willing(net, k, path) && Sent(net, k, k.src) && j < |path|
    ensures Knows(net, path[j], k)
  {
    hide Remembers, Covering, Quiet, Sent, IsDestination, Knows, Got, BudgetOf, IsPending;
    if j == 0 {
      SourceKnows(net, k);
    } else {
      ReachedAlong(net, k, links, path, j - 1);
      var u, v := path[j - 1], path[j];
      assert (path[j - 1], path[j - 1 + 1]) in links;
      assert Answered(net, k, u) by { CoveringMeans(net, k, u); }
      NonePending(net, k, links, u);
      if !Knows(net, v, k) {
        SomebodyMissing(net, k, v);
        HeardFrom(net, k, links, u, v);
      }
    }
  }

  lemma SourceKnows(net: Net, k: Key)
    requires Remembers(net) && Sent(net, k, k.src)
    ensures Knows(net, k.src, k)
  {
    var i :| 0 <= i < |net.sent| && net.sent[i].packet.key == k && net.sent[i].packet.lastHop == k.src;
    assert KnownAt(net, i);
  }

  lemma CoveringMeans(net: Net, k: Key, v: Address)
    requires Covering(net, k)
    ensures Answered(net, k, v)
  {
  }

  lemma NonePending(net: Net, k: Key, links: set<(Address, Address)>, v: Address)
    requires Quiet(net, k, links)
    ensures !IsPending(net, k, v)
  {
  }

  /** Naive nodes refuse nothing. */
  lemma {:induction false} NaiveNeverRefuses(trace: seq<Net>, i: nat)
    requires IsTrace(trace) && i < |trace| && AllNaive(trace[i])
    ensures trace[i].refused == {}
  {
    if i > 0 {
      HealthyThroughout(trace, i - 1);
      assert Step(trace[i - 1], trace[i - 1 + 1]);
      var ev :| Enabled(trace[i - 1], ev) && trace[i] == Next(trace[i - 1], ev);
      hide IsTrace, AllHealthy, IsElection, IsHelloOf, Channel, Acted;
      NaiveStep(trace[i - 1], ev);
      NaiveNeverRefuses(trace, i - 1);
    }
  }

  lemma NaiveStep(net: Net, ev: Event)
    requires WellFormed(net) && Enabled(net, ev) && AllNaive(Next(net, ev))
    ensures AllNaive(net) && Refusing(net, ev) == {}
  {
    StepKeepsForm(net, ev);
    ActedDoes(net, ev);
    hide Acted, Channel, WellFormed, IsElection, IsHelloOf, Remembered;
    forall v | v in net.nodes ensures net.nodes[v].mode == Naive {
      assert v in Next(net, ev).nodes.Keys;
      assert Next(net, ev).nodes[v].mode == Naive;
    }
  }

  /**
   Main result: when a naive flood of at most hop limit + 2 nodes has gone quiet with nothing lost and at most 32
   different packets around, every node on such a path has received the packet.
   */
  lemma NaiveFloodReachesEverybody(trace: seq<Net>, i: nat, k: Key, links: set<(Address, Address)>, path: seq<Address>)
    requires IsTrace(trace) && i < |trace| && Roomy(trace[i]) && AllNaive(trace[i]) && |trace[i].nodes| <= BudgetOf(trace[i], k) + 2
    requires Quiet(trace[i], k, links) && Sent(trace[i], k, k.src) && IsPath(trace[i], k, links, path)
    ensures Knows(trace[i], path[|path| - 1], k)
  {
    hide IsTrace, Roomy, AllNaive, Remembers, Covering, Quiet, Sent, BudgetOf;
    CoveringThroughout(trace, i, k);
    NaiveNeverRefuses(trace, i);
    ReachedAlong(trace[i], k, links, path, |path| - 1);
  }

  // ----- nobody relays twice -----

  /** No node put a packet on the air in both of these transmissions, unless as its source. */
  ghost predicate DifferentRelays(net: Net, i: nat, j: nat)
    requires i < |net.sent| && j < |net.sent|
  {
    net.sent[i].packet.key == net.sent[j].packet.key && net.sent[i].packet.lastHop == net.sent[j].packet.lastHop ==>
      net.sent[i].packet.lastHop == net.sent[i].packet.key.src
  }

  /** Who has put a packet on the air holds no timer for it. */
  ghost predicate TimerSpent(net: Net, i: nat)
    requires i < |net.sent|
  {
    !IsPending(net, net.sent[i].packet.key, net.sent[i].packet.lastHop)
  }

  ghost predicate RelayedOnce(net: Net) {
    && (forall i, j :: 0 <= i < j < |net.sent| ==> DifferentRelays(net, i, j))
    && forall i :: 0 <= i < |net.sent| ==> TimerSpent(net, i)
  }

  lemma SenderKnows(net: Net, i: nat)
    requires WellFormed(net) && Remembers(net) && i < |net.sent|
    ensures Knows(net, net.sent[i].packet.lastHop, net.sent[i].packet.key)
  {
    hide KnowsWhatWasSent, Knows;
    assert KnownAt(net, i);
  }

  lemma OldTimersSpent(net: Net, ev: Event, i: nat)
    requires Enabled(net, ev) && WellFormed(net) && Remembers(net) && Roomy(Next(net, ev)) && RelayedOnce(net)
    requires i < |net.sent| && i < |Next(net, ev).sent|
    ensures TimerSpent(Next(net, ev), i)
  {
    var k, v := net.sent[i].packet.key, net.sent[i].packet.lastHop;
    assert TimerSpent(net, i);
    SenderKnows(net, i);
    ChannelDoes(net, ev);
    PendingDoes(net, ev, k);
    assert Next(net, ev).nodes == net.nodes[ev.node := Acted(net, ev)];
    hide Next, Roomy, WellFormed, Remembers, Acted, RelayedOnce, Emitted, IsElection, IsHelloOf, Noted;
  }

  lemma NewTimerSpent(net: Net, ev: Event)
    requires Enabled(net, ev) && WellFormed(net) && Emitted(net, ev).Some?
    requires |Next(net, ev).sent| > |net.sent|
    ensures TimerSpent(Next(net, ev), |net.sent|)
  {
    var k := Emitted(net, ev).value.key;
    ChannelDoes(net, ev);
    PendingDoes(net, ev, k);
    assert net.nodes[ev.node].myId == ev.node;
    if ev.Fire? { assert net.nodes[ev.node].pending[ev.key].key == ev.key; }
    assert Next(net, ev).nodes == net.nodes[ev.node := Acted(net, ev)];
    hide Next, Roomy, Acted, IsElection, IsHelloOf, Noted;
  }

  lemma NewRelayDiffers(net: Net, ev: Event, i: nat)
    requires Enabled(net, ev) && WellFormed(net) && RelayedOnce(net) && Emitted(net, ev).Some? && i < |net.sent|
    requires |Next(net, ev).sent| > |net.sent|
    ensures DifferentRelays(Next(net, ev), i, |net.sent|)
  {
    ChannelDoes(net, ev);
    assert TimerSpent(net, i);
    assert net.nodes[ev.node].myId == ev.node;
    if ev.Fire? { assert net.nodes[ev.node].pending[ev.key].key == ev.key; }
    hide Next, Acted, IsElection, IsHelloOf, Noted, WellFormed, RelayedOnce;
  }

  lemma StepKeepsRelayedOnce(net: Net, ev: Event)
    requires Enabled(net, ev) && WellFormed(net) && Remembers(net) && Roomy(Next(net, ev)) && RelayedOnce(net)
    ensures RelayedOnce(Next(net, ev))
  {
    ChannelDoes(net, ev);
    var net' := Next(net, ev);
    hide Enabled, Next, WellFormed, Remembers, Roomy, TimerSpent, Emitted, Noted;
    forall i | 0 <= i < |net'.sent| ensures TimerSpent(net', i) {
      if i < |net.sent| { OldTimersSpent(net, ev, i); } else { NewTimerSpent(net, ev); }
    }
    forall i, j | 0 <= i < j < |net'.sent| ensures DifferentRelays(net', i, j) {
      if j < |net.sent| { assert DifferentRelays(net, i, j); } else { NewRelayDiffers(net, ev, i); }
    }
  }

  /** In any run with at most 32 different packets, in any mode, every node relays a packet at most once. */
  lemma {:induction false} NobodyRelaysTwice(trace: seq<Net>, i: nat)
    requires IsTrace(trace) && i < |trace| && Roomy(trace[i])
    ensures RelayedOnce(trace[i])
  {
    if i > 0 {
      hide WellFormed, AllHealthy, Remembers, Covering, Roomy, Next, Enabled, RelayedOnce;
      HealthyThroughout(trace, i - 1);
      assert Step(trace[i - 1], trace[i - 1 + 1]);
      var ev :| Enabled(trace[i - 1], ev) && trace[i] == Next(trace[i - 1], ev);
      RoomyEarlier(trace[i - 1], ev);
      NobodyRelaysTwice(trace, i - 1);
      CoveringThroughout(trace, i - 1, Key(0, 0));
      StepKeepsRelayedOnce(trace[i - 1], ev);
    }
  }
}
