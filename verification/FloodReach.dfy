/** Exactly which nodes a flood reaches, in every mode, given who refused to relay. */
module FloodReach {
  import opened Types
  import opened DuplicateCache
  import opened Mpr
  import opened FloodModel
  import opened FloodNet
  import opened FloodBound
  import opened FloodRuns
  import opened FloodCoverage

  /** What the steps below start from. */
  ghost predicate Sound(net: Net) {
    WellFormed(net) && AllHealthy(net) && Remembers(net) && RelayedOnce(net)
  }

  // ----- ids are not used twice -----

  function OwnKeys(v: Address, n: nat): set<Key>
    requires n < 0x1_0000_0000
  {
    if n == 0 then {} else OwnKeys(v, n - 1) + {Key(v, n)}
  }

  lemma {:induction false} OwnKeysCount(v: Address, n: nat)
    requires n < 0x1_0000_0000
    ensures |OwnKeys(v, n)| == n && forall k :: k in OwnKeys(v, n) <==> k.src == v && 1 <= k.id <= n
  {
    if n > 0 { OwnKeysCount(v, n - 1); }
  }

  /** Of the keys of v exactly the first ones are on the air, and the next one is not. */
  ghost predicate IdsInOrder(net: Net, v: Address) {
    v in net.nodes ==>
      var s := net.nodes[v];
      && s.originated <= RECENT_CACHE_CAP && s.nextPacketId == s.originated + 1
      && forall k: Key :: k.src == v ==> (k in KeysSent(net) <==> 1 <= k.id <= s.originated)
  }

  lemma EventBasics(net: Net, ev: Event)
    requires Enabled(net, ev)
    ensures ev.node in net.nodes && (ev.Receive? ==> ev.index < |net.sent|)
    ensures ev.Start? ==> Noted(net, ev) == {Key(ev.node, net.nodes[ev.node].nextPacketId)}
  {
    hide Acted, IsElection, IsHelloOf;
  }

  lemma KeyOfEmission(net: Net, ev: Event)
    requires Enabled(net, ev) && Sound(net) && Emitted(net, ev).Some?
    ensures Emitted(net, ev).value.key in KeysSent(net) || (ev.Start? && Emitted(net, ev).value.key in Noted(net, ev))
  {
    EmitterSent(net, ev);
    if ev.Fire? { assert Knows(net, ev.node, ev.key); }
    hide Emitted, WellFormed, AllHealthy, KnownWhereHeard, RelayedOnce, KeysSent, Acted;
  }

  /** Only an origination brings a new key. */
  lemma KeysMove(net: Net, ev: Event)
    requires Enabled(net, ev) && Sound(net)
    ensures KeysSent(Next(net, ev)) == KeysSent(net) + (if ev.Start? then Noted(net, ev) else {})
  {
    hide *;
    EventBasics(net, ev);
    KeysGrow(net, ev);
    SoundForm(net);
    NotedIsSent(net, ev);
    ChannelDoes(net, ev);
    forall k | k in KeysSent(Next(net, ev)) ensures k in KeysSent(net) || (ev.Start? && k in Noted(net, ev)) {
      KeyFrom(net, ev, Next(net, ev), k);
    }
  }

  lemma SoundForm(net: Net)
    requires Sound(net)
    ensures WellFormed(net)
  {
  }

  lemma KeyFrom(net: Net, ev: Event, net': Net, k: Key)
    requires Enabled(net, ev) && Sound(net) && ChannelMoves(net, ev, net') && k in KeysSent(net')
    ensures k in KeysSent(net) || (ev.Start? && k in Noted(net, ev))
  {
    hide Enabled, Sound, Emitted, Noted;
    var t :| t in net'.sent && t.packet.key == k;
    var i :| 0 <= i < |net'.sent| && net'.sent[i] == t;
    if i < |net.sent| {
      assert net.sent[i] in net.sent;
    } else {
      KeyOfEmission(net, ev);
    }
  }

  lemma StepKeepsIds(net: Net, ev: Event, v: Address)
    requires Enabled(net, ev) && Sound(net) && Roomy(Next(net, ev)) && IdsInOrder(net, v)
    ensures IdsInOrder(Next(net, ev), v)
  {
    hide *;
    EventBasics(net, ev);
    SoundForm(net);
    StepKeepsForm(net, ev);
    KeysMove(net, ev);
    var net' := Next(net, ev);
    assert v in net.nodes <==> v in net.nodes.Keys;
    if v in net.nodes {
      CountersMove(net, ev, v);
      if ev.Start? && ev.node == v {
        NextIdUsed(net, net', v);
      } else {
        IdsUnmoved(net, net', v, if ev.Start? then Noted(net, ev) else {});
      }
    } else {
      NoIds(net', v);
    }
  }

  lemma NoIds(net: Net, v: Address)
    requires v !in net.nodes
    ensures IdsInOrder(net, v)
  {
  }

  lemma IdsUnmoved(net: Net, net': Net, v: Address, more: set<Key>)
    requires v in net.nodes && v in net'.nodes && IdsInOrder(net, v)
    requires net'.nodes[v].originated == net.nodes[v].originated && net'.nodes[v].nextPacketId == net.nodes[v].nextPacketId
    requires KeysSent(net') == KeysSent(net) + more && forall k :: k in more ==> k.src != v
    ensures IdsInOrder(net', v)
  {
    hide KeysSent;
  }

  lemma NextIdUsed(net: Net, net': Net, v: Address)
    requires v in net.nodes && v in net'.nodes && IdsInOrder(net, v) && Roomy(net')
    requires var s, t := net.nodes[v], net'.nodes[v];
             && t.originated == s.originated + 1 && t.nextPacketId == (s.nextPacketId + 1) % 0x1_0000_0000
             && KeysSent(net') == KeysSent(net) + {Key(v, s.nextPacketId)}
    ensures IdsInOrder(net', v)
  {
    hide KeysSent, OwnKeys;
    var n := net'.nodes[v].originated;
    FirstIdsFit(v, n, KeysSent(net'));
  }

  lemma FirstIdsFit(v: Address, n: nat, sent: set<Key>)
    requires n < 0x1_0000_0000 && forall k: Key :: k.src == v && 1 <= k.id <= n ==> k in sent
    ensures n <= |sent|
  {
    OwnKeysCount(v, n);
    hide OwnKeys;
    SubsetSize(OwnKeys(v, n), sent);
  }

  lemma FreshWhenStarted(net: Net, ev: Event)
    requires Enabled(net, ev) && ev.Start? && IdsInOrder(net, ev.node)
    ensures Key(ev.node, net.nodes[ev.node].nextPacketId) !in KeysSent(net)
  {
    hide Acted, KeysSent;
  }

  // ----- who refused did not relay -----

  ghost predicate RefusedApart(net: Net, k: Key, v: Address) {
    (k, v) in net.refused ==> k.src != v && Knows(net, v, k) && !Sent(net, k, v) && !IsPending(net, k, v)
  }

  /** A node that sends k remembers it and holds no timer for it. */
  lemma SenderIsDone(net: Net, k: Key, v: Address)
    requires Sound(net) && Sent(net, k, v)
    ensures Knows(net, v, k) && !IsPending(net, k, v)
  {
    var i :| 0 <= i < |net.sent| && net.sent[i].packet.key == k && net.sent[i].packet.lastHop == v;
    SenderKnows(net, i);
    assert TimerSpent(net, i);
  }

  /** Who puts k on the air in a step originates it, or held its timer. */
  lemma NewlySent(net: Net, ev: Event, k: Key, v: Address)
    requires Enabled(net, ev) && WellFormed(net) && Sent(Next(net, ev), k, v) && !Sent(net, k, v)
    ensures v == ev.node && ((ev.Start? && k.src == v && k in Noted(net, ev)) || (ev.Fire? && IsPending(net, k, v)))
  {
    ChannelDoes(net, ev);
    var net' := Next(net, ev);
    assert net.nodes[ev.node].myId == ev.node;
    assert ev.Fire? ==> net.nodes[ev.node].pending[ev.key].key == ev.key;
    TransmittersSent(net);
    var i :| 0 <= i < |net'.sent| && net'.sent[i].packet.key == k && net'.sent[i].packet.lastHop == v;
    hide Next, WellFormed, Acted, IsElection, IsHelloOf, Sent;
  }

  lemma TransmittersSent(net: Net)
    ensures forall i :: 0 <= i < |net.sent| ==> Sent(net, net.sent[i].packet.key, net.sent[i].packet.lastHop)
  {
  }

  lemma RefusalMeans(net: Net, ev: Event, k: Key)
    requires Enabled(net, ev) && Sound(net) && (k, ev.node) in Refusing(net, ev)
    ensures ev.Receive? && k in Noted(net, ev) && k.src != ev.node && k !in Acted(net, ev).pending && !Sent(net, k, ev.node)
  {
    PendingDoes(net, ev, k);
    if Sent(net, k, ev.node) { SenderIsDone(net, k, ev.node); }
    assert IsPending(net, k, ev.node) ==> k.src != ev.node by { assert WellFormed(net); }
    hide Enabled, WellFormed, AllHealthy, Remembers, RelayedOnce, Acted, Sent;
  }

  lemma StepKeepsRefusedApart(net: Net, ev: Event, k: Key, v: Address)
    requires Enabled(net, ev) && Sound(net) && Roomy(Next(net, ev)) && RefusedApart(net, k, v)
    ensures RefusedApart(Next(net, ev), k, v)
  {
    var net' := Next(net, ev);
    MemoryAfter(net, ev);
    PendingDoes(net, ev, k);
    assert net'.refused == net.refused + Refusing(net, ev);
    assert net'.nodes == net.nodes[ev.node := Acted(net, ev)];
    if (k, v) in Refusing(net, ev) { RefusalMeans(net, ev, k); }
    if Sent(net', k, v) && !Sent(net, k, v) { NewlySent(net, ev, k, v); }
    if Sent(net, k, v) { StillSent(net, ev, k, v); }
    hide Next, Enabled, WellFormed, AllHealthy, Remembers, RelayedOnce, Acted, Roomy, Sent, Refusing, Noted;
  }

  // ----- one destination per packet, and it does not relay -----

  /** Every packet of k on the air or in a timer is for d, and no relay is d. */
  ghost predicate Bound(net: Net, k: Key, d: Address) {
    && (forall i :: 0 <= i < |net.sent| && net.sent[i].packet.key == k ==>
          net.sent[i].packet.dst == d && (net.sent[i].packet.lastHop != k.src ==> net.sent[i].packet.lastHop != d))
    && forall v :: IsPending(net, k, v) ==> PendingBound(net, k, d, v)
  }

  ghost predicate PendingBound(net: Net, k: Key, d: Address, v: Address)
    requires IsPending(net, k, v)
  {
    net.nodes[v].pending[k].dst == d != v
  }

  ghost predicate HasDestination(net: Net, k: Key) {
    exists d :: Bound(net, k, d)
  }

  lemma NewPacketBound(net: Net, ev: Event, k: Key, d: Address)
    requires Enabled(net, ev) && Sound(net) && Bound(net, k, d) && ev.Fire? && ev.key == k
    ensures Emitted(net, ev).value.key == k && Emitted(net, ev).value.dst == d && Emitted(net, ev).value.lastHop != d
  {
    hide Acted, AllHealthy, Remembers, RelayedOnce;
    assert net.nodes[ev.node].myId == ev.node && net.nodes[ev.node].pending[k].key == k;
    assert IsPending(net, k, ev.node) && PendingBound(net, k, d, ev.node);
  }

  /** Nothing is known of a key that its source is only about to use. */
  lemma UnusedIsUnknown(net: Net, k: Key, v: Address)
    requires Sound(net) && k !in KeysSent(net)
    ensures !Sent(net, k, v) && !IsPending(net, k, v) && !Knows(net, v, k)
    ensures forall i :: 0 <= i < |net.sent| ==> net.sent[i].packet.key != k
  {
    forall i | 0 <= i < |net.sent| ensures net.sent[i].packet.key != k {
      assert net.sent[i] in net.sent;
    }
    hide WellFormed, AllHealthy, KnownWhereHeard, RelayedOnce, KeysSent, Knows;
  }

  lemma SentStaysBound(net: Net, ev: Event, k: Key, d: Address, i: nat)
    requires Enabled(net, ev) && Sound(net) && Bound(net, k, d)
    requires ev.Start? ==> k !in Noted(net, ev)
    requires i < |Next(net, ev).sent| && Next(net, ev).sent[i].packet.key == k
    ensures var p := Next(net, ev).sent[i].packet; p.dst == d && (p.lastHop != k.src ==> p.lastHop != d)
  {
    ChannelDoes(net, ev);
    if i < |net.sent| {
      assert net.sent[i].packet.key == k;
    } else if ev.Fire? {
      assert Emitted(net, ev).value.key == ev.key by { EmitterSent(net, ev); }
      NewPacketBound(net, ev, k, d);
    } else {
      EmitterSent(net, ev);
      assert false;
    }
    hide Next, Enabled, WellFormed, AllHealthy, Remembers, RelayedOnce, Emitted;
  }

  lemma PendingStaysBound(net: Net, ev: Event, k: Key, d: Address, v: Address)
    requires Enabled(net, ev) && Sound(net) && Bound(net, k, d) && IsPending(Next(net, ev), k, v)
    ensures PendingBound(Next(net, ev), k, d, v)
  {
    PendingDoes(net, ev, k);
    if IsPending(net, k, v) { assert PendingBound(net, k, d, v); }
    assert Next(net, ev).nodes == net.nodes[ev.node := Acted(net, ev)];
    if ev.Receive? { assert net.sent[ev.index].packet.key == k ==> net.sent[ev.index].packet.dst == d; }
    hide Next, WellFormed, AllHealthy, Remembers, RelayedOnce, Acted, IsElection, IsHelloOf, Refusing;
  }

  lemma StepKeepsDestination(net: Net, ev: Event, k: Key)
    requires Enabled(net, ev) && Sound(net) && HasDestination(net, k) && IdsInOrder(net, ev.node)
    ensures HasDestination(Next(net, ev), k)
  {
    var net' := Next(net, ev);
    var d :| Bound(net, k, d);
    if ev.Start? && k in Noted(net, ev) {
      FreshWhenStarted(net, ev);
      StartIsBound(net, ev, k);
    } else {
      hide Next, Enabled, Sound, IdsInOrder, PendingBound, Bound, IsPending;
      forall i | 0 <= i < |net'.sent| && net'.sent[i].packet.key == k
        ensures net'.sent[i].packet.dst == d && (net'.sent[i].packet.lastHop != k.src ==> net'.sent[i].packet.lastHop != d)
      {
        SentStaysBound(net, ev, k, d, i);
      }
      forall v | IsPending(net', k, v) ensures PendingBound(net', k, d, v) {
        PendingStaysBound(net, ev, k, d, v);
      }
      BuildBound(net', k, d);
    }
  }

  lemma BuildBound(net: Net, k: Key, d: Address)
    requires forall i :: 0 <= i < |net.sent| && net.sent[i].packet.key == k ==>
               net.sent[i].packet.dst == d && (net.sent[i].packet.lastHop != k.src ==> net.sent[i].packet.lastHop != d)
    requires forall v :: IsPending(net, k, v) ==> PendingBound(net, k, d, v)
    ensures Bound(net, k, d)
  {
  }

  lemma StartIsBound(net: Net, ev: Event, k: Key)
    requires Enabled(net, ev) && Sound(net) && ev.Start? && Noted(net, ev) == {k} && k !in KeysSent(net)
    ensures Bound(Next(net, ev), k, ev.dst)
  {
    assert |Next(net, ev).sent| == |net.sent| + 1 by { ChannelDoes(net, ev); }
    hide Next, Enabled, Sound, Noted, KeysSent, IsPending;
    var net' := Next(net, ev);
    forall v ensures !IsPending(net', k, v) { StartArmsNothing(net, ev, k, v); }
    forall i | 0 <= i < |net'.sent| && net'.sent[i].packet.key == k
      ensures net'.sent[i].packet.dst == ev.dst && net'.sent[i].packet.lastHop == k.src
    {
      OnlyStartSent(net, ev, k, i);
    }
    BuildBound(net', k, ev.dst);
  }

  lemma StartArmsNothing(net: Net, ev: Event, k: Key, v: Address)
    requires Enabled(net, ev) && Sound(net) && ev.Start? && k !in KeysSent(net)
    ensures !IsPending(Next(net, ev), k, v)
  {
    UnusedIsUnknown(net, k, v);
    PendingDoes(net, ev, k);
    assert Next(net, ev).nodes == net.nodes[ev.node := Acted(net, ev)];
    hide Next, Sound, Acted, IsElection, IsHelloOf;
  }

  lemma OnlyStartSent(net: Net, ev: Event, k: Key, i: nat)
    requires Enabled(net, ev) && Sound(net) && ev.Start? && Noted(net, ev) == {k} && k !in KeysSent(net)
    requires i < |Next(net, ev).sent| && Next(net, ev).sent[i].packet.key == k
    ensures Next(net, ev).sent[i].packet.dst == ev.dst && Next(net, ev).sent[i].packet.lastHop == k.src
  {
    ChannelDoes(net, ev);
    UnusedIsUnknown(net, k, ev.node);
    assert net.nodes[ev.node].myId == ev.node;
    assert k.src == ev.node;
    hide Next, Sound, Acted, IsElection, IsHelloOf, Sent, IsPending, Knows;
  }

  // ----- the way a packet came -----

  /** v received a transmission of k by u. */
  ghost predicate Passed(net: Net, k: Key, u: Address, v: Address) {
    exists i :: 0 <= i < |net.sent| && PassedBy(net, i, k, u, v)
  }

  predicate PassedBy(net: Net, i: nat, k: Key, u: Address, v: Address)
    requires i < |net.sent|
  {
    net.sent[i].packet.key == k && net.sent[i].packet.lastHop == u && v in net.nodes && v != u && v !in net.sent[i].waiting
  }

  /** A way from the source of k to v, along which the packet was received transmission by transmission. */
  ghost predicate IsWay(net: Net, k: Key, v: Address, path: seq<Address>) {
    && path != [] && path[0] == k.src && path[|path| - 1] == v
    && (forall i :: 0 < i < |path| ==> path[i] != k.src)
    && forall i :: 0 <= i < |path| - 1 ==> Passed(net, k, path[i], path[i + 1])
  }

  ghost predicate HasWay(net: Net, k: Key, v: Address) {
    exists path: seq<Address> :: IsWay(net, k, v, path)
  }

  lemma PassedStays(net: Net, ev: Event, k: Key, u: Address, v: Address)
    requires Enabled(net, ev) && WellFormed(net) && Passed(net, k, u, v)
    ensures Passed(Next(net, ev), k, u, v)
  {
    var i :| 0 <= i < |net.sent| && PassedBy(net, i, k, u, v);
    KeysGrow(net, ev);
    StepKeepsForm(net, ev);
    assert v in Next(net, ev).nodes.Keys;
    hide Next, Enabled, WellFormed, KeysSent;
    assert PassedBy(Next(net, ev), i, k, u, v);
  }

  lemma WayStays(net: Net, ev: Event, k: Key, v: Address)
    requires Enabled(net, ev) && WellFormed(net) && HasWay(net, k, v)
    ensures HasWay(Next(net, ev), k, v)
  {
    hide Next, Enabled, WellFormed, Passed;
    var path: seq<Address> :| IsWay(net, k, v, path);
    forall i | 0 <= i < |path| - 1 ensures Passed(Next(net, ev), k, path[i], path[i + 1]) {
      PassedStays(net, ev, k, path[i], path[i + 1]);
    }
    assert IsWay(Next(net, ev), k, v, path);
  }

  lemma WayExtends(net: Net, k: Key, u: Address, v: Address)
    requires HasWay(net, k, u) && Passed(net, k, u, v) && v != k.src
    ensures HasWay(net, k, v)
  {
    hide Passed;
    var path: seq<Address> :| IsWay(net, k, u, path);
    var longer := path + [v];
    forall i | 0 <= i < |longer| - 1 ensures Passed(net, k, longer[i], longer[i + 1]) {
      if i < |path| - 1 { assert Passed(net, k, path[i], path[i + 1]); }
    }
    assert IsWay(net, k, v, longer);
  }

  lemma SourceHasWay(net: Net, k: Key)
    ensures HasWay(net, k, k.src)
  {
    var path := [k.src];
    assert IsWay(net, k, k.src, path);
  }

  /** Whoever has the packet got it along such a way. */
  ghost predicate CameAlong(net: Net, k: Key, v: Address) {
    Knows(net, v, k) ==> HasWay(net, k, v)
  }

  lemma StepKeepsCameAlong(net: Net, ev: Event, k: Key, v: Address)
    requires Enabled(net, ev) && Sound(net) && Roomy(Next(net, ev)) && forall u :: CameAlong(net, k, u)
    ensures CameAlong(Next(net, ev), k, v)
  {
    MemoryAfter(net, ev);
    if Knows(net, v, k) {
      assert CameAlong(net, k, v);
      WayStays(net, ev, k, v);
    } else if v == ev.node && k in Noted(net, ev) {
      if ev.Start? {
        SourceHasWay(Next(net, ev), k);
      } else {
        ReceiverHasWay(net, ev, k);
      }
    }
    hide Next, Enabled, WellFormed, AllHealthy, Remembers, RelayedOnce, Knows, HasWay, Roomy;
  }

  lemma ReceiverHasWay(net: Net, ev: Event, k: Key)
    requires Enabled(net, ev) && Sound(net) && ev.Receive? && net.sent[ev.index].packet.key == k && !Knows(net, ev.node, k)
    requires forall u :: CameAlong(net, k, u)
    ensures HasWay(Next(net, ev), k, ev.node)
  {
    var net', p := Next(net, ev), net.sent[ev.index].packet;
    SenderKnows(net, ev.index);
    assert KnownAt(net, ev.index);
    assert CameAlong(net, k, p.lastHop);
    WayStays(net, ev, k, p.lastHop);
    assert net.sent[ev.index].waiting <= net.nodes.Keys - {p.lastHop};
    assert ev.node in net'.nodes;
    assert PassedBy(net', ev.index, k, p.lastHop, ev.node);
    hide Next, Enabled, WellFormed, AllHealthy, Remembers, RelayedOnce, HasWay, PassedBy;
    assert Passed(net', k, p.lastHop, ev.node);
    WayExtends(net', k, p.lastHop, ev.node);
  }

  // ----- whole runs -----

  ghost predicate Traced(net: Net, k: Key) {
    && (forall v :: IdsInOrder(net, v)) && (forall v :: RefusedApart(net, k, v)) && HasDestination(net, k)
    && forall v :: CameAlong(net, k, v)
  }

  lemma StepKeepsTraced(net: Net, ev: Event, k: Key)
    requires Enabled(net, ev) && Sound(net) && Roomy(Next(net, ev)) && Traced(net, k)
    ensures Traced(Next(net, ev), k)
  {
    hide Next, Enabled, Sound, Roomy, IdsInOrder, RefusedApart, HasDestination, CameAlong;
    var net' := Next(net, ev);
    forall v ensures IdsInOrder(net', v) { StepKeepsIds(net, ev, v); }
    forall v ensures RefusedApart(net', k, v) { StepKeepsRefusedApart(net, ev, k, v); }
    StepKeepsDestination(net, ev, k);
    forall v ensures CameAlong(net', k, v) { StepKeepsCameAlong(net, ev, k, v); }
  }

  lemma InitiallyTraced(net: Net, k: Key)
    requires Init(net)
    ensures Traced(net, k)
  {
    assert Bound(net, k, 0);
  }

  lemma SoundThroughout(trace: seq<Net>, i: nat)
    requires IsTrace(trace) && i < |trace| && Roomy(trace[i])
    ensures Sound(trace[i])
  {
    hide IsTrace, WellFormed, AllHealthy, Remembers, RelayedOnce, Covering, Roomy;
    CoveringThroughout(trace, i, Key(0, 0));
    NobodyRelaysTwice(trace, i);
  }

  lemma {:induction false} TracedThroughout(trace: seq<Net>, i: nat, k: Key)
    requires IsTrace(trace) && i < |trace| && Roomy(trace[i])
    ensures Traced(trace[i], k)
  {
    hide Traced, Sound, Roomy, Next, Init, WellFormed, AllHealthy;
    if i == 0 {
      InitiallyTraced(trace[0], k);
    } else {
      HealthyThroughout(trace, i - 1);
      assert Step(trace[i - 1], trace[i - 1 + 1]);
      var ev :| Enabled(trace[i - 1], ev) && trace[i] == Next(trace[i - 1], ev);
      RoomyEarlier(trace[i - 1], ev);
      SoundThroughout(trace, i - 1);
      TracedThroughout(trace, i - 1, k);
      StepKeepsTraced(trace[i - 1], ev, k);
    }
  }

  /** k was received along radio links only. */
  ghost predicate ReceivedAlong(net: Net, k: Key, links: set<(Address, Address)>) {
    forall u: Address, v: Address :: Passed(net, k, u, v) ==> (u, v) in links
  }

  lemma PassedMeans(net: Net, k: Key, u: Address, v: Address)
    requires WellFormed(net) && Passed(net, k, u, v)
    ensures Sent(net, k, u) && u in net.nodes && v in net.nodes
  {
    var i :| 0 <= i < |net.sent| && PassedBy(net, i, k, u, v);
  }

  /** A relay did not refuse and is not the destination. */
  lemma RelayIsFit(net: Net, k: Key, u: Address)
    requires Traced(net, k) && Sent(net, k, u) && u != k.src
    ensures (k, u) !in net.refused && !IsDestination(net, k, u)
  {
    assert RefusedApart(net, k, u);
    var d :| Bound(net, k, d);
    var i :| 0 <= i < |net.sent| && net.sent[i].packet.key == k && net.sent[i].packet.lastHop == u;
    hide RefusedApart, IdsInOrder, CameAlong;
    assert net.sent[i].packet.lastHop != d;
  }

  lemma WayIsPath(net: Net, k: Key, v: Address, links: set<(Address, Address)>, path: seq<Address>)
    requires WellFormed(net) && Traced(net, k) && ReceivedAlong(net, k, links) && v in net.nodes && IsWay(net, k, v, path)
    ensures IsPath(net, k, links, path) && Willing(net, k, path)
  {
    hide WellFormed, Traced, Passed, IsDestination, Sent;
    forall i | 0 <= i < |path| ensures path[i] in net.nodes {
      if i < |path| - 1 { assert Passed(net, k, path[i], path[i + 1]); PassedMeans(net, k, path[i], path[i + 1]); }
    }
    forall i | 0 <= i < |path| - 1 ensures (path[i], path[i + 1]) in links {
      assert Passed(net, k, path[i], path[i + 1]);
    }
    forall i | 0 < i < |path| - 1 ensures !IsDestination(net, k, path[i]) && (k, path[i]) !in net.refused {
      assert Passed(net, k, path[i], path[i + 1]);
      PassedMeans(net, k, path[i], path[i + 1]);
      RelayIsFit(net, k, path[i]);
    }
  }

  /** Some path of willing relays leads from the source of k to v. */
  ghost predicate Reachable(net: Net, k: Key, links: set<(Address, Address)>, v: Address) {
    exists path: seq<Address> :: IsPath(net, k, links, path) && Willing(net, k, path) && path[|path| - 1] == v
  }

  /**
   Main result, for every mode: when a flood of at most hop limit + 2 nodes has gone quiet with nothing lost and at most
   32 different packets around, a node has the packet if and only if radio links connect the source to it over relays
   that are not its destination and were neither silenced nor unelected for it.
   */
  lemma FloodReachesExactly(trace: seq<Net>, i: nat, k: Key, links: set<(Address, Address)>, v: Address)
    requires IsTrace(trace) && i < |trace| && Roomy(trace[i]) && |trace[i].nodes| <= BudgetOf(trace[i], k) + 2
    requires Quiet(trace[i], k, links) && ReceivedAlong(trace[i], k, links) && Sent(trace[i], k, k.src) && v in trace[i].nodes
    ensures Knows(trace[i], v, k) <==> Reachable(trace[i], k, links, v)
  {
    hide *;
    CoveringThroughout(trace, i, k);
    TracedThroughout(trace, i, k);
    if Knows(trace[i], v, k) {
      var path := WayOf(trace[i], k, v);
      WayIsPath(trace[i], k, v, links, path);
      PathReaches(trace[i], k, links, v, path);
    }
    if Reachable(trace[i], k, links, v) {
      var path := PathTo(trace[i], k, links, v);
      ReachedAlong(trace[i], k, links, path, |path| - 1);
    }
  }

  lemma WayOf(net: Net, k: Key, v: Address) returns (path: seq<Address>)
    requires Traced(net, k) && Knows(net, v, k)
    ensures IsWay(net, k, v, path) && path != [] && path[|path| - 1] == v
  {
    assert CameAlong(net, k, v);
    hide IdsInOrder, RefusedApart, HasDestination, Knows;
    path :| IsWay(net, k, v, path);
  }

  lemma PathReaches(net: Net, k: Key, links: set<(Address, Address)>, v: Address, path: seq<Address>)
    requires IsPath(net, k, links, path) && Willing(net, k, path) && path != [] && path[|path| - 1] == v
    ensures Reachable(net, k, links, v)
  {
    hide IsPath, Willing;
  }

  lemma PathTo(net: Net, k: Key, links: set<(Address, Address)>, v: Address) returns (path: seq<Address>)
    requires Reachable(net, k, links, v)
    ensures IsPath(net, k, links, path) && Willing(net, k, path) && path != [] && path[|path| - 1] == v
  {
    hide Willing;
    path :| IsPath(net, k, links, path) && Willing(net, k, path) && path[|path| - 1] == v;
  }
}
