/**
 The same loss in the mode that elects relays: both relays the source elected are needed, and one silences the other.
 Nodes 4 and 5 hang off nodes 2 and 3; nodes 1, 2 and 3 are in range of one another.
 */
module ElectedLoss {
  import opened Types
  import opened DuplicateCache
  import opened Mpr
  import opened FloodModel
  import opened FloodNet
  import opened FloodBound
  import opened FloodCoverage

  const K: Key := Key(1, 1)

  function Quiescent(v: Address): State { Fresh(v, Elected, 3, 0) }

  function Knowing(v: Address, near: Neighbours, relays: set<Address>): State {
    Quiescent(v).(neighbours := near, mprSet := relays)
  }

  function Told(n1: seq<Address>, mprs: seq<Address>): NeighbourInfo { NeighbourInfo(0, n1, mprs) }

  // Neighbour tables as the HELLOs fill them, and the HELLOs.
  const NEAR2: Neighbours := map[4 := Told([], [])]
  const NEAR3: Neighbours := map[5 := Told([], [])]
  const NEAR1A: Neighbours := map[2 := Told([4], [])]
  const NEAR1: Neighbours := map[2 := Told([4], []), 3 := Told([5], [])]
  const AROUND2: Neighbours := map[4 := Told([], []), 1 := Told([2, 3], [2, 3])]
  const AROUND3: Neighbours := map[5 := Told([], []), 1 := Told([2, 3], [2, 3])]
  const H4: Hello := Hello(4, [], [])
  const H5: Hello := Hello(5, [], [])
  const H2: Hello := Hello(2, [4], [])
  const H3: Hello := Hello(3, [5], [])
  const H1: Hello := Hello(1, [2, 3], [2, 3])

  // ----- elections -----

  /** Node k lists x, which is neither v nor a neighbour of v. */
  predicate Offers(v: Address, near: Neighbours, k: Address, x: Address) {
    k in near && x in near[k].n1 && x != v && x !in near
  }

  lemma TwoHopIs(v: Address, near: Neighbours, nodes: set<Address>)
    requires forall k, x :: Offers(v, near, k, x) ==> x in nodes
    requires forall x :: x in nodes ==> exists k :: Offers(v, near, k, x)
    ensures TwoHop(v, near) == nodes
  {
    forall x | x in TwoHop(v, near) ensures x in nodes {
      var k :| k in near && x in near[k].n1 && x != v && x !in near;
      assert Offers(v, near, k, x);
    }
    forall x | x in nodes ensures x in TwoHop(v, near) {
      var k :| Offers(v, near, k, x);
    }
  }

  lemma NobodyElected(v: Address, near: Neighbours)
    requires TwoHop(v, near) == {}
    ensures IsElection(v, near, [])
  {
  }

  lemma OneElected(v: Address, near: Neighbours, relay: Address, x: Address)
    requires TwoHop(v, near) == {x} && relay in near && x in near[relay].n1
    requires forall c :: c in near && c != relay ==> x !in near[c].n1
    ensures IsElection(v, near, [relay])
  {
    CoverPositive(near[relay].n1, {x});
    forall c | c in near && c != relay ensures Cover(near[c].n1, {x}) == 0 { CoverPositive(near[c].n1, {x}); }
    assert IsBest(near, {}, {x}, relay);
    assert [relay][..0] == [];
    assert Remaining(near, {x}, []) == {x};
    assert PickIsBest(near, {x}, [relay], 0);
    assert Remaining(near, {x}, [relay]) == Remaining(near, {x}, [relay][..0]) - Elements(Heard(near, relay));
  }

  lemma SourceSees()
    ensures TwoHop(1, NEAR1) == {4, 5}
  {
    assert Offers(1, NEAR1, 2, 4) && Offers(1, NEAR1, 3, 5);
    TwoHopIs(1, NEAR1, {4, 5});
  }

  /** Both relays cover one node each; the smaller id goes first. */
  lemma TwoGoesFirst()
    ensures PickIsBest(NEAR1, {4, 5}, [2, 3], 0)
  {
    var u := {4, 5};
    assert [2, 3][..0] == [];
    assert Remaining(NEAR1, u, []) == u;
    assert Cover([4], u) == 1 && Cover([5], u) == 1;
    assert IsBest(NEAR1, {}, u, 2);
  }

  lemma TwoLeavesFive()
    ensures Remaining(NEAR1, {4, 5}, [2]) == {5} && Remaining(NEAR1, {4, 5}, [2, 3]) == {}
  {
    assert [2][..0] == [] && [2, 3][..1] == [2];
    assert Remaining(NEAR1, {4, 5}, []) == {4, 5};
    assert Remaining(NEAR1, {4, 5}, [2]) == {4, 5} - Elements([4]);
    assert Remaining(NEAR1, {4, 5}, [2, 3]) == Remaining(NEAR1, {4, 5}, [2]) - Elements([5]);
  }

  lemma ThreeGoesSecond()
    ensures PickIsBest(NEAR1, {4, 5}, [2, 3], 1)
  {
    TwoLeavesFive();
    hide Remaining;
    assert [2, 3][..1] == [2] && Elements([2]) == {2};
    assert Cover([5], {5}) == 1;
    assert IsBest(NEAR1, {2}, {5}, 3);
  }

  lemma SourceElects()
    ensures IsElection(1, NEAR1, [2, 3])
  {
    SourceSees();
    TwoGoesFirst();
    ThreeGoesSecond();
    TwoLeavesFive();
    hide Remaining, PickIsBest, TwoHop;
  }

  lemma FirstElections()
    ensures IsElection(2, NEAR2, []) && IsElection(3, NEAR3, []) && IsElection(4, map[], []) && IsElection(5, map[], [])
  {
    NobodyElected(2, NEAR2);
    NobodyElected(3, NEAR3);
    NobodyElected(4, map[]);
    NobodyElected(5, map[]);
  }

  lemma LaterElections()
    ensures IsElection(1, NEAR1A, [2]) && IsElection(2, AROUND2, [1]) && IsElection(3, AROUND3, [1])
  {
    hide IsElection;
    assert Offers(1, NEAR1A, 2, 4);
    TwoHopIs(1, NEAR1A, {4});
    OneElected(1, NEAR1A, 2, 4);
    assert Offers(2, AROUND2, 1, 3);
    TwoHopIs(2, AROUND2, {3});
    OneElected(2, AROUND2, 1, 3);
    assert Offers(3, AROUND3, 1, 2);
    TwoHopIs(3, AROUND3, {2});
    OneElected(3, AROUND3, 1, 2);
  }

  // ----- steps -----

  lemma AnnounceStep(net: Net, next: Net, v: Address, h: Hello, picks: seq<Address>)
    requires v in net.nodes && Reelected(net.nodes[v], 0, picks) == net.nodes[v]
    requires IsElection(v, net.nodes[v].neighbours, picks) && IsHelloOf(net.nodes[v], h)
    requires next == net.(hellos := net.hellos + {h})
    ensures Step(net, next)
  {
    hide IsElection, IsHelloOf, Stale;
    var ev := Announce(v, h, 0, picks);
    assert Enabled(net, ev);
    assert net.nodes[v := net.nodes[v]] == net.nodes;
    assert Next(net, ev) == next;
  }

  lemma HearStep(net: Net, next: Net, v: Address, h: Hello, picks: seq<Address>, t: State)
    requires v in net.nodes && h in net.hellos && h.src != v && AfterHello(net.nodes[v], h, 0, picks) == t
    requires IsElection(v, t.neighbours, picks) && next == net.(nodes := net.nodes[v := t])
    ensures Step(net, next)
  {
    hide IsElection, Stale, AfterHello;
    var ev := HearHello(v, h, 0, picks);
    assert Enabled(net, ev);
    assert Next(net, ev) == next;
  }

  lemma ReceiveStep(net: Net, next: Net, v: Address, i: nat, t: State)
    requires v in net.nodes && i < |net.sent| && v in net.sent[i].waiting && AfterPacket(net.nodes[v], net.sent[i].packet, 0) == t
    requires next.nodes == net.nodes[v := t] && next.hellos == net.hellos
    requires next.sent == net.sent[i := net.sent[i].(waiting := net.sent[i].waiting - {v})]
    requires next.refused == net.refused + (if Refuses(net.nodes[v], t) then {(net.sent[i].packet.key, v)} else {})
    ensures Step(net, next)
  {
    hide AfterPacket, Refuses;
    var ev := Receive(v, i, 0);
    assert Enabled(net, ev);
    assert Next(net, ev) == next;
  }

  lemma StartStep(net: Net, next: Net, v: Address, t: State, p: Packet)
    requires v in net.nodes && AfterOriginate(net.nodes[v]) == t && OriginatedPacket(net.nodes[v], p.dst, [], 0) == p
    requires next == net.(nodes := net.nodes[v := t], sent := net.sent + [Transmission(p, net.nodes.Keys - {v})])
    ensures Step(net, next)
  {
    hide AfterOriginate, OriginatedPacket;
    var ev := Start(v, p.dst, [], 0);
    assert Enabled(net, ev);
    assert Next(net, ev) == next;
  }

  lemma FireStep(net: Net, next: Net, v: Address, k: Key, t: State, p: Packet)
    requires v in net.nodes && k in net.nodes[v].pending && AfterFire(net.nodes[v], k) == t && FiredPacket(net.nodes[v], k) == p
    requires next == net.(nodes := net.nodes[v := t], sent := net.sent + [Transmission(p, net.nodes.Keys - {v})])
    ensures Step(net, next)
  {
    hide AfterFire, FiredPacket;
    var ev := Fire(v, k);
    assert Enabled(net, ev);
    assert Next(net, ev) == next;
  }

  function Five(a: State, b: State, c: State, d: State, e: State): map<Address, State> {
    map[1 := a, 2 := b, 3 := c, 4 := d, 5 := e]
  }

  // ----- the HELLOs -----

  lemma NothingStale(s: State, near: Neighbours)
    requires s.neighbourTimeout == 0 && forall k :: k in near ==> near[k].lastSeen == 0
    ensures Pruned(s.(neighbours := near), 0) == near
  {
  }

  /** Announcing leaves a node that has just elected as it is. */
  lemma Announces(v: Address, near: Neighbours, relays: set<Address>, picks: seq<Address>)
    requires Elements(picks) == relays && forall k :: k in near ==> near[k].lastSeen == 0
    ensures Reelected(Knowing(v, near, relays), 0, picks) == Knowing(v, near, relays)
  {
    NothingStale(Quiescent(v), near);
    hide Pruned;
    assert Quiescent(v).(neighbours := near).(mprSet := relays) == Knowing(v, near, relays);
    assert Pruned(Knowing(v, near, relays), 0) == near by { PrunedSame(Quiescent(v).(neighbours := near), Knowing(v, near, relays)); }
  }

  lemma PrunedSame(s: State, t: State)
    requires s.neighbours == t.neighbours && s.neighbourTimeout == t.neighbourTimeout
    ensures Pruned(s, 0) == Pruned(t, 0)
  {
  }

  lemma Learns(v: Address, near: Neighbours, relays: set<Address>, h: Hello, picks: seq<Address>)
    requires h.src != v && forall k :: k in near ==> near[k].lastSeen == 0
    ensures AfterHello(Knowing(v, near, relays), h, 0, picks) == Knowing(v, near[h.src := Told(h.n1, h.mprs)], Elements(picks))
  {
    var more := near[h.src := Told(h.n1, h.mprs)];
    NothingStale(Quiescent(v), more);
    PrunedSame(Quiescent(v).(neighbours := more), Learned(Knowing(v, near, relays), h, 0));
    hide Pruned;
  }

  lemma SaysHello(v: Address, near: Neighbours, relays: set<Address>, h: Hello)
    requires h.src == v && IsAscending(h.n1, near.Keys) && IsAscending(h.mprs, relays)
    ensures IsHelloOf(Knowing(v, near, relays), h)
  {
  }

  lemma Say(net: Net, next: Net, v: Address, near: Neighbours, relays: set<Address>, h: Hello, picks: seq<Address>)
    requires v in net.nodes && net.nodes[v] == Knowing(v, near, relays) && h.src == v && (forall k :: k in near ==> near[k].lastSeen == 0)
    requires Elements(picks) == relays && IsElection(v, near, picks) && IsAscending(h.n1, near.Keys) && IsAscending(h.mprs, relays)
    requires next == net.(hellos := net.hellos + {h})
    ensures Step(net, next)
  {
    hide IsElection, IsAscending;
    Announces(v, near, relays, picks);
    SaysHello(v, near, relays, h);
    AnnounceStep(net, next, v, h, picks);
  }

  lemma Hear(net: Net, next: Net, v: Address, near: Neighbours, relays: set<Address>, h: Hello,
             near': Neighbours, relays': set<Address>, picks: seq<Address>)
    requires v in net.nodes && net.nodes[v] == Knowing(v, near, relays) && h in net.hellos && h.src != v
    requires (forall k :: k in near ==> near[k].lastSeen == 0) && near' == near[h.src := Told(h.n1, h.mprs)]
    requires Elements(picks) == relays' && IsElection(v, near', picks)
    requires next.nodes == net.nodes[v := Knowing(v, near', relays')] && next.hellos == net.hellos && next.sent == net.sent && next.refused == net.refused
    ensures Step(net, next)
  {
    hide IsElection;
    Learns(v, near, relays, h, picks);
    HearStep(net, next, v, h, picks, Knowing(v, near', relays'));
  }

  lemma AllQuiescent(v: Address)
    ensures Quiescent(v) == Knowing(v, map[], {})
  {
  }

  // ----- the packet -----

  const FIRST: Packet := Packet(K, 4, 1, 3, [], 0)
  const SECOND: Packet := Packet(K, 4, 3, 2, [], 0)
  const TIMER: Timer := Timer(K, 2, 4, [], 0)

  function Sender(): State {
    Knowing(1, NEAR1, {2, 3}).(recent := [K], nextPacketId := 2, originated := 1)
  }

  function Armed(v: Address, near: Neighbours): State {
    Knowing(v, near, {1}).(recent := [K], delivered := 1, scheduled := 1, pending := map[K := TIMER])
  }

  function Relayed(): State { Armed(3, AROUND3).(pending := map[], forwarded := 1) }

  /** Node 2 has also noted node 3, whose relay it overheard. */
  function Silenced(): State {
    Armed(2, AROUND2).(pending := map[], suppressed := 1, neighbours := AROUND2[3 := Told([], [])])
  }

  /** Node 5 is nobody's relay. */
  function End(): State {
    Quiescent(5).(recent := [K], delivered := 1, mprDrop := 1, neighbours := map[3 := Told([], [])])
  }

  lemma Originates()
    ensures AfterOriginate(Knowing(1, NEAR1, {2, 3})) == Sender() && OriginatedPacket(Knowing(1, NEAR1, {2, 3}), 4, [], 0) == FIRST
  {
  }

  lemma Arms(v: Address, near: Neighbours)
    requires (v == 2 || v == 3) && 1 in near && near[1] == Told([2, 3], [2, 3])
    ensures AfterPacket(Knowing(v, near, {1}), FIRST, 0) == Armed(v, near) && !Refuses(Knowing(v, near, {1}), Armed(v, near))
  {
    assert near[1 := near[1].(lastSeen := 0)] == near;
    assert [] + [K] == [K];
  }

  lemma GoesOff()
    ensures AfterFire(Armed(3, AROUND3), K) == Relayed() && FiredPacket(Armed(3, AROUND3), K) == SECOND
  {
    assert map[K := TIMER] - {K} == map[];
  }

  lemma Overhears()
    ensures AfterPacket(Armed(2, AROUND2), SECOND, 0) == Silenced() && Refuses(Armed(2, AROUND2), Silenced())
  {
    assert map[K := TIMER] - {K} == map[];
  }

  lemma ComesBack()
    ensures AfterPacket(Sender(), SECOND, 0) == Sender().(dropDup := 1) && !Refuses(Sender(), Sender().(dropDup := 1))
  {
    assert NEAR1[3 := NEAR1[3].(lastSeen := 0)] == NEAR1;
  }

  lemma Ends()
    ensures AfterPacket(Quiescent(5), SECOND, 0) == End() && Refuses(Quiescent(5), End())
  {
    assert [] + [K] == [K];
  }

  // ----- the run -----

  /** While HELLOs go round. */
  function Greeting(i: nat): Net
    requires 0 <= i < 11
  {
    if i == 0 then Net(Five(Quiescent(1), Quiescent(2), Quiescent(3), Quiescent(4), Quiescent(5)), [], {}, {})
    else if i == 1 then Net(Five(Quiescent(1), Quiescent(2), Quiescent(3), Quiescent(4), Quiescent(5)), [], {H4}, {})
    else if i == 2 then Net(Five(Quiescent(1), Knowing(2, NEAR2, {}), Quiescent(3), Quiescent(4), Quiescent(5)), [], {H4}, {})
    else if i == 3 then Net(Five(Quiescent(1), Knowing(2, NEAR2, {}), Quiescent(3), Quiescent(4), Quiescent(5)), [], {H4, H2}, {})
    else if i == 4 then Net(Five(Knowing(1, NEAR1A, {2}), Knowing(2, NEAR2, {}), Quiescent(3), Quiescent(4), Quiescent(5)), [], {H4, H2}, {})
    else if i == 5 then Net(Five(Knowing(1, NEAR1A, {2}), Knowing(2, NEAR2, {}), Quiescent(3), Quiescent(4), Quiescent(5)), [], {H4, H2, H5}, {})
    else if i == 6 then Net(Five(Knowing(1, NEAR1A, {2}), Knowing(2, NEAR2, {}), Knowing(3, NEAR3, {}), Quiescent(4), Quiescent(5)), [], {H4, H2, H5}, {})
    else if i == 7 then Net(Five(Knowing(1, NEAR1A, {2}), Knowing(2, NEAR2, {}), Knowing(3, NEAR3, {}), Quiescent(4), Quiescent(5)), [], {H4, H2, H5, H3}, {})
    else if i == 8 then Net(Five(Knowing(1, NEAR1, {2, 3}), Knowing(2, NEAR2, {}), Knowing(3, NEAR3, {}), Quiescent(4), Quiescent(5)), [], {H4, H2, H5, H3}, {})
    else if i == 9 then Net(Five(Knowing(1, NEAR1, {2, 3}), Knowing(2, NEAR2, {}), Knowing(3, NEAR3, {}), Quiescent(4), Quiescent(5)), [], {H4, H2, H5, H3, H1}, {})
    else Net(Five(Knowing(1, NEAR1, {2, 3}), Knowing(2, AROUND2, {1}), Knowing(3, NEAR3, {}), Quiescent(4), Quiescent(5)), [], {H4, H2, H5, H3, H1}, {})
  }

  /** While the packet does. */
  function Spreading(i: nat): Net
    requires 11 <= i < 19
  {
    if i == 11 then Net(Five(Knowing(1, NEAR1, {2, 3}), Knowing(2, AROUND2, {1}), Knowing(3, AROUND3, {1}), Quiescent(4), Quiescent(5)), [], {H4, H2, H5, H3, H1}, {})
    else if i == 12 then Net(Five(Sender(), Knowing(2, AROUND2, {1}), Knowing(3, AROUND3, {1}), Quiescent(4), Quiescent(5)), [Transmission(FIRST, {2, 3, 4, 5})], {H4, H2, H5, H3, H1}, {})
    else if i == 13 then Net(Five(Sender(), Armed(2, AROUND2), Knowing(3, AROUND3, {1}), Quiescent(4), Quiescent(5)), [Transmission(FIRST, {3, 4, 5})], {H4, H2, H5, H3, H1}, {})
    else if i == 14 then Net(Five(Sender(), Armed(2, AROUND2), Armed(3, AROUND3), Quiescent(4), Quiescent(5)), [Transmission(FIRST, {4, 5})], {H4, H2, H5, H3, H1}, {})
    else if i == 15 then Net(Five(Sender(), Armed(2, AROUND2), Relayed(), Quiescent(4), Quiescent(5)), [Transmission(FIRST, {4, 5}), Transmission(SECOND, {1, 2, 4, 5})], {H4, H2, H5, H3, H1}, {})
    else if i == 16 then Net(Five(Sender(), Silenced(), Relayed(), Quiescent(4), Quiescent(5)), [Transmission(FIRST, {4, 5}), Transmission(SECOND, {1, 4, 5})], {H4, H2, H5, H3, H1}, {(K, 2)})
    else if i == 17 then Net(Five(Sender().(dropDup := 1), Silenced(), Relayed(), Quiescent(4), Quiescent(5)), [Transmission(FIRST, {4, 5}), Transmission(SECOND, {4, 5})], {H4, H2, H5, H3, H1}, {(K, 2)})
    else Net(Five(Sender().(dropDup := 1), Silenced(), Relayed(), Quiescent(4), End()), [Transmission(FIRST, {4, 5}), Transmission(SECOND, {4})], {H4, H2, H5, H3, H1}, {(K, 2), (K, 5)})
  }

  function Stage(i: nat): Net
    requires i < 19
  {
    if i < 11 then Greeting(i) else Spreading(i)
  }

  lemma FourSays()
    ensures Step(Stage(0), Stage(1))
  {
    FirstElections();
    AllQuiescent(4);
    hide IsElection, Step;
    Say(Stage(0), Stage(1), 4, map[], {}, H4, []);
  }

  lemma TwoLearnsOfFour()
    ensures Step(Stage(1), Stage(2))
  {
    FirstElections();
    AllQuiescent(2);
    hide IsElection, Step;
    Hear(Stage(1), Stage(2), 2, map[], {}, H4, NEAR2, {}, []);
  }

  lemma TwoSays()
    ensures Step(Stage(2), Stage(3))
  {
    FirstElections();
    hide IsElection, Step;
    Say(Stage(2), Stage(3), 2, NEAR2, {}, H2, []);
  }

  lemma OneLearnsOfTwo()
    ensures Step(Stage(3), Stage(4))
  {
    LaterElections();
    AllQuiescent(1);
    hide IsElection, Step;
    Hear(Stage(3), Stage(4), 1, map[], {}, H2, NEAR1A, {2}, [2]);
  }

  lemma FiveSays()
    ensures Step(Stage(4), Stage(5))
  {
    FirstElections();
    AllQuiescent(5);
    hide IsElection, Step;
    Say(Stage(4), Stage(5), 5, map[], {}, H5, []);
  }

  lemma ThreeLearnsOfFive()
    ensures Step(Stage(5), Stage(6))
  {
    FirstElections();
    AllQuiescent(3);
    hide IsElection, Step;
    Hear(Stage(5), Stage(6), 3, map[], {}, H5, NEAR3, {}, []);
  }

  lemma ThreeSays()
    ensures Step(Stage(6), Stage(7))
  {
    FirstElections();
    hide IsElection, Step;
    Say(Stage(6), Stage(7), 3, NEAR3, {}, H3, []);
  }

  lemma OneLearnsOfThree()
    ensures Step(Stage(7), Stage(8))
  {
    SourceElects();
    hide IsElection, Step;
    Hear(Stage(7), Stage(8), 1, NEAR1A, {2}, H3, NEAR1, {2, 3}, [2, 3]);
  }

  lemma OneSays()
    ensures Step(Stage(8), Stage(9))
  {
    SourceElects();
    hide IsElection, Step;
    Say(Stage(8), Stage(9), 1, NEAR1, {2, 3}, H1, [2, 3]);
  }

  lemma TwoIsElected()
    ensures Step(Stage(9), Stage(10))
  {
    LaterElections();
    hide IsElection, Step;
    Hear(Stage(9), Stage(10), 2, NEAR2, {}, H1, AROUND2, {1}, [1]);
  }

  lemma ThreeIsElected()
    ensures Step(Stage(10), Stage(11))
  {
    LaterElections();
    hide IsElection, Step;
    Hear(Stage(10), Stage(11), 3, NEAR3, {}, H1, AROUND3, {1}, [1]);
  }

  lemma SourceStarts()
    ensures Step(Stage(11), Stage(12))
  {
    hide Step;
    Originates();
    hide AfterOriginate, OriginatedPacket;
    assert Stage(11).nodes.Keys - {1} == {2, 3, 4, 5};
    StartStep(Stage(11), Stage(12), 1, Sender(), FIRST);
  }

  lemma TwoArms()
    ensures Step(Stage(12), Stage(13))
  {
    hide Step;
    Arms(2, AROUND2);
    hide AfterPacket, Refuses, Knowing, Armed, Silenced, Relayed, Sender, End;
    assert {2, 3, 4, 5} - {2} == {3, 4, 5};
    ReceiveStep(Stage(12), Stage(13), 2, 0, Armed(2, AROUND2));
  }

  lemma ThreeArms()
    ensures Step(Stage(13), Stage(14))
  {
    hide Step;
    Arms(3, AROUND3);
    hide AfterPacket, Refuses, Knowing, Armed, Silenced, Relayed, Sender, End;
    assert {3, 4, 5} - {3} == {4, 5};
    ReceiveStep(Stage(13), Stage(14), 3, 0, Armed(3, AROUND3));
  }

  lemma ThreeRelays()
    ensures Step(Stage(14), Stage(15))
  {
    hide Step;
    GoesOff();
    hide AfterFire, FiredPacket;
    assert Stage(14).nodes.Keys - {3} == {1, 2, 4, 5};
    FireStep(Stage(14), Stage(15), 3, K, Relayed(), SECOND);
  }

  lemma TwoIsSilenced()
    ensures Step(Stage(15), Stage(16))
  {
    hide Step;
    Overhears();
    hide AfterPacket, Refuses, Knowing, Armed, Silenced, Relayed, Sender, End;
    assert {1, 2, 4, 5} - {2} == {1, 4, 5};
    ReceiveStep(Stage(15), Stage(16), 2, 1, Silenced());
  }

  lemma SourceHearsItBack()
    ensures Step(Stage(16), Stage(17))
  {
    hide Step;
    ComesBack();
    hide AfterPacket, Refuses, Knowing, Armed, Silenced, Relayed, Sender, End;
    assert {1, 4, 5} - {1} == {4, 5};
    ReceiveStep(Stage(16), Stage(17), 1, 1, Sender().(dropDup := 1));
  }

  lemma FiveGetsIt()
    ensures Step(Stage(17), Stage(18))
  {
    hide Step;
    Ends();
    hide AfterPacket, Refuses, Knowing, Armed, Silenced, Relayed, Sender, End;
    assert {4, 5} - {5} == {4};
    assert {(K, 2)} + {(K, 5)} == {(K, 2), (K, 5)};
    ReceiveStep(Stage(17), Stage(18), 5, 1, End());
  }

  lemma StageFollows(i: nat)
    requires i < 18
    ensures Step(Stage(i), Stage(i + 1))
  {
    hide *;
    if i == 0 { FourSays(); }
    else if i == 1 { TwoLearnsOfFour(); }
    else if i == 2 { TwoSays(); }
    else if i == 3 { OneLearnsOfTwo(); }
    else if i == 4 { FiveSays(); }
    else if i == 5 { ThreeLearnsOfFive(); }
    else if i == 6 { ThreeSays(); }
    else if i == 7 { OneLearnsOfThree(); }
    else if i == 8 { OneSays(); }
    else if i == 9 { TwoIsElected(); }
    else if i == 10 { ThreeIsElected(); }
    else if i == 11 { SourceStarts(); }
    else if i == 12 { TwoArms(); }
    else if i == 13 { ThreeArms(); }
    else if i == 14 { ThreeRelays(); }
    else if i == 15 { TwoIsSilenced(); }
    else if i == 16 { SourceHearsItBack(); }
    else { FiveGetsIt(); }
  }

  function Links(): set<(Address, Address)> {
    {(1, 2), (2, 1), (1, 3), (3, 1), (2, 3), (3, 2), (2, 4), (4, 2), (3, 5), (5, 3)}
  }

  lemma EndHasOneKey()
    ensures KeysSent(Stage(18)) == {K}
  {
    hide Five, Knowing, Quiescent, Armed, Relayed, Silenced, End, Sender;
    assert Stage(18).sent[0] in Stage(18).sent;
  }

  lemma EndHasFiveNodes()
    ensures |Stage(18).nodes| == 5
  {
    hide Knowing, Quiescent, Armed, Relayed, Silenced, End, Sender;
    var net := Stage(18);
    assert net.nodes.Keys == {1, 2, 3, 4, 5} && |net.nodes| == |net.nodes.Keys|;
  }

  lemma EndHasBudget()
    ensures BudgetOf(Stage(18), K) == 3
  {
  }

  lemma EndIsQuiet()
    ensures Quiet(Stage(18), K, Links())
  {
  }

  lemma EndHasPath()
    ensures Sent(Stage(18), K, K.src) && IsPath(Stage(18), K, Links(), [1, 2, 4])
  {
    var net := Stage(18);
    assert net.sent[0].packet.key == K && net.sent[0].packet.lastHop == 1;
    assert !IsDestination(net, K, 2);
  }

  lemma EndStates()
    ensures forall v :: v in Stage(18).nodes ==> Stage(18).nodes[v].mode == Elected
    ensures 1 in Stage(18).nodes && 2 in Stage(18).nodes[1].mprSet && !Knows(Stage(18), 4, K)
  {
  }

  /** The hypotheses of naive coverage but for the mode, and node 4 without the packet though its one relay was elected. */
  ghost predicate LeavesOutFour(net: Net) {
    && |KeysSent(net)| <= RECENT_CACHE_CAP && (forall v :: v in net.nodes ==> net.nodes[v].mode == Elected)
    && |net.nodes| <= BudgetOf(net, K) + 2
    && Quiet(net, K, Links()) && Sent(net, K, K.src) && IsPath(net, K, Links(), [1, 2, 4])
    && 1 in net.nodes && 2 in net.nodes[1].mprSet && !Knows(net, 4, K)
  }

  lemma EndLeavesOutFour()
    ensures LeavesOutFour(Stage(18))
  {
    EndHasOneKey();
    EndHasFiveNodes();
    EndHasBudget();
    EndIsQuiet();
    EndHasPath();
    EndStates();
    hide KeysSent, Quiet, Sent, IsPath, BudgetOf, Stage, Knows, Links;
  }

  lemma BeginsFresh()
    ensures Init(Stage(0))
  {
  }

  /**
   All that the naive coverage theorem asks for except the mode holds of this run, and every HELLO that the elections in
   it rest on got through; the source elected node 2, and node 4, which only node 2 reaches, has not got the packet.
   */
  lemma ElectionLosesCoverage()
    ensures exists trace: seq<Net> :: IsTrace(trace) && LeavesOutFour(trace[|trace| - 1])
  {
    EndLeavesOutFour();
    BeginsFresh();
    var trace := seq(19, i requires 0 <= i < 19 => Stage(i));
    hide Next, Enabled, Stage, Step, LeavesOutFour, Init, Five;
    forall i | 0 <= i < |trace| - 1 ensures Step(trace[i], trace[i + 1]) {
      StageFollows(i);
    }
    assert IsTrace(trace) && trace[|trace| - 1] == Stage(18);
  }
}
