/** Suppression costs coverage: a lossless SNR flood that goes quiet without reaching a node the naive one would reach. */
module SuppressionLoss {
  import opened Types
  import opened DuplicateCache
  import opened Mpr
  import opened FloodModel
  import opened FloodNet
  import opened FloodBound
  import opened FloodCoverage

  const K: Key := Key(1, 1)

  function Quiescent(v: Address): State { Fresh(v, Snr, 3, 0) }

  function Sender(): State {
    Quiescent(1).(recent := [K], nextPacketId := 2, originated := 1)
  }

  function Armed(v: Address): State {
    Quiescent(v).(recent := [K], delivered := 1, scheduled := 1, pending := map[K := Timer(K, 2, 4, [], 0)])
  }

  function Relayed(v: Address): State { Armed(v).(pending := map[], forwarded := 1) }

  function Silenced(v: Address): State { Armed(v).(pending := map[], suppressed := 1) }

  const FIRST: Packet := Packet(K, 4, 1, 3, [], 0)
  const SECOND: Packet := Packet(K, 4, 3, 2, [], 0)

  function Four(a: State, b: State, c: State, d: State): map<Address, State> {
    map[1 := a, 2 := b, 3 := c, 4 := d]
  }

  function Stage(i: nat): Net
    requires i < 6
  {
    if i == 0 then Net(Four(Quiescent(1), Quiescent(2), Quiescent(3), Quiescent(4)), [], {}, {})
    else if i == 1 then Net(Four(Sender(), Quiescent(2), Quiescent(3), Quiescent(4)), [Transmission(FIRST, {2, 3, 4})], {}, {})
    else if i == 2 then Net(Four(Sender(), Armed(2), Quiescent(3), Quiescent(4)), [Transmission(FIRST, {3, 4})], {}, {})
    else if i == 3 then Net(Four(Sender(), Armed(2), Armed(3), Quiescent(4)), [Transmission(FIRST, {4})], {}, {})
    else if i == 4 then Net(Four(Sender(), Armed(2), Relayed(3), Quiescent(4)), [Transmission(FIRST, {4}), Transmission(SECOND, {1, 2, 4})], {}, {})
    else Net(Four(Sender(), Silenced(2), Relayed(3), Quiescent(4)), [Transmission(FIRST, {4}), Transmission(SECOND, {1, 4})], {}, {(K, 2)})
  }

  function Happening(i: nat): Event
    requires i < 5
  {
    if i == 0 then Start(1, 4, [], 0)
    else if i == 1 then Receive(2, 0, 0)
    else if i == 2 then Receive(3, 0, 0)
    else if i == 3 then Fire(3, K)
    else Receive(2, 1, 0)
  }

  lemma Arrives(v: Address)
    requires v == 2 || v == 3
    ensures AfterPacket(Quiescent(v), FIRST, 0) == Armed(v)
  {
  }

  lemma Overheard()
    ensures AfterPacket(Armed(2), SECOND, 0) == Silenced(2)
  {
    assert map[K := Timer(K, 2, 4, [], 0)] - {K} == map[];
  }

  lemma GoesOff()
    ensures AfterFire(Armed(3), K) == Relayed(3) && FiredPacket(Armed(3), K) == SECOND
  {
    assert map[K := Timer(K, 2, 4, [], 0)] - {K} == map[];
  }

  lemma GoesOut()
    ensures AfterOriginate(Quiescent(1)) == Sender() && OriginatedPacket(Quiescent(1), 4, [], 0) == FIRST
  {
  }

  lemma SourceStarts()
    ensures Enabled(Stage(0), Happening(0)) && Next(Stage(0), Happening(0)) == Stage(1)
  {
    GoesOut();
    hide AfterOriginate, OriginatedPacket;
    assert Next(Stage(0), Happening(0)).nodes == Stage(1).nodes;
    assert Stage(0).nodes.Keys - {1} == {2, 3, 4};
  }

  lemma TwoHears()
    ensures Enabled(Stage(1), Happening(1)) && Next(Stage(1), Happening(1)) == Stage(2)
  {
    Arrives(2);
    hide AfterPacket;
    assert Next(Stage(1), Happening(1)).nodes == Stage(2).nodes;
    assert {2, 3, 4} - {2} == {3, 4};
  }

  lemma ThreeHears()
    ensures Enabled(Stage(2), Happening(2)) && Next(Stage(2), Happening(2)) == Stage(3)
  {
    Arrives(3);
    hide AfterPacket;
    assert Next(Stage(2), Happening(2)).nodes == Stage(3).nodes;
    assert {3, 4} - {3} == {4};
  }

  lemma ThreeRelays()
    ensures Enabled(Stage(3), Happening(3)) && Next(Stage(3), Happening(3)) == Stage(4)
  {
    GoesOff();
    hide AfterFire, FiredPacket;
    assert Next(Stage(3), Happening(3)).nodes == Stage(4).nodes;
    assert Stage(3).nodes.Keys - {3} == {1, 2, 4};
  }

  lemma TwoIsSilenced()
    ensures Enabled(Stage(4), Happening(4)) && Next(Stage(4), Happening(4)) == Stage(5)
  {
    Overheard();
    hide AfterPacket;
    assert Next(Stage(4), Happening(4)).nodes == Stage(5).nodes;
    assert {1, 2, 4} - {2} == {1, 4};
  }

  lemma StageFollows(i: nat)
    requires i < 5
    ensures Enabled(Stage(i), Happening(i)) && Next(Stage(i), Happening(i)) == Stage(i + 1)
  {
    hide *;
    if i == 0 { SourceStarts(); }
    else if i == 1 { TwoHears(); }
    else if i == 2 { ThreeHears(); }
    else if i == 3 { ThreeRelays(); }
    else { TwoIsSilenced(); }
  }

  function Links(): set<(Address, Address)> { {(1, 2), (1, 3), (2, 3), (3, 2), (2, 4)} }

  /**
   All that the naive coverage theorem asks for except the mode holds of this run, and node 4, two hops from the source,
   has not got the packet: its only relay was silenced by a node that cannot reach it.
   */
  lemma SuppressionLosesCoverage()
    ensures exists trace: seq<Net> ::
              && IsTrace(trace)
              && var net := trace[|trace| - 1];
                 && |KeysSent(net)| <= RECENT_CACHE_CAP && (forall v :: v in net.nodes ==> net.nodes[v].mode == Snr)
                 && |net.nodes| <= BudgetOf(net, K) + 2
                 && Quiet(net, K, Links()) && Sent(net, K, K.src) && IsPath(net, K, Links(), [1, 2, 4])
                 && !Knows(net, 4, K)
  {
    var trace := seq(6, i requires 0 <= i < 6 => Stage(i));
    hide Next, Enabled, Stage, Happening;
    forall i | 0 <= i < |trace| - 1 ensures Step(trace[i], trace[i + 1]) {
      StageFollows(i);
    }
    BeginsFresh();
    EndsUncovered();
    assert IsTrace(trace) && trace[|trace| - 1] == Stage(5);
  }

  lemma BeginsFresh()
    ensures Init(Stage(0))
  {
  }

  lemma OneKeySent()
    ensures KeysSent(Stage(5)) == {K} && BudgetOf(Stage(5), K) == 3
  {
    var net := Stage(5);
    assert net.sent[0] in net.sent;
  }

  lemma EndIsRoomy()
    ensures KeysSent(Stage(5)) == {K} && |Stage(5).nodes| == 4 && BudgetOf(Stage(5), K) == 3
  {
    hide KeysSent, BudgetOf;
    OneKeySent();
    var net := Stage(5);
    assert net.nodes.Keys == {1, 2, 3, 4} && |net.nodes| == |net.nodes.Keys|;
  }

  lemma EndIsQuiet()
    ensures Quiet(Stage(5), K, Links())
  {
  }

  lemma EndHasPath()
    ensures Sent(Stage(5), K, K.src) && IsPath(Stage(5), K, Links(), [1, 2, 4])
  {
    var net := Stage(5);
    assert net.sent[0].packet.key == K && net.sent[0].packet.lastHop == 1;
    assert !IsDestination(net, K, 2);
  }

  lemma EndsUncovered()
    ensures var net := Stage(5);
            && |KeysSent(net)| <= RECENT_CACHE_CAP && (forall v :: v in net.nodes ==> net.nodes[v].mode == Snr)
            && |net.nodes| <= BudgetOf(net, K) + 2
            && Quiet(net, K, Links()) && Sent(net, K, K.src) && IsPath(net, K, Links(), [1, 2, 4])
            && !Knows(net, 4, K)
  {
    EndIsRoomy();
    EndIsQuiet();
    EndHasPath();
    hide KeysSent, Quiet, Sent, IsPath, BudgetOf;
  }
}
