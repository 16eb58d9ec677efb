/** Every flood is finite: a transmission of a packet with h hops left costs at most 1 + m + ... + m^h transmissions in all. */
module FloodBound {
  import opened Types
  import opened Sums
  import opened DuplicateCache
  import opened Mpr
  import opened FloodModel
  import opened FloodNet

  /** 1 + m + m^2 + ... + m^h. */
  function GeometricSum(m: nat, h: nat): nat {
    if h == 0 then 1 else GeometricSum(m, h - 1) + Power(m, h)
  }

  /** What one transmission with h hops left can still lead to, itself included, if m other nodes hear it. */
  function Worth(m: nat, h: nat): nat {
    if h == 0 then 1 else 1 + m * Worth(m, h - 1)
  }

  /** What one reception of a packet with h hops left can lead to. */
  function Spawned(m: nat, h: nat): nat {
    if h == 0 then 0 else Worth(m, h - 1)
  }

  lemma {:induction false} WorthIsGeometric(m: nat, h: nat)
    ensures Worth(m, h) == GeometricSum(m, h)
  {
    if h > 0 {
      WorthIsGeometric(m, h - 1);
      GeometricShift(m, h - 1);
    }
  }

  lemma WorthPositive(m: nat, h: nat)
    ensures Times(0, Worth(m, h)) == 0 && Times(1, Worth(m, h)) == Worth(m, h) >= 1
  {
    hide Worth;
    assert Worth(m, h) >= 1 by { WorthAtLeastOne(m, h); }
  }

  lemma WorthAtLeastOne(m: nat, h: nat)
    ensures Worth(m, h) >= 1
  {
  }

  lemma {:induction false} GeometricShift(m: nat, h: nat)
    ensures 1 + m * GeometricSum(m, h) == GeometricSum(m, h + 1)
  {
    if h == 0 {
      assert Power(m, 1) == m * Power(m, 0);
    } else {
      GeometricShift(m, h - 1);
      assert Power(m, h + 1) == m * Power(m, h);
      Distribute(m, GeometricSum(m, h - 1), Power(m, h));
    }
  }

  lemma Distribute(m: nat, a: nat, b: nat)
    ensures m * (a + b) == m * a + m * b
  {
  }

  /** What a transmission has led to and still may: itself, plus one spawned flood per node yet to hear it. */
  function TransmissionWorth(t: Transmission, k: Key, m: nat): nat {
    if t.packet.key == k then 1 + Times(|t.waiting|, Spawned(m, t.packet.hop)) else 0
  }

  function ChannelWorth(sent: seq<Transmission>, k: Key, m: nat): nat {
    if sent == [] then 0
    else ChannelWorth(sent[..|sent| - 1], k, m) + TransmissionWorth(sent[|sent| - 1], k, m)
  }

  function PendingWorth(net: Net, k: Key, m: nat, v: Address): nat {
    if v in net.nodes && k in net.nodes[v].pending then Worth(m, net.nodes[v].pending[k].hop) else 0
  }

  ghost function PendingWorthOf(net: Net, k: Key, m: nat): Address -> nat {
    (v: Address) => PendingWorth(net, k, m, v)
  }

  /** All transmissions of k made so far, and all they may still lead to. */
  ghost function TotalWorth(net: Net, k: Key): nat {
    var m := |net.nodes| - 1;
    if net.nodes == map[] then 0
    else ChannelWorth(net.sent, k, m) + SumOver(PendingWorthOf(net, k, m), net.nodes.Keys)
  }

  function Count(sent: seq<Transmission>, k: Key): nat {
    if sent == [] then 0
    else Count(sent[..|sent| - 1], k) + (if sent[|sent| - 1].packet.key == k then 1 else 0)
  }

  predicate IsOrigination(t: Transmission, k: Key) {
    t.packet.key == k && t.packet.lastHop == k.src
  }

  /** How often k was put on the air by its own source. */
  function Originations(sent: seq<Transmission>, k: Key): nat {
    if sent == [] then 0
    else Originations(sent[..|sent| - 1], k) + (if IsOrigination(sent[|sent| - 1], k) then 1 else 0)
  }

  lemma ChannelSnoc(sent: seq<Transmission>, t: Transmission, k: Key, m: nat)
    ensures ChannelWorth(sent + [t], k, m) == ChannelWorth(sent, k, m) + TransmissionWorth(t, k, m)
    ensures Originations(sent + [t], k)
            == Originations(sent, k) + (if IsOrigination(t, k) then 1 else 0)
  {
    assert (sent + [t])[..|sent|] == sent;
  }

  /** A reception takes one spawned flood off its transmission. */
  lemma {:induction false} ChannelReceives(sent: seq<Transmission>, i: nat, v: Address, k: Key, m: nat)
    requires i < |sent| && v in sent[i].waiting
    ensures var sent' := sent[i := sent[i].(waiting := sent[i].waiting - {v})];
            && ChannelWorth(sent', k, m) + (if sent[i].packet.key == k then Spawned(m, sent[i].packet.hop) else 0)
               == ChannelWorth(sent, k, m)
            && Originations(sent', k) == Originations(sent, k)
    decreases |sent|
  {
    var t := sent[i].(waiting := sent[i].waiting - {v});
    var sent' := sent[i := t];
    var last := |sent| - 1;
    if i == last {
      assert sent'[..last] == sent[..last];
      TimesGrows(|t.waiting|, Spawned(m, t.packet.hop));
    } else {
      assert sent'[..last] == sent[..last][i := t];
      ChannelReceives(sent[..last], i, v, k, m);
    }
  }

  lemma {:induction false} WorthCounts(sent: seq<Transmission>, k: Key, m: nat)
    ensures Count(sent, k) <= ChannelWorth(sent, k, m)
  {
    if sent != [] {
      WorthCounts(sent[..|sent| - 1], k, m);
      TimesPositive(|sent[|sent| - 1].waiting|, Spawned(m, sent[|sent| - 1].packet.hop));
    }
  }

  /** The hop limit the source of k gives its packets. */
  function BudgetOf(net: Net, k: Key): nat {
    if k.src in net.nodes then HopBudget(net.nodes[k.src].initialHopLimit) else 0
  }

  lemma EmitWorth(net: Net, v: Address, p: Packet, k: Key)
    requires v in net.nodes && p.lastHop == v
    ensures var m := |net.nodes| - 1;
            m >= 0
            && ChannelWorth(Emit(net, v, p), k, m)
               == ChannelWorth(net.sent, k, m) + (if p.key == k then Worth(m, p.hop) else 0)
    ensures Originations(Emit(net, v, p), k) == Originations(net.sent, k) + (if p.key == k && v == k.src then 1 else 0)
  {
    var m := |net.nodes| - 1;
    var others := net.nodes.Keys - {v};
    assert net.nodes.Keys == others + {v} && |net.nodes.Keys| == |net.nodes|;
    ChannelSnoc(net.sent, Transmission(p, others), k, m);
  }

  lemma SameNodes(nodes: map<Address, State>, v: Address, t: State)
    requires v in nodes
    ensures nodes[v := t].Keys == nodes.Keys && |nodes[v := t]| == |nodes| == |nodes.Keys| > 0
  {
    assert nodes[v := t].Keys == nodes.Keys;
    assert nodes.Keys == (nodes.Keys - {v}) + {v};
    assert |nodes[v := t]| == |nodes[v := t].Keys|;
  }

  lemma TotalIs(net: Net, k: Key)
    requires |net.nodes| > 0
    ensures var m := |net.nodes| - 1;
            TotalWorth(net, k) == ChannelWorth(net.sent, k, m) + SumOver(PendingWorthOf(net, k, m), net.nodes.Keys)
  {
    hide ChannelWorth;
  }

  /** If node v became t and the channel became `sent`, the total moved by the two differences. */
  lemma TotalMoves(net: Net, net': Net, k: Key, v: Address, t: State)
    requires v in net.nodes && net'.nodes == net.nodes[v := t]
    ensures var m := |net.nodes| - 1;
            m >= 0 && |net'.nodes| == |net.nodes|
            && TotalWorth(net', k) - ChannelWorth(net'.sent, k, m) - PendingWorth(net', k, m, v)
               == TotalWorth(net, k) - ChannelWorth(net.sent, k, m) - PendingWorth(net, k, m, v)
  {
    hide Worth, ChannelWorth, TotalWorth;
    SameNodes(net.nodes, v, t);
    var m := |net.nodes| - 1;
    TotalIs(net, k);
    TotalIs(net', k);
    SumMoves(PendingWorthOf(net, k, m), PendingWorthOf(net', k, m), net.nodes.Keys, v);
  }

  lemma StartWorth(net: Net, ev: Event, k: Key)
    requires Enabled(net, ev) && WellFormed(net) && ev.Start?
    ensures var started := Key(ev.node, net.nodes[ev.node].nextPacketId) == k;
            && TotalWorth(Next(net, ev), k) == TotalWorth(net, k) + (if started then Worth(|net.nodes| - 1, BudgetOf(net, k)) else 0)
            && Originations(Next(net, ev).sent, k) == Originations(net.sent, k) + (if started then 1 else 0)
  {
    var s := net.nodes[ev.node];
    hide Acted, Worth, ChannelWorth, Originations, TotalWorth, Remembered;
    ActedDoes(net, ev);
    TotalMoves(net, Next(net, ev), k, ev.node, Acted(net, ev));
    EmitWorth(net, ev.node, OriginatedPacket(s, ev.dst, ev.payload, ev.now), k);
  }

  lemma FireWorth(net: Net, ev: Event, k: Key)
    requires Enabled(net, ev) && WellFormed(net) && ev.Fire?
    ensures TotalWorth(Next(net, ev), k) == TotalWorth(net, k)
    ensures Originations(Next(net, ev).sent, k) == Originations(net.sent, k)
  {
    hide Acted, Worth, ChannelWorth, Originations, TotalWorth;
    ActedDoes(net, ev);
    TotalMoves(net, Next(net, ev), k, ev.node, Acted(net, ev));
    assert net.nodes[ev.node].pending[ev.key].key == ev.key && ev.key.src != ev.node;
    EmitWorth(net, ev.node, FiredPacket(net.nodes[ev.node], ev.key), k);
  }

  lemma ReceiveWorth(net: Net, ev: Event, k: Key)
    requires Enabled(net, ev) && WellFormed(net) && ev.Receive?
    ensures TotalWorth(Next(net, ev), k) <= TotalWorth(net, k)
    ensures Originations(Next(net, ev).sent, k) == Originations(net.sent, k)
  {
    hide Acted, Worth, ChannelWorth, Originations, TotalWorth, Remembered, RelayEffect;
    ActedDoes(net, ev);
    TotalMoves(net, Next(net, ev), k, ev.node, Acted(net, ev));
    ChannelReceives(net.sent, ev.index, ev.node, k, |net.nodes| - 1);
  }

  lemma TablesWorth(net: Net, ev: Event, k: Key)
    requires Enabled(net, ev) && WellFormed(net) && (ev.Announce? || ev.HearHello?)
    ensures TotalWorth(Next(net, ev), k) == TotalWorth(net, k)
    ensures Originations(Next(net, ev).sent, k) == Originations(net.sent, k)
  {
    hide Acted, Worth, ChannelWorth, Originations, TotalWorth, IsElection, IsHelloOf;
    ActedDoes(net, ev);
    TotalMoves(net, Next(net, ev), k, ev.node, Acted(net, ev));
  }

  /** The worth of k grows only when its source puts it on the air, and then by the worth of one full flood. */
  ghost predicate Funded(net: Net, k: Key) {
    net.nodes != map[] ==>
      TotalWorth(net, k) <= Times(Originations(net.sent, k), Worth(|net.nodes| - 1, BudgetOf(net, k)))
  }

  lemma StepKeepsFunded(net: Net, ev: Event, k: Key)
    requires Enabled(net, ev) && WellFormed(net) && Funded(net, k)
    ensures Funded(Next(net, ev), k)
  {
    hide Acted, Worth, Times, TotalWorth, Originations, Channel, IsElection, IsHelloOf;
    StepKeepsForm(net, ev);
    assert |Next(net, ev).nodes| == |net.nodes| by {
      assert |Next(net, ev).nodes.Keys| == |Next(net, ev).nodes| && |net.nodes.Keys| == |net.nodes|;
    }
    if ev.Start? {
      StartWorth(net, ev, k);
      TimesGrows(Originations(net.sent, k), Worth(|net.nodes| - 1, BudgetOf(net, k)));
    } else if ev.Fire? {
      FireWorth(net, ev, k);
    } else if ev.Receive? {
      ReceiveWorth(net, ev, k);
    } else {
      TablesWorth(net, ev, k);
    }
  }

  lemma {:induction false} FundedThroughout(trace: seq<Net>, i: nat, k: Key)
    requires IsTrace(trace) && i < |trace|
    ensures WellFormed(trace[i]) && Funded(trace[i], k)
    ensures trace[i].nodes.Keys == trace[0].nodes.Keys && BudgetOf(trace[i], k) == BudgetOf(trace[0], k)
  {
    hide Next, Enabled, Funded, WellFormed, Init;
    if i == 0 {
      InitiallyFunded(trace[0], k);
    } else {
      FundedThroughout(trace, i - 1, k);
      assert Step(trace[i - 1], trace[i - 1 + 1]);
      var ev :| Enabled(trace[i - 1], ev) && trace[i] == Next(trace[i - 1], ev);
      StepKeepsForm(trace[i - 1], ev);
      StepKeepsFunded(trace[i - 1], ev, k);
    }
  }

  lemma InitiallyFunded(net: Net, k: Key)
    requires Init(net)
    ensures WellFormed(net) && Funded(net, k)
  {
    if net.nodes != map[] {
      var m := |net.nodes| - 1;
      forall v | v in net.nodes.Keys ensures PendingWorthOf(net, k, m)(v) <= 0 {}
      SumBounded(PendingWorthOf(net, k, m), net.nodes.Keys, 0);
    }
  }

  /**
   In every mode, with losses, reordering and cache evictions: the transmissions of a packet number at most one geometric
   sum, up to the source's hop limit, for each time the source put it on the air.
   */
  lemma FloodIsFinite(trace: seq<Net>, i: nat, k: Key)
    requires IsTrace(trace) && i < |trace| && trace[0].nodes != map[]
    ensures Count(trace[i].sent, k)
            <= Times(Originations(trace[i].sent, k), GeometricSum(|trace[0].nodes| - 1, BudgetOf(trace[0], k)))
  {
    hide Count, Originations, Times, GeometricSum, ChannelWorth, Worth;
    FundedThroughout(trace, i, k);
    assert |trace[i].nodes| == |trace[i].nodes.Keys| && |trace[0].nodes| == |trace[0].nodes.Keys|;
    WorthCounts(trace[i].sent, k, |trace[0].nodes| - 1);
    WorthIsGeometric(|trace[0].nodes| - 1, BudgetOf(trace[0], k));
  }

  /** A source that has not used up its 2^32 ids has put each of its ids up to the last one on the air at most once. */
  ghost predicate IdsUnused(net: Net, k: Key) {
    k.src in net.nodes && net.nodes[k.src].originated < 0x1_0000_0000 ==>
      var s := net.nodes[k.src];
      && s.nextPacketId == (s.originated + 1) % 0x1_0000_0000
      && Originations(net.sent, k) <= (if 1 <= k.id <= s.originated then 1 else 0)
  }

  /** Who originates moves its id counter; nobody else's moves. */
  lemma CountersMove(net: Net, ev: Event, v: Address)
    requires Enabled(net, ev) && WellFormed(net) && v in net.nodes
    ensures var s, t := net.nodes[v], Next(net, ev).nodes[v];
            var starts := ev.Start? && ev.node == v;
            && t.originated == s.originated + (if starts then 1 else 0)
            && t.nextPacketId == if starts then (s.nextPacketId + 1) % 0x1_0000_0000 else s.nextPacketId
  {
    ActedDoes(net, ev);
    hide Acted, Channel, IsElection, IsHelloOf, Remembered, RelayEffect;
  }

  lemma OriginationsMove(net: Net, ev: Event, k: Key)
    requires Enabled(net, ev) && WellFormed(net)
    ensures Originations(Next(net, ev).sent, k) == Originations(net.sent, k)
            + (if ev.Start? && ev.node == k.src && net.nodes[k.src].nextPacketId == k.id then 1 else 0)
  {
    hide Next, WellFormed, TotalWorth, Originations, Worth, BudgetOf;
    if ev.Start? {
      StartWorth(net, ev, k);
    } else if ev.Fire? {
      FireWorth(net, ev, k);
    } else if ev.Receive? {
      ReceiveWorth(net, ev, k);
    } else {
      TablesWorth(net, ev, k);
    }
  }

  lemma StepKeepsIdsUnused(net: Net, ev: Event, k: Key)
    requires Enabled(net, ev) && WellFormed(net) && IdsUnused(net, k)
    ensures IdsUnused(Next(net, ev), k)
  {
    StepKeepsForm(net, ev);
    assert k.src in net.nodes <==> k.src in net.nodes.Keys;
    if k.src in net.nodes {
      CountersMove(net, ev, k.src);
      OriginationsMove(net, ev, k);
    }
    hide Enabled, Next, WellFormed, Originations;
    if k.src in net.nodes { CounterMoves(net.nodes[k.src], Next(net, ev).nodes[k.src], ev.Start? && ev.node == k.src); }
  }

  lemma CounterMoves(s: State, t: State, starts: bool)
    requires t.originated == s.originated + (if starts then 1 else 0)
    requires t.nextPacketId == if starts then (s.nextPacketId + 1) % 0x1_0000_0000 else s.nextPacketId
    requires t.originated < 0x1_0000_0000 ==> s.nextPacketId == (s.originated + 1) % 0x1_0000_0000
    ensures t.originated < 0x1_0000_0000 ==> t.nextPacketId == (t.originated + 1) % 0x1_0000_0000
    ensures starts && t.originated < 0x1_0000_0000 ==> s.nextPacketId == t.originated
  {
    CounterStep(s.originated);
  }

  lemma CounterStep(originated: nat)
    ensures originated + 1 < 0x1_0000_0000 ==>
              ((originated + 1) % 0x1_0000_0000 + 1) % 0x1_0000_0000 == (originated + 1 + 1) % 0x1_0000_0000
              && (originated + 1) % 0x1_0000_0000 == originated + 1
  {
  }

  lemma InitiallyUnused(net: Net, k: Key)
    requires Init(net)
    ensures IdsUnused(net, k)
  {
  }

  lemma {:induction false} IdsUnusedThroughout(trace: seq<Net>, i: nat, k: Key)
    requires IsTrace(trace) && i < |trace|
    ensures IdsUnused(trace[i], k)
  {
    hide Next, Enabled, Funded, WellFormed, Init, IdsUnused, BudgetOf;
    if i == 0 {
      InitiallyUnused(trace[0], k);
    } else {
      IdsUnusedThroughout(trace, i - 1, k);
      FundedThroughout(trace, i - 1, k);
      assert Step(trace[i - 1], trace[i - 1 + 1]);
      var ev :| Enabled(trace[i - 1], ev) && trace[i] == Next(trace[i - 1], ev);
      StepKeepsIdsUnused(trace[i - 1], ev, k);
    }
  }

  /** Until its source has originated 2^32 packets, one packet is put on the air at most 1 + m + ... + m^h times by all nodes together. */
  lemma OnePacketOneFlood(trace: seq<Net>, i: nat, k: Key)
    requires IsTrace(trace) && i < |trace| && trace[0].nodes != map[]
    requires k.src in trace[i].nodes && trace[i].nodes[k.src].originated < 0x1_0000_0000
    ensures Originations(trace[i].sent, k) <= 1
    ensures Count(trace[i].sent, k) <= GeometricSum(|trace[0].nodes| - 1, BudgetOf(trace[0], k))
  {
    hide Count, Originations, GeometricSum, Worth, IsTrace, Funded, WellFormed, BudgetOf;
    IdsUnusedThroughout(trace, i, k);
    FloodIsFinite(trace, i, k);
    WorthIsGeometric(|trace[0].nodes| - 1, BudgetOf(trace[0], k));
    WorthPositive(|trace[0].nodes| - 1, BudgetOf(trace[0], k));
  }
}
