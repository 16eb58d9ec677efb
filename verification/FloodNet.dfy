/** Flood nodes on a shared radio channel: every transmission reaches every other node at most once, or never. */
module FloodNet {
  import opened Types
  import opened DuplicateCache
  import opened Mpr
  import opened FloodModel

  /** A packet on the air and the nodes that may still receive it. */
  datatype Transmission = Transmission(packet: Packet, waiting: set<Address>)

  /** `refused` records who was silenced, or found itself not elected, for which packet; no node keeps it. */
  datatype Net = Net(nodes: map<Address, State>, sent: seq<Transmission>, hellos: set<Hello>, refused: set<(Key, Address)>)

  datatype Event =
    | Start(node: Address, dst: Address, payload: Payload, now: U64)
    | Receive(node: Address, index: nat, at: int)
    | Fire(node: Address, key: Key)
    | Announce(node: Address, hello: Hello, at: int, picks: seq<Address>)
    | HearHello(node: Address, hello: Hello, at: int, picks: seq<Address>)

  ghost predicate Init(net: Net) {
    && net.sent == [] && net.hellos == {} && net.refused == {}
    && forall v :: v in net.nodes ==>
         net.nodes[v] == Fresh(v, net.nodes[v].mode, net.nodes[v].initialHopLimit, net.nodes[v].neighbourTimeout)
  }

  function Acted(net: Net, ev: Event): State
    requires ev.node in net.nodes
    requires ev.Receive? ==> ev.index < |net.sent|
  {
    var s := net.nodes[ev.node];
    match ev
    case Start(_, _, _, _) => AfterOriginate(s)
    case Receive(_, i, at) => AfterPacket(s, net.sent[i].packet, at)
    case Fire(_, k) => AfterFire(s, k)
    case Announce(_, _, at, picks) => Reelected(s, at, picks)
    case HearHello(_, h, at, picks) => AfterHello(s, h, at, picks)
  }

  /** A rebroadcast timer that finds the channel busy re-arms itself and changes nothing, so it is no event here. */
  ghost predicate Enabled(net: Net, ev: Event) {
    && ev.node in net.nodes
    && match ev
       case Start(_, _, _, _) => true
       case Receive(v, i, _) => i < |net.sent| && v in net.sent[i].waiting
       case Fire(v, k) => k in net.nodes[v].pending
       case Announce(v, h, _, picks) => IsElection(v, Acted(net, ev).neighbours, picks) && IsHelloOf(Acted(net, ev), h)
       case HearHello(v, h, _, picks) => h in net.hellos && (h.src != v ==> IsElection(v, Acted(net, ev).neighbours, picks))
  }

  function Emit(net: Net, v: Address, p: Packet): seq<Transmission> {
    net.sent + [Transmission(p, net.nodes.Keys - {v})]
  }

  /** The channel after an event. */
  function Channel(net: Net, ev: Event): seq<Transmission>
    requires ev.node in net.nodes
    requires ev.Receive? ==> ev.index < |net.sent|
    requires ev.Fire? ==> ev.key in net.nodes[ev.node].pending
  {
    var s := net.nodes[ev.node];
    match ev
    case Start(v, dst, payload, now) => Emit(net, v, OriginatedPacket(s, dst, payload, now))
    case Fire(v, k) => Emit(net, v, FiredPacket(s, k))
    case Receive(v, i, _) => net.sent[i := net.sent[i].(waiting := net.sent[i].waiting - {v})]
    case Announce(_, _, _, _) => net.sent
    case HearHello(_, _, _, _) => net.sent
  }

  /** The node counted a suppression, or a drop for want of election. */
  predicate Refuses(s: State, t: State) {
    t.suppressed > s.suppressed || t.mprDrop > s.mprDrop
  }

  function Refusing(net: Net, ev: Event): set<(Key, Address)>
    requires ev.node in net.nodes
    requires ev.Receive? ==> ev.index < |net.sent|
  {
    if ev.Receive? && Refuses(net.nodes[ev.node], Acted(net, ev)) then {(net.sent[ev.index].packet.key, ev.node)} else {}
  }

  ghost function Next(net: Net, ev: Event): Net
    requires Enabled(net, ev)
  {
    Net(net.nodes[ev.node := Acted(net, ev)], Channel(net, ev),
        if ev.Announce? then net.hellos + {ev.hello} else net.hellos,
        net.refused + Refusing(net, ev))
  }

  ghost predicate Step(a: Net, b: Net) {
    exists ev :: Enabled(a, ev) && b == Next(a, ev)
  }

  ghost predicate IsTrace(trace: seq<Net>) {
    && |trace| > 0
    && Init(trace[0])
    && forall i :: 0 <= i < |trace| - 1 ==> Step(trace[i], trace[i + 1])
  }

  /** Nodes sit under their own id; timers carry the key they are filed under; packets come from nodes, relayed ones never from their source. */
  ghost predicate WellFormed(net: Net) {
    && (forall v :: v in net.nodes ==> net.nodes[v].myId == v)
    && (forall v, k :: v in net.nodes && k in net.nodes[v].pending ==> net.nodes[v].pending[k].key == k && k.src != v)
    && (forall i :: 0 <= i < |net.sent| ==>
          net.sent[i].packet.lastHop in net.nodes && net.sent[i].waiting <= net.nodes.Keys - {net.sent[i].packet.lastHop})
  }

  ghost predicate SameParameters(s: State, t: State) {
    t.myId == s.myId && t.mode == s.mode && t.initialHopLimit == s.initialHopLimit
  }

  /** A packet of key k may arm, cancel or leave alone the timer of k, and touches nothing else of the flood state. */
  ghost predicate PacketEffect(s: State, p: Packet, t: State) {
    && t.nextPacketId == s.nextPacketId && t.originated == s.originated
    && t.recent == Remembered(s.recent, p.key)
    && (|| t.pending == s.pending
        || (s.mode != Naive && p.key in s.pending && t.pending == s.pending - {p.key})
        || Arms(s, p, t))
  }

  ghost predicate Arms(s: State, p: Packet, t: State) {
    && p.key !in s.pending && p.key !in s.recent && p.hop > 0 && p.key.src != s.myId && p.dst != s.myId
    && t.pending == s.pending[p.key := Timer(p.key, p.hop - 1, p.dst, p.payload, p.txTime)]
  }

  /**
   A packet accepted with hops to go, not our own and not for us, is to be relayed, unless the node counts a refusal; a
   pending relay stays, or goes with such a count; nothing else counts as one.
   */
  ghost predicate RelayEffect(s: State, p: Packet, t: State) {
    if p.key in s.pending then
      if Refuses(s, t) then s.mode != Naive && t.pending == s.pending - {p.key} else t.pending == s.pending
    else if p.key !in s.recent && p.hop > 0 && p.key.src != s.myId && p.dst != s.myId then
      if Refuses(s, t) then s.mode == Elected && t.pending == s.pending else Arms(s, p, t)
    else !Refuses(s, t) && t.pending == s.pending
  }

  lemma PacketDoes(s: State, p: Packet, at: int)
    ensures SameParameters(s, AfterPacket(s, p, at))
    ensures PacketEffect(s, p, AfterPacket(s, p, at))
  {
    hide SenderElectedUs;
  }

  lemma PacketRelays(s: State, p: Packet, at: int)
    ensures RelayEffect(s, p, AfterPacket(s, p, at))
  {
    hide SenderElectedUs, Remembered;
  }

  /** A node refuses exactly when a copy silences its pending relay, or a sender whose relay it is not hands it the packet. */
  lemma RefusesIff(s: State, p: Packet, at: int)
    ensures Refuses(s, AfterPacket(s, p, at)) <==>
              || (p.key in s.pending && s.mode != Naive)
              || (&& p.key !in s.pending && p.key !in s.recent && p.hop > 0 && p.key.src != s.myId && p.dst != s.myId
                  && s.mode == Elected && !SenderElectedUs(NoteHeard(s, p.lastHop, at), p.lastHop))
  {
  }

  /** Events that only move neighbour tables leave the flood state as it is. */
  ghost predicate TablesOnly(s: State, t: State) {
    t.recent == s.recent && t.pending == s.pending && t.nextPacketId == s.nextPacketId && t.originated == s.originated
  }

  lemma ActedDoes(net: Net, ev: Event)
    requires Enabled(net, ev)
    ensures var s, t := net.nodes[ev.node], Acted(net, ev);
            && SameParameters(s, t)
            && (ev.Announce? || ev.HearHello? ==> TablesOnly(s, t))
            && (ev.Receive? ==> PacketEffect(s, net.sent[ev.index].packet, t))
            && (ev.Receive? ==> RelayEffect(s, net.sent[ev.index].packet, t))
            && (ev.Fire? ==> t == AfterFire(s, ev.key))
            && (ev.Start? ==> t == AfterOriginate(s))
  {
    hide AfterPacket, Remembered, Stale, IsElection, PacketEffect, RelayEffect;
    if ev.Receive? {
      PacketDoes(net.nodes[ev.node], net.sent[ev.index].packet, ev.at);
      PacketRelays(net.nodes[ev.node], net.sent[ev.index].packet, ev.at);
    }
  }

  lemma ActedKeepsForm(net: Net, ev: Event)
    requires Enabled(net, ev) && WellFormed(net)
    ensures Acted(net, ev).myId == ev.node
    ensures forall k :: k in Acted(net, ev).pending ==> Acted(net, ev).pending[k].key == k && k.src != ev.node
  {
    ActedDoes(net, ev);
    var s := net.nodes[ev.node];
    assert s.myId == ev.node && forall k :: k in s.pending ==> s.pending[k].key == k && k.src != ev.node;
    hide Acted, IsElection, IsHelloOf, RelayEffect, Remembered, WellFormed;
  }

  lemma ChannelKeepsForm(net: Net, ev: Event, i: nat)
    requires Enabled(net, ev) && WellFormed(net) && i < |Channel(net, ev)|
    ensures var t := Channel(net, ev)[i];
            t.packet.lastHop in net.nodes && t.waiting <= net.nodes.Keys - {t.packet.lastHop}
  {
    assert net.nodes[ev.node].myId == ev.node;
    hide Acted, IsElection, IsHelloOf;
    if i < |net.sent| {
      assert net.sent[i].packet.lastHop in net.nodes && net.sent[i].waiting <= net.nodes.Keys - {net.sent[i].packet.lastHop};
    }
  }

  lemma StepKeepsForm(net: Net, ev: Event)
    requires Enabled(net, ev) && WellFormed(net)
    ensures WellFormed(Next(net, ev)) && Next(net, ev).nodes.Keys == net.nodes.Keys
    ensures forall v :: v in net.nodes ==> SameParameters(net.nodes[v], Next(net, ev).nodes[v])
  {
    ActedKeepsForm(net, ev);
    ActedDoes(net, ev);
    hide Acted, Channel, Enabled, SameParameters, PacketEffect, RelayEffect, TablesOnly;
    var net' := Next(net, ev);
    forall i | 0 <= i < |net'.sent|
      ensures net'.sent[i].packet.lastHop in net'.nodes && net'.sent[i].waiting <= net'.nodes.Keys - {net'.sent[i].packet.lastHop}
    {
      ChannelKeepsForm(net, ev, i);
    }
    forall v | v in net.nodes ensures SameParameters(net.nodes[v], net'.nodes[v]) {
      if v != ev.node { SameAsItself(net.nodes[v]); }
    }
  }

  lemma SameAsItself(s: State)
    ensures SameParameters(s, s)
  {
  }
}
