/**
 What a slot wakeup and a beacon make of a node, action by action, and what the host makes of the actions, with slot
 lengths, frequencies and limits written out.
 */
module SlotHandlers {
  import opened Types
  import opened NodeModel
  import opened Schedule
  import opened SlotModel
  import opened Rendezvous
  import opened SlotRuns
  import SlotClock

  // ----- cells -----

  /** The slot of a node: one of 1 to 15. */
  function SlotOf(hash: CellHash, a: Address): nat { 1 + hash(a).0 % 15 }

  /** The frequency on which a node hears, at a given slot number: 903.25 MHz and 1.6 MHz for each channel up. */
  function FrequencyOf(hash: CellHash, a: Address, asn: nat): nat {
    903_250_000 + 1_600_000 * [0, 5, 10, 15, 1, 6, 11, 2, 7, 12, 3, 8, 13, 4, 9, 14][(asn + hash(a).1 % 16) % 16]
  }

  lemma CellIs(hash: CellHash, a: Address, asn: nat)
    ensures AutonomousRxCell(hash, a).slotOffset == SlotOf(hash, a)
    ensures CellFrequency(asn, AutonomousRxCell(hash, a)) == FrequencyOf(hash, a, asn)
    ensures SlotOffset(asn) == asn % 16
  {
  }

  // ----- what a wakeup drains -----

  /** The broadcasts waiting once a beacon that is due has joined them, which it does in slot 0 alone. */
  function Waiting(s: SlotState, asn: nat): seq<Broadcast> {
    s.broadcasts + (if s.ebPending && asn % 16 == 0 then [Beacon(s.addr)] else [])
  }

  /** How many of them one wakeup takes. */
  function Taken(b: seq<Broadcast>): (n: nat)
    ensures n <= |b|
  {
    if |b| <= 32 then |b| else 32
  }

  function Transmissions(b: seq<Broadcast>): (r: seq<Action>) {
    seq(|b|, i requires 0 <= i < |b| => TxBroadcast(b[i]))
  }

  /** The node with that many broadcasts handed to the radio and a due beacon no longer pending. */
  function BroadcastsOut(s: SlotState, asn: nat): SlotState {
    var b := Waiting(s, asn);
    s.(ebPending := s.ebPending && asn % 16 != 0,
       broadcasts := b[Taken(b)..],
       actions := s.actions + Transmissions(b[..Taken(b)]))
  }

  lemma SlotDrains(s: SlotState, asn: nat)
    ensures var s1 := if s.ebPending && SlotOffset(asn) == 0 then s.(broadcasts := s.broadcasts + [Beacon(s.addr)], ebPending := false) else s;
            AfterDrain(s1) == BroadcastsOut(s, asn)
  {
    assert s.broadcasts + [] == s.broadcasts;
    var b := Waiting(s, asn);
    assert AsActions(b[..Taken(b)]) == Transmissions(b[..Taken(b)]);
  }

  // ----- what a wakeup transmits -----

  /** A link that has something to send to the owner of the slot. */
  predicate MaySend(hash: CellHash, links: map<Address, LinkInfo>, peer: Address, slot: nat) {
    peer in links && links[peer].pending != [] && SlotOf(hash, peer) == slot
  }

  /** The first such link in the order the table is walked is number i. */
  ghost predicate SendsFirst(hash: CellHash, links: map<Address, LinkInfo>, order: seq<Address>, slot: nat, i: nat) {
    i < |order| && MaySend(hash, links, order[i], slot) && forall j :: 0 <= j < i ==> !MaySend(hash, links, order[j], slot)
  }

  /** How many items a burst takes: at most four, and none from the first that is over 191 bytes on. */
  function BurstSize(pending: seq<PendingTx>): (k: nat)
    ensures k <= 4 && k <= |pending| && (forall j :: 0 <= j < k ==> |pending[j].payload| <= 191)
    ensures k == 4 || k == |pending| || |pending[k].payload| > 191
  {
    if |pending| == 0 || |pending[0].payload| > 191 then 0
    else if |pending| == 1 || |pending[1].payload| > 191 then 1
    else if |pending| == 2 || |pending[2].payload| > 191 then 2
    else if |pending| == 3 || |pending[3].payload| > 191 then 3
    else 4
  }

  /** The j-th transmission of the burst: item j, sealed under the link's key and the j-th counter from the current one. */
  function BurstFrame(my: Address, peer: Address, info: LinkInfo, j: nat, freq: nat): Action
    requires j < |info.pending|
  {
    TxData(Sealed(info.key, LinkNonce(my, peer, info.txCounter + j), info.pending[j].dest, info.pending[j].source, info.pending[j].payload),
           freq, 500_000)
  }

  function BurstFrames(my: Address, peer: Address, info: LinkInfo, freq: nat): (r: seq<Action>) {
    seq(BurstSize(info.pending), j requires 0 <= j < BurstSize(info.pending) => BurstFrame(my, peer, info, j, freq))
  }

  /** The node with a burst transmitted on the peer's frequency: exactly what was sent has left that queue, under as many counters. */
  function BurstOut(hash: CellHash, s: SlotState, peer: Address, asn: nat): SlotState
    requires peer in s.links
  {
    var info := s.links[peer];
    var k := BurstSize(info.pending);
    s.(links := s.links[peer := LinkInfo(info.key, info.txCounter + k, info.pending[k..])],
       actions := s.actions + BurstFrames(s.addr, peer, info, FrequencyOf(hash, peer, asn)))
  }

  lemma BurstIs(hash: CellHash, s: SlotState, peer: Address, asn: nat)
    requires peer in s.links
    ensures AfterTx(hash, s, peer, asn) == BurstOut(hash, s, peer, asn)
  {
    hide Sealing, AutonomousRxCell, CellFrequency, FrequencyOf, BurstFrames, BurstSize, AsTx;
    CellIs(hash, peer, asn);
    var info, freq := s.links[peer], FrequencyOf(hash, peer, asn);
    BurstParts(s.addr, peer, info, freq);
    var b, k := Sealing(s.addr, peer, info, 4), BurstSize(info.pending);
    assert AfterTx(hash, s, peer, asn) == s.(links := s.links[peer := b.rest], actions := s.actions + AsTx(b.frames, freq));
    hide AfterTx;
  }

  lemma BurstParts(my: Address, peer: Address, info: LinkInfo, freq: nat)
    ensures var b, k := Sealing(my, peer, info, 4), BurstSize(info.pending);
            b.rest == LinkInfo(info.key, info.txCounter + k, info.pending[k..]) && AsTx(b.frames, freq) == BurstFrames(my, peer, info, freq)
  {
    var b := Sealing(my, peer, info, 4);
    BurstTakesPrefix(my, peer, info, 4);
    SealedFit(my, peer, info, 4);
    BurstLength(info.pending, |b.frames|);
    hide Sealing, LinkNonce, BurstSize;
    assert AsTx(b.frames, freq) == BurstFrames(my, peer, info, freq);
  }

  lemma BurstLength(pending: seq<PendingTx>, k: nat)
    requires k <= 4 && k <= |pending| && (forall j :: 0 <= j < k ==> |pending[j].payload| <= 191)
    requires k == 4 || k == |pending| || |pending[k].payload| > 191
    ensures k == BurstSize(pending)
  {
  }

  /** Whatever a burst seals is at most 191 bytes long. */
  lemma {:induction false} SealedFit(my: Address, peer: Address, info: LinkInfo, n: nat)
    ensures var k := |Sealing(my, peer, info, n).frames|;
            k <= |info.pending| && forall j :: 0 <= j < k ==> |info.pending[j].payload| <= 191
    decreases n
  {
    hide LinkNonce;
    if n > 0 && info.pending != [] && SealHead(my, peer, info).Some? {
      SealedFit(my, peer, HeadSent(info), n - 1);
      assert forall j :: 0 < j < |info.pending| ==> info.pending[j] == HeadSent(info).pending[j - 1];
    }
  }

  lemma {:induction false} FirstReadyIs(hash: CellHash, links: map<Address, LinkInfo>, order: seq<Address>, slot: nat, i: nat)
    requires SendsFirst(hash, links, order, slot, i)
    ensures FirstReady(hash, links, order, slot) == Some(order[i])
    decreases |order|
  {
    if i > 0 {
      assert !MaySend(hash, links, order[0], slot);
      FirstReadyIs(hash, links, order[1..], slot, i - 1);
    }
  }

  /** The wakeup for slot number asn ends with the next one armed for the next slot boundary. */
  function NextArmed(s: SlotState, asn: nat, now: nat): Action
    requires now + s.asnOffset >= 0 && asn == (now + s.asnOffset) / 100_000_000
  {
    Arm(SlotToken, (asn + 1) * 100_000_000 - s.asnOffset - now)
  }

  lemma WakeupArms(hash: CellHash, s: SlotState, now: nat, order: seq<Address>)
    requires now + s.asnOffset >= 0
    ensures var asn := (now + s.asnOffset) / 100_000_000;
            AfterSlot(hash, s, asn, order).asnOffset == s.asnOffset
            && AfterWakeup(hash, s, now, order) == Acting(AfterSlot(hash, s, asn, order), NextArmed(s, asn, now))
  {
    SlotClock.AfterSlotKeepsClock(hash, s, (now + s.asnOffset) / 100_000_000, order);
    hide AfterSlot;
  }

  /** What a slot does before the next one is armed: a link ready to send is served, and then the own cell tuned to. */
  lemma SlotIs(hash: CellHash, s: SlotState, asn: nat, order: seq<Address>)
    ensures AfterSlot(hash, s, asn, order)
            == var u, first := BroadcastsOut(s, asn), FirstReady(hash, s.links, order, asn % 16);
               if asn % 16 != 0 && first.Some? && first.value in s.links then AfterTune(hash, AfterTx(hash, u, first.value, asn), asn)
               else if asn % 16 == SlotOf(hash, s.addr) then AfterTune(hash, u, asn)
               else u
  {
    SlotDrains(s, asn);
    CellIs(hash, s.addr, asn);
    assert BroadcastsOut(s, asn).links == s.links && BroadcastsOut(s, asn).addr == s.addr;
    hide AfterDrain, BroadcastsOut, AfterTx, AfterTune, AutonomousRxCell, FirstReady, SlotOffset;
  }

  /** The data radio is told to listen to half a megahertz on the node's own frequency. */
  function OwnCell(hash: CellHash, s: SlotState, asn: nat): SlotState {
    s.(actions := s.actions + [TuneData(FrequencyOf(hash, s.addr, asn), 500_000)])
  }

  lemma TuneIs(hash: CellHash, s: SlotState, asn: nat)
    ensures AfterTune(hash, s, asn) == OwnCell(hash, s, asn)
  {
    CellIs(hash, s.addr, asn);
    hide AutonomousRxCell, CellFrequency, FrequencyOf;
  }

  /**
   A wakeup in a slot other than 0 with a link ready to send: after the broadcasts it transmits up to four items of the
   first ready link, one frame each, on the frequency of the slot's owner, takes exactly these off that queue, tunes to its
   own cell and arms the next slot. This is so in the node's own slot as in any other.
   */
  lemma WakeupTransmits(hash: CellHash, s: SlotState, now: nat, order: seq<Address>, i: nat)
    requires now + s.asnOffset >= 0
    requires SendsFirst(hash, s.links, order, (now + s.asnOffset) / 100_000_000 % 16, i)
    requires (now + s.asnOffset) / 100_000_000 % 16 != 0
    ensures var asn := (now + s.asnOffset) / 100_000_000;
            var t := OwnCell(hash, BurstOut(hash, BroadcastsOut(s, asn), order[i], asn), asn);
            AfterWakeup(hash, s, now, order) == t.(actions := t.actions + [NextArmed(s, asn, now)])
  {
    var asn := (now + s.asnOffset) / 100_000_000;
    var u := BroadcastsOut(s, asn);
    WakeupArms(hash, s, now, order);
    SlotIs(hash, s, asn, order);
    FirstReadyIs(hash, s.links, order, asn % 16, i);
    BurstIs(hash, u, order[i], asn);
    TuneIs(hash, AfterTx(hash, u, order[i], asn), asn);
    hide AfterSlot, AfterWakeup, AfterTx, AfterTune, FirstReady, FrequencyOf, SlotOf, NextArmed, OwnCell, BurstOut, Transmissions;
  }

  /** A wakeup with no such link, or in slot 0, transmits no data and leaves the links alone: it tunes in its own slot, and arms the next. */
  lemma WakeupListens(hash: CellHash, s: SlotState, now: nat, order: seq<Address>)
    requires now + s.asnOffset >= 0
    requires var slot := (now + s.asnOffset) / 100_000_000 % 16;
             slot == 0 || forall p :: p in order ==> !MaySend(hash, s.links, p, slot)
    ensures var asn := (now + s.asnOffset) / 100_000_000;
            var u := BroadcastsOut(s, asn);
            var t := if asn % 16 == SlotOf(hash, s.addr) then OwnCell(hash, u, asn) else u;
            AfterWakeup(hash, s, now, order) == t.(actions := t.actions + [NextArmed(s, asn, now)])
  {
    var asn := (now + s.asnOffset) / 100_000_000;
    var u := BroadcastsOut(s, asn);
    WakeupArms(hash, s, now, order);
    SlotIs(hash, s, asn, order);
    TuneIs(hash, u, asn);
    if asn % 16 != 0 {
      forall p | p in order ensures !Ready(hash, s.links, p, asn % 16) { CellIs(hash, p, asn); }
      FirstReadyIsReady(hash, s.links, order, asn % 16);
    }
    hide AfterSlot, AfterWakeup, AfterTx, AfterTune, FirstReady, FrequencyOf, SlotOf, NextArmed, OwnCell, BroadcastsOut;
  }

  /** A burst consists of data transmissions and nothing else among a wakeup's actions is one. */
  lemma OnlyTheBurstTransmits(s: SlotState, asn: nat, my: Address, peer: Address, info: LinkInfo, freq: nat)
    requires forall a :: a in s.actions ==> !a.TxData?
    ensures forall a :: a in BroadcastsOut(s, asn).actions ==> !a.TxData?
    ensures forall a :: a in BurstFrames(my, peer, info, freq) ==> a.TxData?
  {
    hide LinkNonce, BurstSize;
  }

  // ----- the clock -----

  /** A beacon from another source than the first one heard is ignored. */
  lemma OtherSourceIgnored(s: SlotState, source: Address, ebAsn: nat, now: nat)
    requires s.timeSource.Some? && s.timeSource.value != source
    ensures AfterSync(s, source, ebAsn, now) == s
  {
  }

  /** The first source heard, from then on the only one, sets the clock to its slot number; if that moves it the slot is armed anew. */
  lemma SourceSetsClock(s: SlotState, source: Address, ebAsn: nat, now: nat)
    requires s.timeSource == None || s.timeSource == Some(source)
    ensures var t := AfterSync(s, source, ebAsn, now);
            && t == s.(timeSource := Some(source), asnOffset := ebAsn * 100_000_000 - now, actions := t.actions)
            && t.actions == s.actions + if ebAsn * 100_000_000 - now == s.asnOffset then [] else [Arm(SlotToken, 100_000_000)]
  {
    if ebAsn * 100_000_000 - now != s.asnOffset { WholeSlotAhead(ebAsn, now); }
    assert s.actions + [] == s.actions;
    hide NextDelay;
  }

  lemma WholeSlotAhead(ebAsn: nat, now: nat)
    ensures NextDelay(ebAsn * 100_000_000 - now, now) == 100_000_000
  {
    assert (now + (ebAsn * 100_000_000 - now)) / 100_000_000 == ebAsn;
  }

  // ----- the host -----

  function BroadcastsIn(actions: seq<Action>): seq<Broadcast> {
    if actions == [] then []
    else BroadcastsIn(actions[..|actions| - 1]) + var a := actions[|actions| - 1]; if a.TxBroadcast? then [a.broadcast] else []
  }

  function DataIn(actions: seq<Action>): seq<(Sealed, nat, nat)> {
    if actions == [] then []
    else DataIn(actions[..|actions| - 1]) + var a := actions[|actions| - 1]; if a.TxData? then [(a.frame, a.freq, a.bw)] else []
  }

  function DeliveriesIn(actions: seq<Action>): seq<(Address, Payload)> {
    if actions == [] then []
    else DeliveriesIn(actions[..|actions| - 1]) + var a := actions[|actions| - 1]; if a.Deliver? then [(a.from, a.payload)] else []
  }

  /** The host hands over all broadcasts, data frames and payloads among the actions, each kind in its order. */
  lemma {:induction false} DrainHandsOver(h: Host, actions: seq<Action>, now: nat)
    ensures var t := Drained(h, actions, now);
            && t.broadcasts == h.broadcasts + BroadcastsIn(actions)
            && t.data == h.data + DataIn(actions)
            && t.delivered == h.delivered + DeliveriesIn(actions)
            && t.hasRadio == h.hasRadio
  {
    if actions != [] { DrainHandsOver(h, actions[..|actions| - 1], now); }
  }

  /** A token's wakeup is due a delay after the last time it was armed, unless it was cancelled later. */
  lemma {:induction false} LastArmCounts(h: Host, actions: seq<Action>, now: nat, i: nat, token: Token)
    requires i < |actions| && (actions[i] == Cancel(token) || (actions[i].Arm? && actions[i].token == token))
    requires forall j :: i < j < |actions| ==> !((actions[j].Arm? || actions[j].Cancel?) && actions[j].token == token)
    ensures var dues := Drained(h, actions, now).dues;
            if actions[i].Arm? then token in dues && dues[token] == now + actions[i].delay else token !in dues
  {
    if i < |actions| - 1 { LastArmCounts(h, actions[..|actions| - 1], now, i, token); }
  }

  /** What the actions want the data radio tuned to, in order. */
  function TuningsIn(actions: seq<Action>): seq<(nat, nat)> {
    if actions == [] then []
    else TuningsIn(actions[..|actions| - 1])
         + var a := actions[|actions| - 1]; if a.TxData? || a.TuneData? then [(a.freq, a.bw)] else []
  }

  /** Where a radio that starts at `from` is after these, and how often it had to change. */
  function EndsAt(from: (nat, nat), tunings: seq<(nat, nat)>): (nat, nat) {
    if tunings == [] then from else tunings[|tunings| - 1]
  }

  function Changes(from: (nat, nat), tunings: seq<(nat, nat)>): nat {
    if tunings == [] then 0
    else
      var front := tunings[..|tunings| - 1];
      Changes(from, front) + if EndsAt(from, front) == tunings[|tunings| - 1] then 0 else 1
  }

  /** A data radio is left as the last transmission or tuning wants it, and changes only where two in a row differ; without one nothing is tuned. */
  lemma {:induction false} DrainTunes(h: Host, actions: seq<Action>, now: nat)
    ensures var t, wanted := Drained(h, actions, now), TuningsIn(actions);
            if h.hasRadio
            then (t.freq, t.bw) == EndsAt((h.freq, h.bw), wanted) && t.tuneCount == h.tuneCount + Changes((h.freq, h.bw), wanted)
            else (t.freq, t.bw) == (h.freq, h.bw) && t.tuneCount == h.tuneCount
  {
    if actions != [] {
      var front, a := actions[..|actions| - 1], actions[|actions| - 1];
      DrainTunes(h, front, now);
      DrainHandsOver(h, front, now);
      var before := TuningsIn(front);
      if a.TxData? || a.TuneData? {
        assert TuningsIn(actions) == before + [(a.freq, a.bw)];
        assert (before + [(a.freq, a.bw)])[..|before|] == before;
      } else {
        assert TuningsIn(actions) == before;
      }
      hide TuningsIn;
    }
  }

  // ----- a wakeup, as the radios see it -----

  lemma {:induction false} InTurn(a: seq<Action>, b: seq<Action>)
    ensures BroadcastsIn(a + b) == BroadcastsIn(a) + BroadcastsIn(b)
    ensures DataIn(a + b) == DataIn(a) + DataIn(b)
    decreases |b|
  {
    if b == [] {
      assert a + b == a;
    } else {
      var front := b[..|b| - 1];
      assert (a + b)[..|a + b| - 1] == a + front && (a + b)[|a + b| - 1] == b[|b| - 1];
      InTurn(a, front);
    }
  }

  lemma {:induction false} BroadcastsAlone(b: seq<Broadcast>)
    ensures BroadcastsIn(Transmissions(b)) == b && DataIn(Transmissions(b)) == []
  {
    if b != [] {
      var front := b[..|b| - 1];
      assert Transmissions(b)[..|b| - 1] == Transmissions(front);
      BroadcastsAlone(front);
    }
  }

  /** Data transmissions as they are queued for the radio: the frames, each with its frequency and bandwidth. */
  lemma {:induction false} DataAlone(acts: seq<Action>)
    requires forall i :: 0 <= i < |acts| ==> acts[i].TxData?
    ensures BroadcastsIn(acts) == [] && |DataIn(acts)| == |acts|
    ensures forall i :: 0 <= i < |acts| ==> DataIn(acts)[i] == (acts[i].frame, acts[i].freq, acts[i].bw)
  {
    if acts != [] {
      var front, a := acts[..|acts| - 1], acts[|acts| - 1];
      DataAlone(front);
      assert DataIn(acts) == DataIn(front) + [(a.frame, a.freq, a.bw)] && BroadcastsIn(acts) == BroadcastsIn(front) + [];
      hide DataIn, BroadcastsIn;
    }
  }

  lemma OneSilent(acts: seq<Action>, a: Action)
    requires !a.TxBroadcast? && !a.TxData?
    ensures BroadcastsIn(acts + [a]) == BroadcastsIn(acts) && DataIn(acts + [a]) == DataIn(acts)
  {
    assert (acts + [a])[..|acts|] == acts;
  }

  /** Broadcasts, then data, then what transmits nothing. */
  lemma InThree(b: seq<Broadcast>, data: seq<Action>, tune: Action, arm: Action)
    requires (forall i :: 0 <= i < |data| ==> data[i].TxData?) && tune.TuneData? && arm.Arm?
    ensures var acts := Transmissions(b) + data + [tune] + [arm]; BroadcastsIn(acts) == b && DataIn(acts) == DataIn(data)
  {
    BroadcastsAlone(b);
    DataAlone(data);
    InTurn(Transmissions(b), data);
    OneSilent(Transmissions(b) + data, tune);
    OneSilent(Transmissions(b) + data + [tune], arm);
    hide *;
  }

  /** The actions of a wakeup with a link ready to send, if nothing was queued before. */
  lemma WakeupActs(hash: CellHash, s: SlotState, now: nat, order: seq<Address>, i: nat)
    requires now + s.asnOffset >= 0 && s.actions == []
    requires SendsFirst(hash, s.links, order, (now + s.asnOffset) / 100_000_000 % 16, i)
    requires (now + s.asnOffset) / 100_000_000 % 16 != 0
    ensures var asn := (now + s.asnOffset) / 100_000_000;
            AfterWakeup(hash, s, now, order).actions
            == Transmissions(Waiting(s, asn)[..Taken(Waiting(s, asn))])
               + BurstFrames(s.addr, order[i], s.links[order[i]], FrequencyOf(hash, order[i], asn))
               + [TuneData(FrequencyOf(hash, s.addr, asn), 500_000)]
               + [NextArmed(s, asn, now)]
  {
    WakeupTransmits(hash, s, now, order, i);
    hide AfterWakeup, Transmissions, BurstFrames, NextArmed, FrequencyOf, Waiting, Taken, SlotOf, BurstSize;
    var out := Transmissions(Waiting(s, (now + s.asnOffset) / 100_000_000)[..Taken(Waiting(s, (now + s.asnOffset) / 100_000_000))]);
    assert [] + out == out;
  }

  lemma WakeupQueues(hash: CellHash, s: SlotState, now: nat, order: seq<Address>, i: nat)
    requires now + s.asnOffset >= 0 && s.actions == []
    requires SendsFirst(hash, s.links, order, (now + s.asnOffset) / 100_000_000 % 16, i)
    requires (now + s.asnOffset) / 100_000_000 % 16 != 0
    ensures var asn, acts := (now + s.asnOffset) / 100_000_000, AfterWakeup(hash, s, now, order).actions;
            && BroadcastsIn(acts) == Waiting(s, asn)[..Taken(Waiting(s, asn))]
            && DataIn(acts) == DataIn(BurstFrames(s.addr, order[i], s.links[order[i]], FrequencyOf(hash, order[i], asn)))
  {
    var asn := (now + s.asnOffset) / 100_000_000;
    var burst := BurstFrames(s.addr, order[i], s.links[order[i]], FrequencyOf(hash, order[i], asn));
    assert forall j :: 0 <= j < |burst| ==> burst[j].TxData? && NextArmed(s, asn, now).Arm?;
    InThree(Waiting(s, asn)[..Taken(Waiting(s, asn))], burst, TuneData(FrequencyOf(hash, s.addr, asn), 500_000), NextArmed(s, asn, now));
    WakeupActs(hash, s, now, order, i);
    hide *;
  }

  /**
   Main result: the host of a station that wakes in a slot other than 0 with a link ready to send hands the waiting
   broadcasts, up to 32, to one radio, and the burst, frame by frame on the frequency of the slot's owner, to the other.
   */
  lemma WakeupReachesRadios(hash: CellHash, sim: Sim, ev: Event, lag: nat, i: nat)
    requires ev.FireSlot? && Enabled(sim, ev, lag) && sim.stations[ev.station].node.actions == []
    requires sim.now + sim.stations[ev.station].node.asnOffset >= 0
    requires var s := sim.stations[ev.station].node;
             var slot := (sim.now + s.asnOffset) / 100_000_000 % 16;
             slot != 0 && SendsFirst(hash, s.links, ev.order, slot, i)
    ensures var s, h := sim.stations[ev.station].node, sim.stations[ev.station].host;
            var asn := (sim.now + s.asnOffset) / 100_000_000;
            var burst := BurstFrames(s.addr, ev.order[i], s.links[ev.order[i]], FrequencyOf(hash, ev.order[i], asn));
            var t := Acted(hash, sim, ev).host;
            && t.broadcasts == h.broadcasts + Waiting(s, asn)[..Taken(Waiting(s, asn))]
            && t.data == h.data + DataIn(burst)
  {
    var s, h := sim.stations[ev.station].node, sim.stations[ev.station].host;
    WakeupQueues(hash, s, sim.now, ev.order, i);
    var acts := AfterWakeup(hash, s, sim.now, ev.order).actions;
    DrainHandsOver(h.(dues := h.dues - {SlotToken}), acts, sim.now);
    hide AfterWakeup, BroadcastsIn, DataIn, Drained, BurstFrames, FrequencyOf, Waiting, Taken, SendsFirst;
    assert Acted(hash, sim, ev).host == Drained(h.(dues := h.dues - {SlotToken}), acts, sim.now);
  }
}
