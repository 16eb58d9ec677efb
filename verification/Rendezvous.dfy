/** Sender and receiver meet on one frequency; the clock bound is reached. */
module Rendezvous {
  import opened Types
  import opened NodeModel
  import opened Schedule
  import opened SlotModel
  import opened SlotRuns
  import opened SlotClock

  // ----- what a burst sends -----

  /** Frame j of a burst carries item j of the queue, under the link's key and the j-th counter from the current one. */
  predicate CarriesItem(my: Address, peer: Address, info: LinkInfo, j: nat, f: Sealed) {
    j < |info.pending|
    && f == Sealed(info.key, LinkNonce(my, peer, info.txCounter + j), info.pending[j].dest, info.pending[j].source, info.pending[j].payload)
  }

  /** A burst sends the first items in order under consecutive counters, and stops only at its limit, at the end or at an oversize item. */
  lemma {:induction false} BurstTakesPrefix(my: Address, peer: Address, info: LinkInfo, n: nat)
    ensures var b := Sealing(my, peer, info, n);
            var k := |b.frames|;
            && k <= n && k <= |info.pending|
            && b.rest == LinkInfo(info.key, info.txCounter + k, info.pending[k..])
            && (forall j :: 0 <= j < k ==> CarriesItem(my, peer, info, j, b.frames[j]))
            && (k == n || k == |info.pending| || |info.pending[k].payload| > RELAY_MAX_PAYLOAD)
    decreases n
  {
    hide LinkNonce, SealHead, CarriesItem;
    if n > 0 && info.pending != [] && SealHead(my, peer, info).Some? {
      BurstTakesPrefix(my, peer, HeadSent(info), n - 1);
      var tail := Sealing(my, peer, HeadSent(info), n - 1);
      var b := Sealing(my, peer, info, n);
      assert b.frames == [SealHead(my, peer, info).value] + tail.frames && b.rest == tail.rest;
      forall j | 0 <= j < |b.frames| ensures CarriesItem(my, peer, info, j, b.frames[j]) {
        if j == 0 { CarriesHead(my, peer, info); } else { CarriesTail(my, peer, info, j, b.frames[j]); }
      }
    } else {
      StopsHere(my, peer, info);
    }
  }

  lemma CarriesHead(my: Address, peer: Address, info: LinkInfo)
    requires info.pending != [] && SealHead(my, peer, info).Some?
    ensures CarriesItem(my, peer, info, 0, SealHead(my, peer, info).value)
  {
  }

  lemma CarriesTail(my: Address, peer: Address, info: LinkInfo, j: nat, f: Sealed)
    requires 0 < j && info.pending != [] && CarriesItem(my, peer, HeadSent(info), j - 1, f)
    ensures CarriesItem(my, peer, info, j, f)
  {
  }

  lemma StopsHere(my: Address, peer: Address, info: LinkInfo)
    ensures info.pending != [] && SealHead(my, peer, info).None? ==> |info.pending[0].payload| > RELAY_MAX_PAYLOAD
  {
  }

  /** A transmission queued for the peer that owns the slot, on the one frequency of that peer's cell. */
  ghost predicate ForOwner(hash: CellHash, s: SlotState, slot: nat, peer: Address, a: Action) {
    && a.TxData? && Ready(hash, s.links, peer, slot)
    && a.freq == RxFrequency(hash, peer) && a.bw == SUB_CHANNEL_HZ
    && exists j :: CarriesItem(s.addr, peer, s.links[peer], j, a.frame)
  }

  lemma {:induction false} FirstReadyIsReady(hash: CellHash, links: map<Address, LinkInfo>, order: seq<Address>, slot: nat)
    ensures var first := FirstReady(hash, links, order, slot);
            && (first.Some? ==> Ready(hash, links, first.value, slot))
            && (first.None? <==> forall p :: p in order ==> !Ready(hash, links, p, slot))
    decreases |order|
  {
    if order != [] && !Ready(hash, links, order[0], slot) {
      FirstReadyIsReady(hash, links, order[1..], slot);
      assert order == [order[0]] + order[1..];
    }
  }

  lemma BurstForOwner(hash: CellHash, s: SlotState, peer: Address, asn: nat, k: nat)
    requires Ready(hash, s.links, peer, SlotOffset(asn)) && s.actions == []
    requires k < |AfterTx(hash, s.(actions := []), peer, asn).actions|
    ensures ForOwner(hash, s, SlotOffset(asn), peer, AfterTx(hash, s, peer, asn).actions[k])
  {
    hide AutonomousRxCell, RxFrequency, CellFrequency, Sealing, CarriesItem;
    BurstTakesPrefix(s.addr, peer, s.links[peer], FRAMES_PER_TX_CELL);
    CellNeverHops(hash, peer, asn);
    var a := AfterTx(hash, s, peer, asn).actions[k];
    assert CarriesItem(s.addr, peer, s.links[peer], k, a.frame);
  }

  /** Transmissions a link adds to a queue that had none are for that link's peer. */
  lemma TxSendsToOwner(hash: CellHash, s: SlotState, peer: Address, asn: nat, k: nat)
    requires Ready(hash, s.links, peer, SlotOffset(asn)) && (forall j :: 0 <= j < |s.actions| ==> !s.actions[j].TxData?)
    requires k < |AfterTx(hash, s, peer, asn).actions| && AfterTx(hash, s, peer, asn).actions[k].TxData?
    ensures ForOwner(hash, s, SlotOffset(asn), peer, AfterTx(hash, s, peer, asn).actions[k])
  {
    hide AutonomousRxCell, RxFrequency, CellFrequency, Sealing, CarriesItem, SlotOffset;
    var bare := s.(actions := []);
    assert AfterTx(hash, s, peer, asn).actions == s.actions + AfterTx(hash, bare, peer, asn).actions;
    BurstForOwner(hash, bare, peer, asn, k - |s.actions|);
  }

  /** The same for a whole slot: drained broadcasts and tuning transmit nothing. */
  lemma SlotSendsToOwner(hash: CellHash, s: SlotState, asn: nat, order: seq<Address>, k: nat)
    requires s.actions == [] && k < |AfterSlot(hash, s, asn, order).actions| && AfterSlot(hash, s, asn, order).actions[k].TxData?
    ensures exists peer :: ForOwner(hash, s, SlotOffset(asn), peer, AfterSlot(hash, s, asn, order).actions[k])
  {
    var slot := SlotOffset(asn);
    var s1 := if s.ebPending && slot == 0 then s.(broadcasts := s.broadcasts + [Beacon(s.addr)], ebPending := false) else s;
    var s2 := AfterDrain(s1);
    assert forall j :: 0 <= j < |s2.actions| ==> !s2.actions[j].TxData?;
    assert s2.links == s.links && s2.addr == s.addr;
    hide AutonomousRxCell, RxFrequency, CellFrequency, CarriesItem, AfterTx, AfterDrain, SlotOffset;
    FirstReadyIsReady(hash, s2.links, order, slot);
    var first := FirstReady(hash, s2.links, order, slot);
    hide FirstReady;
    if slot != 0 && first.Some? {
      TxSendsToOwner(hash, s2, first.value, asn, k);
      assert ForOwner(hash, s, slot, first.value, AfterTx(hash, s2, first.value, asn).actions[k]);
    }
  }

  /** Every frame a wakeup transmits is for a peer that owns the slot, on that peer's frequency. */
  lemma WakeupSendsToOwner(hash: CellHash, s: SlotState, now: nat, order: seq<Address>, k: nat)
    requires s.actions == [] && now + s.asnOffset >= 0 && k < |AfterWakeup(hash, s, now, order).actions|
    requires AfterWakeup(hash, s, now, order).actions[k].TxData?
    ensures exists peer :: ForOwner(hash, s, SlotOffset(Asn(s.asnOffset, now)), peer, AfterWakeup(hash, s, now, order).actions[k])
  {
    hide AfterSlot, ForOwner, Asn, SlotOffset, NextDelay;
    SlotSendsToOwner(hash, s, Asn(s.asnOffset, now), order, k);
  }

  /** This peer's radio, if its last wakeup was in its own slot, is on the frequency of the frame. */
  ghost predicate Meets(sim: Sim, hash: CellHash, peer: Address, a: Action)
    requires a.TxData?
  {
    peer in sim.stations ==>
      var t := sim.stations[peer];
      t.host.hasRadio && t.wakeAsn.Some? && SlotOffset(t.wakeAsn.value) == AutonomousRxCell(hash, peer).slotOffset ==>
        t.host.freq == a.freq && t.host.bw == a.bw
  }

  /**
   Main result: in any run, whatever a waking station transmits is for the owner of the slot, and the owner's radio is
   on the frame's frequency from the owner's own wakeup in that slot on, whichever slot numbers the two count.
   */
  lemma SenderAndReceiverMeet(hash: CellHash, trace: seq<Sim>, i: nat, lag: nat, ev: Event, k: nat)
    requires IsTrace(hash, trace, lag) && i < |trace| && ev.FireSlot? && Enabled(trace[i], ev, lag)
    requires trace[i].now + trace[i].stations[ev.station].node.asnOffset >= 0
    requires k < |AfterWakeup(hash, trace[i].stations[ev.station].node, trace[i].now, ev.order).actions|
    requires AfterWakeup(hash, trace[i].stations[ev.station].node, trace[i].now, ev.order).actions[k].TxData?
    ensures var s := trace[i].stations[ev.station].node;
            var a := AfterWakeup(hash, s, trace[i].now, ev.order).actions[k];
            exists peer :: ForOwner(hash, s, SlotOffset(Asn(s.asnOffset, trace[i].now)), peer, a) && Meets(trace[i], hash, peer, a)
  {
    SimOkThroughout(hash, trace, i, lag);
    var s := trace[i].stations[ev.station].node;
    assert StationOk(hash, ev.station, trace[i].stations[ev.station], trace[i].now, lag);
    WakeupSendsToOwner(hash, s, trace[i].now, ev.order, k);
    hide IsTrace, AfterWakeup, AutonomousRxCell, RxFrequency, CarriesItem, Asn, SlotOffset, ClockOk, SlotOk, CountsOn;
    var a := AfterWakeup(hash, s, trace[i].now, ev.order).actions[k];
    var peer :| ForOwner(hash, s, SlotOffset(Asn(s.asnOffset, trace[i].now)), peer, a);
    assert Meets(trace[i], hash, peer, a) by {
      if peer in trace[i].stations { assert StationOk(hash, peer, trace[i].stations[peer], trace[i].now, lag); }
    }
  }
}
