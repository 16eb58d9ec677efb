/** The slot driver as the stack keeps it, and the host that runs its actions. */
module SlotNode {
  import opened Types
  import opened NodeModel
  import opened Schedule
  import opened SlotModel

  lemma SealingSplits(my: Address, peer: Address, info: LinkInfo, n: nat)
    requires info.pending != [] && SealHead(my, peer, info).Some?
    ensures var b := Sealing(my, peer, HeadSent(info), n);
            Sealing(my, peer, info, n + 1) == Burst([SealHead(my, peer, info).value] + b.frames, b.rest)
  {
  }

  lemma AsTxSnoc(frames: seq<Sealed>, last: Sealed, freq: nat)
    ensures AsTx(frames + [last], freq) == AsTx(frames, freq) + [TxData(last, freq, SUB_CHANNEL_HZ)]
  {
  }

  /** What a burst in progress has sent, and what it will still send, is the whole burst. */
  ghost predicate Underway(whole: Burst, done: seq<Sealed>, rest: Burst) {
    whole == Burst(done + rest.frames, rest.rest)
  }

  lemma UnderwayStep(whole: Burst, done: seq<Sealed>, my: Address, peer: Address, info: LinkInfo, n: nat)
    requires info.pending != [] && SealHead(my, peer, info).Some?
    requires Underway(whole, done, Sealing(my, peer, info, n + 1))
    ensures Underway(whole, done + [SealHead(my, peer, info).value], Sealing(my, peer, HeadSent(info), n))
  {
    hide SealHead;
    SealingSplits(my, peer, info, n);
    var b := Sealing(my, peer, HeadSent(info), n);
    hide Sealing;
    assert done + ([SealHead(my, peer, info).value] + b.frames) == done + [SealHead(my, peer, info).value] + b.frames;
  }

  lemma UnderwayEnds(whole: Burst, done: seq<Sealed>, my: Address, peer: Address, info: LinkInfo, n: nat)
    requires Underway(whole, done, Sealing(my, peer, info, n))
    requires n == 0 || info.pending == [] || SealHead(my, peer, info).None?
    ensures whole == Burst(done, info)
  {
  }

  class Node {
    const hash: CellHash
    const addr: Address
    var asnOffset: int
    var timeSource: Option<Address>
    var ebPending: bool
    var broadcastQueue: seq<Broadcast>
    var links: map<Address, LinkInfo>
    var actions: seq<Action>

    function Model(): SlotState
      reads this
    {
      SlotState(addr, asnOffset, timeSource, ebPending, broadcastQueue, links, actions)
    }

    constructor (hash: CellHash, addr: Address)
      ensures Model() == SlotState(addr, 0, None, false, [], map[], []) && this.hash == hash
    {
      this.hash, this.addr := hash, addr;
      asnOffset, timeSource, ebPending := 0, None, false;
      broadcastQueue, links, actions := [], map[], [];
    }

    method CurrentAsn(now: nat) returns (asn: nat)
      requires now + asnOffset >= 0
      ensures asn == Asn(asnOffset, now)
    {
      var adjusted := now + asnOffset;
      assert adjusted >= 0;
      asn := adjusted / SLOT_NS;
    }

    method ScheduleNextSlot(now: nat)
      requires now + asnOffset >= 0
      modifies this`actions
      ensures Model() == AfterScheduleNext(old(Model()), now)
    {
      var asn := CurrentAsn(now);
      var next := WallclockAtAsn(asn + 1) - asnOffset;
      var delay := SLOT_NS;
      if next > now { delay := next - now; }
      actions := actions + [Arm(SlotToken, delay)];
    }

    method DrainBroadcasts()
      modifies this`broadcastQueue, this`actions
      ensures Model() == AfterDrain(old(Model()))
    {
      var n := 0;
      ghost var all := broadcastQueue;
      ghost var before := actions;
      while n < BROADCASTS_DRAINED_PER_SLOT && broadcastQueue != []
        invariant n <= BROADCASTS_DRAINED_PER_SLOT && n <= |all|
        invariant broadcastQueue == all[n..]
        invariant actions == before + AsActions(all[..n])
      {
        actions := actions + [TxBroadcast(broadcastQueue[0])];
        broadcastQueue := broadcastQueue[1..];
        assert AsActions(all[..n + 1]) == AsActions(all[..n]) + [TxBroadcast(all[n])];
        n := n + 1;
      }
    }

    /** Up to four frames to the first link, in `order`, whose peer owns the slot. */
    method MaybeTxOnCell(asn: nat, slot: nat, order: seq<Address>) returns (sent: bool)
      requires 0 < slot == SlotOffset(asn) && Elements(order) == links.Keys
      modifies this`links, this`actions
      ensures var first := FirstReady(hash, old(links), order, slot);
              && (sent <==> first.Some?)
              && (sent ==> first.value in old(links))
              && Model() == if sent then AfterTx(hash, old(Model()), first.value, asn) else old(Model())
    {
      var i := 0;
      while i < |order|
        invariant 0 <= i <= |order|
        invariant FirstReady(hash, links, order, slot) == FirstReady(hash, links, order[i..], slot)
      {
        var peer := order[i];
        assert peer in Elements(order);
        assert order[i..][0] == peer && order[i..][1..] == order[i + 1..];
        if links[peer].pending == [] || AutonomousRxCell(hash, peer).slotOffset != slot {
          i := i + 1;
          continue;
        }
        TxBurst(peer, CellFrequency(asn, AutonomousRxCell(hash, peer)));
        return true;
      }
      return false;
    }

    method TxBurst(peer: Address, freq: nat)
      requires peer in links
      modifies this`links, this`actions
      ensures var b := Sealing(addr, peer, old(links[peer]), FRAMES_PER_TX_CELL);
              Model() == old(Model()).(links := old(links)[peer := b.rest], actions := old(actions) + AsTx(b.frames, freq))
    {
      var n := 0;
      ghost var done: seq<Sealed> := [];
      ghost var whole := Sealing(addr, peer, links[peer], FRAMES_PER_TX_CELL);
      ghost var links0, actions0 := links, actions;
      assert Underway(whole, done, whole);
      assert actions == actions0 + AsTx(done, freq);
      hide Sealing, SealHead, HeadSent, Underway, AsTx;
      while n < FRAMES_PER_TX_CELL && links[peer].pending != []
        invariant n <= FRAMES_PER_TX_CELL && peer in links
        invariant links == links0[peer := links[peer]]
        invariant actions == actions0 + AsTx(done, freq)
        invariant Underway(whole, done, Sealing(addr, peer, links[peer], FRAMES_PER_TX_CELL - n))
      {
        ghost var info := links[peer];
        var frame := SendHead(peer, freq);
        if frame.None? { break; }
        UnderwayStep(whole, done, addr, peer, info, FRAMES_PER_TX_CELL - n - 1);
        AsTxSnoc(done, frame.value, freq);
        done := done + [frame.value];
        n := n + 1;
      }
      UnderwayEnds(whole, done, addr, peer, links[peer], FRAMES_PER_TX_CELL - n);
    }

    /** Seals the head of a link queue, queues its transmission and takes it off the queue. */
    method SendHead(peer: Address, freq: nat) returns (frame: Option<Sealed>)
      requires peer in links && links[peer].pending != []
      modifies this`links, this`actions
      ensures frame == SealHead(addr, peer, old(links[peer]))
      ensures frame.None? ==> links == old(links) && actions == old(actions)
      ensures frame.Some? ==> links == old(links)[peer := HeadSent(old(links[peer]))]
      ensures frame.Some? ==> actions == old(actions) + [TxData(frame.value, freq, SUB_CHANNEL_HZ)]
    {
      frame := SealHead(addr, peer, links[peer]);
      if frame.Some? {
        actions := actions + [TxData(frame.value, freq, SUB_CHANNEL_HZ)];
        links := links[peer := HeadSent(links[peer])];
      }
    }

    method TuneToOwnRx(asn: nat)
      modifies this`actions
      ensures Model() == AfterTune(hash, old(Model()), asn)
    {
      actions := actions + [TuneData(CellFrequency(asn, AutonomousRxCell(hash, addr)), SUB_CHANNEL_HZ)];
    }

    method HandleSlotWakeup(now: nat, order: seq<Address>)
      requires now + asnOffset >= 0 && Elements(order) == links.Keys
      modifies this
      ensures Model() == AfterWakeup(hash, old(Model()), now, order)
    {
      var asn := CurrentAsn(now);
      DoSlot(asn, order);
      ScheduleNextSlot(now);
    }

    method DoSlot(asn: nat, order: seq<Address>)
      requires Elements(order) == links.Keys
      modifies this
      ensures Model() == AfterSlot(hash, old(Model()), asn, order)
    {
      var slot := SlotOffset(asn);
      if ebPending && slot == 0 {
        broadcastQueue := broadcastQueue + [Beacon(addr)];
        ebPending := false;
      }
      DrainBroadcasts();
      if slot == 0 { return; }
      var sent := MaybeTxOnCell(asn, slot, order);
      if sent {
        TuneToOwnRx(asn);
        return;
      }
      if slot == AutonomousRxCell(hash, addr).slotOffset { TuneToOwnRx(asn); }
    }

    /** An announce wakeup: the next beacon slot is to carry a beacon, and the next wakeup is armed. */
    method ScheduleNextAnnounce(delay: nat)
      modifies this`ebPending, this`actions
      ensures Model() == Acting(old(Model()).(ebPending := true), Arm(AnnounceToken, delay))
    {
      ebPending := true;
      actions := actions + [Arm(AnnounceToken, delay)];
    }

    /** Takes the next action off the queue. */
    method NextAction() returns (more: bool, act: Action)
      modifies this`actions
      ensures more <==> old(actions) != []
      ensures more ==> act == old(actions)[0] && actions == old(actions)[1..]
      ensures !more ==> actions == []
    {
      if actions == [] { return false, Cancel(SlotToken); }
      act := actions[0];
      actions := actions[1..];
      return true, act;
    }

    method SyncTimeFromEb(source: Address, ebAsn: nat, now: nat)
      modifies this`timeSource, this`asnOffset, this`actions
      ensures Model() == AfterSync(old(Model()), source, ebAsn, now)
    {
      if timeSource.Some? {
        if timeSource.value != source { return; }
      } else {
        timeSource := Some(source);
      }
      var newOffset := WallclockAtAsn(ebAsn) - now;
      if newOffset == asnOffset { return; }
      asnOffset := newOffset;
      ScheduleNextSlot(now);
    }
  }
}
