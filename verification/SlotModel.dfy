/** What the slot driver makes of a node, and what the host makes of the actions it queues. */
module SlotModel {
  import opened Types
  import opened NodeModel
  import opened Schedule

  datatype Token = AnnounceToken | SlotToken

  /** A queued broadcast: an Enhanced Beacon, or a frame of another layer. */
  datatype Broadcast = Beacon(source: Address) | Carried(frame: Frame)

  datatype Action =
    | TxBroadcast(broadcast: Broadcast)
    | TxData(frame: Sealed, freq: nat, bw: nat)
    | TuneData(freq: nat, bw: nat)
    | Deliver(from: Address, payload: Payload)
    | Arm(token: Token, delay: nat)
    | Cancel(token: Token)

  datatype SlotState = SlotState(
    addr: Address,
    asnOffset: int,
    timeSource: Option<Address>,
    ebPending: bool,
    broadcasts: seq<Broadcast>,
    links: map<Address, LinkInfo>,
    actions: seq<Action>)

  function Acting(s: SlotState, a: Action): SlotState { s.(actions := s.actions + [a]) }

  /** The delay to the next slot; its fallback of a whole slot is for a boundary that is not ahead. */
  function NextDelay(offset: int, now: nat): nat
    requires now + offset >= 0
  {
    var next := WallclockAtAsn(Asn(offset, now) + 1) - offset;
    if next > now then next - now else SLOT_NS
  }

  function AfterScheduleNext(s: SlotState, now: nat): SlotState
    requires now + s.asnOffset >= 0
  {
    Acting(s, Arm(SlotToken, NextDelay(s.asnOffset, now)))
  }

  function AsActions(broadcasts: seq<Broadcast>): (r: seq<Action>)
    ensures |r| == |broadcasts| && forall i :: 0 <= i < |r| ==> r[i] == TxBroadcast(broadcasts[i])
  {
    seq(|broadcasts|, i requires 0 <= i < |broadcasts| => TxBroadcast(broadcasts[i]))
  }

  function Drainable(s: SlotState): nat {
    if |s.broadcasts| <= BROADCASTS_DRAINED_PER_SLOT then |s.broadcasts| else BROADCASTS_DRAINED_PER_SLOT
  }

  function AfterDrain(s: SlotState): SlotState {
    s.(broadcasts := s.broadcasts[Drainable(s)..],
       actions := s.actions + AsActions(s.broadcasts[..Drainable(s)]))
  }

  /** A link whose peer owns this slot and that has something to send. */
  predicate Ready(hash: CellHash, links: map<Address, LinkInfo>, peer: Address, slot: nat) {
    peer in links && links[peer].pending != [] && AutonomousRxCell(hash, peer).slotOffset == slot
  }

  /** `order` is the hash-map iteration order of the links. */
  function FirstReady(hash: CellHash, links: map<Address, LinkInfo>, order: seq<Address>, slot: nat): Option<Address> {
    if order == [] then None
    else if Ready(hash, links, order[0], slot) then Some(order[0])
    else FirstReady(hash, links, order[1..], slot)
  }

  datatype Burst = Burst(frames: seq<Sealed>, rest: LinkInfo)

  /** Up to n frames off the head of a link queue; a payload that cannot be framed stops the burst and stays. */
  function Sealing(my: Address, peer: Address, info: LinkInfo, n: nat): Burst
    decreases n
  {
    if n == 0 || info.pending == [] || SealHead(my, peer, info).None? then Burst([], info)
    else
      var b := Sealing(my, peer, HeadSent(info), n - 1);
      Burst([SealHead(my, peer, info).value] + b.frames, b.rest)
  }

  function AsTx(frames: seq<Sealed>, freq: nat): (r: seq<Action>)
    ensures |r| == |frames| && forall i :: 0 <= i < |r| ==> r[i] == TxData(frames[i], freq, SUB_CHANNEL_HZ)
  {
    seq(|frames|, i requires 0 <= i < |frames| => TxData(frames[i], freq, SUB_CHANNEL_HZ))
  }

  function AfterTx(hash: CellHash, s: SlotState, peer: Address, asn: nat): SlotState
    requires peer in s.links
  {
    var b := Sealing(s.addr, peer, s.links[peer], FRAMES_PER_TX_CELL);
    s.(links := s.links[peer := b.rest],
       actions := s.actions + AsTx(b.frames, CellFrequency(asn, AutonomousRxCell(hash, peer))))
  }

  function AfterTune(hash: CellHash, s: SlotState, asn: nat): SlotState {
    Acting(s, TuneData(CellFrequency(asn, AutonomousRxCell(hash, s.addr)), SUB_CHANNEL_HZ))
  }

  /** The part of a wakeup before the next one is armed. */
  function AfterSlot(hash: CellHash, s: SlotState, asn: nat, order: seq<Address>): SlotState {
    var slot := SlotOffset(asn);
    var s1 := if s.ebPending && slot == 0 then s.(broadcasts := s.broadcasts + [Beacon(s.addr)], ebPending := false) else s;
    var s2 := AfterDrain(s1);
    if slot == 0 then s2
    else
      var first := FirstReady(hash, s2.links, order, slot);
      if first.Some? && first.value in s2.links then AfterTune(hash, AfterTx(hash, s2, first.value, asn), asn)
      else if slot == AutonomousRxCell(hash, s.addr).slotOffset then AfterTune(hash, s2, asn)
      else s2
  }

  function AfterWakeup(hash: CellHash, s: SlotState, now: nat, order: seq<Address>): SlotState
    requires now + s.asnOffset >= 0
  {
    AfterScheduleNext(AfterSlot(hash, s, Asn(s.asnOffset, now), order), now)
  }

  /** A beacon from the node's one time source moves its clock and re-arms its slot. */
  function AfterSync(s: SlotState, source: Address, ebAsn: nat, now: nat): SlotState {
    if s.timeSource.Some? && s.timeSource.value != source then s
    else
      var t := s.(timeSource := Some(source));
      var offset := WallclockAtAsn(ebAsn) - now;
      if offset == s.asnOffset then t else AfterScheduleNext(t.(asnOffset := offset), now)
  }

  // ----- the host -----

  /** `dues` is when each armed wakeup fires; `data` is what was queued for the data radio, and on which frequency. */
  datatype Host = Host(
    hasRadio: bool,
    dues: map<Token, nat>,
    freq: nat,
    bw: nat,
    tuneCount: nat,
    broadcasts: seq<Broadcast>,
    data: seq<(Sealed, nat, nat)>,
    delivered: seq<(Address, Payload)>)

  function Tuned(h: Host, freq: nat, bw: nat): Host {
    if !h.hasRadio || (h.freq == freq && h.bw == bw) then h
    else h.(freq := freq, bw := bw, tuneCount := h.tuneCount + 1)
  }

  function Performed(h: Host, a: Action, now: nat): Host {
    match a
    case TxBroadcast(b) => h.(broadcasts := h.broadcasts + [b])
    case TxData(f, freq, bw) =>
      var t := Tuned(h, freq, bw);
      t.(data := t.data + [(f, freq, bw)])
    case TuneData(freq, bw) => Tuned(h, freq, bw)
    case Deliver(from, payload) => h.(delivered := h.delivered + [(from, payload)])
    case Arm(token, delay) => h.(dues := h.dues[token := now + delay])
    case Cancel(token) => h.(dues := h.dues - {token})
  }

  /** All queued actions performed in order. */
  function Drained(h: Host, actions: seq<Action>, now: nat): Host {
    if actions == [] then h else Performed(Drained(h, actions[..|actions| - 1], now), actions[|actions| - 1], now)
  }
}
