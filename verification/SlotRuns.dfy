/** Stations with their hosts under one simulated clock, waking, beaconing and synchronising. */
module SlotRuns {
  import opened Types
  import opened NodeModel
  import opened Schedule
  import opened SlotModel

  /** `wakeAsn` is the slot number of the last slot wakeup; `steady` says that the clock has not been moved since. */
  datatype Station = Station(node: SlotState, host: Host, wakeAsn: Option<nat>, steady: bool)

  /** A beacon on the air, stamped by its sender's host. */
  datatype Beaconed = Beaconed(source: Address, asn: nat, sentAt: nat)

  datatype Sim = Sim(now: nat, stations: map<Address, Station>, beacons: set<Beaconed>)

  datatype Event =
    | Advance(to: nat)
    | Boot(station: Address, jitter: nat)
    | FireAnnounce(station: Address, delay: nat)
    | FireSlot(station: Address, order: seq<Address>)
    | SendBeacon(station: Address)
    | HearBeacon(station: Address, beacon: Beaconed)
    | OtherLayers(station: Address, links: map<Address, LinkInfo>, broadcasts: seq<Broadcast>)

  predicate Init(sim: Sim) {
    && sim.beacons == {}
    && forall v :: v in sim.stations ==>
         var s := sim.stations[v];
         && s.node.addr == v && s.node.asnOffset == 0 && s.node.timeSource == None && s.node.actions == []
         && s.host.dues == map[] && s.wakeAsn == None && s.steady
  }

  /** No armed wakeup of this host is due before `t`. */
  predicate NothingDueBefore(h: Host, t: nat) {
    forall token :: token in h.dues ==> t <= h.dues[token]
  }

  /** A station is started once and hears nothing before; beacons arrive within `lag`; time never skips a due wakeup. */
  ghost predicate Enabled(sim: Sim, ev: Event, lag: nat) {
    if ev.Advance? then sim.now <= ev.to && forall v :: v in sim.stations ==> NothingDueBefore(sim.stations[v].host, ev.to)
    else
      && ev.station in sim.stations
      && var s := sim.stations[ev.station];
         match ev
         case Boot(_, _) => AnnounceToken !in s.host.dues
         case FireAnnounce(_, _) => AnnounceToken in s.host.dues && s.host.dues[AnnounceToken] == sim.now
         case FireSlot(_, order) =>
           SlotToken in s.host.dues && s.host.dues[SlotToken] == sim.now && Elements(order) == s.node.links.Keys
         case SendBeacon(_) => AnnounceToken in s.host.dues
         case HearBeacon(_, b) =>
           AnnounceToken in s.host.dues && b in sim.beacons && sim.now <= b.sentAt + lag && b.source != ev.station
         case _ => true
  }

  /** The node's queued actions run to the end. */
  function Ran(s: Station, node: SlotState, now: nat): Station {
    s.(node := node.(actions := []), host := Drained(s.host, node.actions, now))
  }

  /** A station whose clock would go negative trips an assertion and does nothing; AssertionHolds rules that out. */
  function Acted(hash: CellHash, sim: Sim, ev: Event): Station
    requires !ev.Advance? && ev.station in sim.stations
  {
    var s := sim.stations[ev.station];
    if (ev.Boot? || ev.FireSlot?) && s.node.asnOffset + sim.now < 0 then s else
    match ev
    case Boot(_, jitter) => Ran(s, AfterScheduleNext(Acting(s.node, Arm(AnnounceToken, jitter)), sim.now), sim.now)
    case FireAnnounce(_, delay) =>
      var woken := s.(host := s.host.(dues := s.host.dues - {AnnounceToken}));
      Ran(woken, Acting(s.node.(ebPending := true), Arm(AnnounceToken, delay)), sim.now)
    case FireSlot(_, order) =>
      var woken := s.(host := s.host.(dues := s.host.dues - {SlotToken}));
      Ran(woken, AfterWakeup(hash, s.node, sim.now, order), sim.now)
        .(wakeAsn := Some(Asn(s.node.asnOffset, sim.now)), steady := true)
    case SendBeacon(_) => s
    case HearBeacon(_, b) =>
      var node := AfterSync(s.node, b.source, b.asn, sim.now);
      Ran(s, node, sim.now).(steady := s.steady && node.asnOffset == s.node.asnOffset)
    case OtherLayers(_, links, broadcasts) => s.(node := s.node.(links := links, broadcasts := broadcasts))
  }

  /** The host stamps a beacon with its own time in slots, at the moment it is sent. */
  function Next(hash: CellHash, sim: Sim, ev: Event): Sim
    requires ev.Advance? || ev.station in sim.stations
  {
    if ev.Advance? then sim.(now := ev.to)
    else
      sim.(stations := sim.stations[ev.station := Acted(hash, sim, ev)],
           beacons := if ev.SendBeacon? then sim.beacons + {Beaconed(ev.station, sim.now / SLOT_NS, sim.now)} else sim.beacons)
  }

  ghost predicate Step(hash: CellHash, a: Sim, b: Sim, lag: nat) {
    exists ev :: Enabled(a, ev, lag) && b == Next(hash, a, ev)
  }

  ghost predicate IsTrace(hash: CellHash, trace: seq<Sim>, lag: nat) {
    && |trace| > 0
    && Init(trace[0])
    && forall i :: 0 <= i < |trace| - 1 ==> Step(hash, trace[i], trace[i + 1], lag)
  }

  // ----- what a drain does to the host -----

  predicate NoArm(actions: seq<Action>) {
    forall a :: a in actions ==> !a.Arm? && !a.Cancel?
  }

  lemma {:induction false} DrainKeepsDues(h: Host, actions: seq<Action>, now: nat)
    requires NoArm(actions)
    ensures Drained(h, actions, now).dues == h.dues && Drained(h, actions, now).hasRadio == h.hasRadio
  {
    if actions != [] {
      var last := actions[|actions| - 1];
      assert last in actions;
      DrainKeepsDues(h, actions[..|actions| - 1], now);
    }
  }

  lemma DrainSnoc(h: Host, actions: seq<Action>, a: Action, now: nat)
    ensures Drained(h, actions + [a], now) == Performed(Drained(h, actions, now), a, now)
  {
    assert (actions + [a])[..|actions|] == actions;
  }

  /** A node in its own slot ends the slot's work by tuning to its own cell; nothing in a slot arms a wakeup. */
  lemma SlotActions(hash: CellHash, s: SlotState, asn: nat, order: seq<Address>)
    requires s.actions == []
    ensures var t := AfterSlot(hash, s, asn, order);
            && NoArm(t.actions) && t.addr == s.addr && t.asnOffset == s.asnOffset && t.timeSource == s.timeSource
            && (SlotOffset(asn) == AutonomousRxCell(hash, s.addr).slotOffset ==>
                  exists before :: NoArm(before) && t.actions == before + [TuneData(RxFrequency(hash, s.addr), SUB_CHANNEL_HZ)])
  {
    hide AutonomousRxCell, RxFrequency, CellFrequency, Sealing;
    var slot := SlotOffset(asn);
    var s1 := if s.ebPending && slot == 0 then s.(broadcasts := s.broadcasts + [Beacon(s.addr)], ebPending := false) else s;
    var s2 := AfterDrain(s1);
    var first := FirstReady(hash, s2.links, order, slot);
    var s3 := if slot != 0 && first.Some? && first.value in s2.links then AfterTx(hash, s2, first.value, asn) else s2;
    assert NoArm(s3.actions);
    if slot == AutonomousRxCell(hash, s.addr).slotOffset {
      OwnCell(hash, s.addr, asn);
      assert AfterSlot(hash, s, asn, order).actions == s3.actions + [TuneData(RxFrequency(hash, s.addr), SUB_CHANNEL_HZ)];
    }
  }

  lemma OwnCell(hash: CellHash, addr: Address, asn: nat)
    requires SlotOffset(asn) == AutonomousRxCell(hash, addr).slotOffset
    ensures SlotOffset(asn) != 0 && CellFrequency(asn, AutonomousRxCell(hash, addr)) == RxFrequency(hash, addr)
  {
    CellNeverHops(hash, addr, asn);
  }
}
