/** What holds of every station's clock, slot wakeup and radio in every run. */
module SlotClock {
  import opened Types
  import opened NodeModel
  import opened Schedule
  import opened SlotModel
  import opened SlotRuns

  /** A clock is never ahead, and behind by at most the beacon lag and the part of a slot the stamp drops. */
  predicate ClockOk(s: Station, now: nat, lag: nat) {
    -(lag + SLOT_NS - 1) <= s.node.asnOffset <= 0 && now + s.node.asnOffset >= 0
  }

  /** An armed slot wakeup is ahead, at most a slot away, and on a slot boundary of the station's own clock. */
  predicate SlotOk(s: Station, now: nat) {
    && (AnnounceToken in s.host.dues <==> SlotToken in s.host.dues)
    && (SlotToken in s.host.dues ==>
          var due := s.host.dues[SlotToken];
          now <= due <= now + SLOT_NS && (due + s.node.asnOffset) % SLOT_NS == 0)
  }

  /** With the clock unmoved since the last wakeup, the next one is for the next slot number. */
  predicate CountsOn(s: Station) {
    s.wakeAsn.Some? ==>
      && SlotToken in s.host.dues
      && (s.steady ==>
            var due := s.host.dues[SlotToken];
            due + s.node.asnOffset >= 0 && Asn(s.node.asnOffset, due) == s.wakeAsn.value + 1)
  }

  /** From a wakeup in its own slot to the next wakeup, a station's data radio is on its own cell. */
  predicate Listens(hash: CellHash, s: Station) {
    s.host.hasRadio && s.wakeAsn.Some? && SlotOffset(s.wakeAsn.value) == AutonomousRxCell(hash, s.node.addr).slotOffset ==>
      s.host.freq == RxFrequency(hash, s.node.addr) && s.host.bw == SUB_CHANNEL_HZ
  }

  predicate StationOk(hash: CellHash, v: Address, s: Station, now: nat, lag: nat) {
    && s.node.addr == v && s.node.actions == []
    && ClockOk(s, now, lag) && SlotOk(s, now) && CountsOn(s) && Listens(hash, s)
  }

  /** Beacons carry the true slot number of the moment they were sent. */
  predicate StampsOk(sim: Sim) {
    forall b :: b in sim.beacons ==> b.sentAt <= sim.now && b.asn == b.sentAt / SLOT_NS
  }

  ghost predicate SimOk(hash: CellHash, sim: Sim, lag: nat) {
    StampsOk(sim) && forall v :: v in sim.stations ==> StationOk(hash, v, sim.stations[v], sim.now, lag)
  }

  /** Arming the next slot: due within (now, now + slot], on a boundary, for the next slot number; the fallback is dead. */
  lemma ArmsNextSlot(offset: int, now: nat)
    requires now + offset >= 0
    ensures var due := now + NextDelay(offset, now);
            && now < due <= now + SLOT_NS && (due + offset) % SLOT_NS == 0
            && due + offset >= 0 && Asn(offset, due) == Asn(offset, now) + 1
            && due == WallclockAtAsn(Asn(offset, now) + 1) - offset
  {
    NextBoundary(offset, now);
  }

  lemma BootOk(hash: CellHash, v: Address, s: Station, now: nat, lag: nat, jitter: nat)
    requires StationOk(hash, v, s, now, lag) && AnnounceToken !in s.host.dues
    ensures StationOk(hash, v, Ran(s, AfterScheduleNext(Acting(s.node, Arm(AnnounceToken, jitter)), now), now), now, lag)
  {
    hide AutonomousRxCell, RxFrequency, Asn;
    ArmsNextSlot(s.node.asnOffset, now);
    var arm, next := Arm(AnnounceToken, jitter), Arm(SlotToken, NextDelay(s.node.asnOffset, now));
    DrainSnoc(s.host, [arm], next, now);
    DrainSnoc(s.host, [], arm, now);
    assert [] + [arm] == [arm] && s.node.actions + [arm] + [next] == [arm] + [next];
  }

  lemma AnnounceOk(hash: CellHash, v: Address, s: Station, now: nat, lag: nat, delay: nat)
    requires StationOk(hash, v, s, now, lag) && AnnounceToken in s.host.dues
    ensures var woken := s.(host := s.host.(dues := s.host.dues - {AnnounceToken}));
            StationOk(hash, v, Ran(woken, Acting(s.node.(ebPending := true), Arm(AnnounceToken, delay)), now), now, lag)
  {
    hide AutonomousRxCell, RxFrequency, Asn;
    var woken := s.(host := s.host.(dues := s.host.dues - {AnnounceToken}));
    DrainSnoc(woken.host, [], Arm(AnnounceToken, delay), now);
    assert s.node.actions + [Arm(AnnounceToken, delay)] == [] + [Arm(AnnounceToken, delay)];
  }

  lemma SyncOk(hash: CellHash, v: Address, s: Station, now: nat, lag: nat, b: Beaconed)
    requires StationOk(hash, v, s, now, lag) && AnnounceToken in s.host.dues
    requires b.sentAt <= now <= b.sentAt + lag && b.asn == b.sentAt / SLOT_NS
    ensures var node := AfterSync(s.node, b.source, b.asn, now);
            StationOk(hash, v, Ran(s, node, now).(steady := s.steady && node.asnOffset == s.node.asnOffset), now, lag)
  {
    var node := AfterSync(s.node, b.source, b.asn, now);
    if node.asnOffset == s.node.asnOffset {
      assert node.actions == [];
    } else {
      ArmsNextSlot(node.asnOffset, now);
      var next := Arm(SlotToken, NextDelay(node.asnOffset, now));
      hide AutonomousRxCell, RxFrequency;
      DrainSnoc(s.host, [], next, now);
      assert node.actions == [] + [next];
    }
  }

  /** Actions of a slot, then the next wakeup: what a drain leaves at the host. */
  lemma SlotDrains(h: Host, acts: seq<Action>, delay: nat, now: nat)
    requires NoArm(acts)
    ensures Drained(h, acts + [Arm(SlotToken, delay)], now).dues == h.dues[SlotToken := now + delay]
    ensures Drained(h, acts + [Arm(SlotToken, delay)], now).hasRadio == h.hasRadio
  {
    DrainSnoc(h, acts, Arm(SlotToken, delay), now);
    DrainKeepsDues(h, acts, now);
  }

  lemma SlotTunes(h: Host, before: seq<Action>, freq: nat, bw: nat, delay: nat, now: nat)
    requires NoArm(before) && h.hasRadio
    ensures var h' := Drained(h, before + [TuneData(freq, bw)] + [Arm(SlotToken, delay)], now);
            h'.freq == freq && h'.bw == bw
  {
    DrainSnoc(h, before + [TuneData(freq, bw)], Arm(SlotToken, delay), now);
    DrainSnoc(h, before, TuneData(freq, bw), now);
    DrainKeepsDues(h, before, now);
  }

  lemma WakeDrains(hash: CellHash, s: Station, now: nat, order: seq<Address>)
    requires s.node.actions == [] && now + s.node.asnOffset >= 0
    ensures var h := Drained(s.host, AfterWakeup(hash, s.node, now, order).actions, now);
            && h.dues == s.host.dues[SlotToken := now + NextDelay(s.node.asnOffset, now)]
            && h.hasRadio == s.host.hasRadio
            && (h.hasRadio && SlotOffset(Asn(s.node.asnOffset, now)) == AutonomousRxCell(hash, s.node.addr).slotOffset ==>
                  h.freq == RxFrequency(hash, s.node.addr) && h.bw == SUB_CHANNEL_HZ)
  {
    hide *;
    var asn, delay := Asn(s.node.asnOffset, now), NextDelay(s.node.asnOffset, now);
    var acts := AfterSlot(hash, s.node, asn, order).actions;
    SlotActions(hash, s.node, asn, order);
    WakeupActions(hash, s.node, now, order);
    SlotDrains(s.host, acts, delay, now);
    if s.host.hasRadio && SlotOffset(asn) == AutonomousRxCell(hash, s.node.addr).slotOffset {
      var before :| NoArm(before) && acts == before + [TuneData(RxFrequency(hash, s.node.addr), SUB_CHANNEL_HZ)];
      SlotTunes(s.host, before, RxFrequency(hash, s.node.addr), SUB_CHANNEL_HZ, delay, now);
    }
  }

  lemma WakeupActions(hash: CellHash, s: SlotState, now: nat, order: seq<Address>)
    requires now + s.asnOffset >= 0
    ensures AfterWakeup(hash, s, now, order).actions
            == AfterSlot(hash, s, Asn(s.asnOffset, now), order).actions + [Arm(SlotToken, NextDelay(s.asnOffset, now))]
  {
    AfterSlotKeepsClock(hash, s, Asn(s.asnOffset, now), order);
    hide AfterSlot, Asn, NextDelay;
  }

  lemma AfterSlotKeepsClock(hash: CellHash, s: SlotState, asn: nat, order: seq<Address>)
    ensures AfterSlot(hash, s, asn, order).asnOffset == s.asnOffset
  {
    hide AutonomousRxCell, CellFrequency, Sealing, FirstReady;
  }

  lemma WakeupOk(hash: CellHash, v: Address, s: Station, now: nat, lag: nat, order: seq<Address>)
    requires StationOk(hash, v, s, now, lag) && SlotToken in s.host.dues
    ensures var woken := s.(host := s.host.(dues := s.host.dues - {SlotToken}));
            StationOk(hash, v, Ran(woken, AfterWakeup(hash, s.node, now, order), now)
              .(wakeAsn := Some(Asn(s.node.asnOffset, now)), steady := true), now, lag)
  {
    var woken := s.(host := s.host.(dues := s.host.dues - {SlotToken}));
    var t := Ran(woken, AfterWakeup(hash, s.node, now, order), now).(wakeAsn := Some(Asn(s.node.asnOffset, now)), steady := true);
    WakeDrains(hash, woken, now, order);
    SlotActions(hash, s.node, Asn(s.node.asnOffset, now), order);
    hide AfterSlot, AutonomousRxCell, RxFrequency, Asn, NextDelay, SlotOffset, Drained;
    WokenOk(hash, v, s, t, now, lag);
  }

  /** A wakeup re-arms the slot, leaves the clock alone and, in the own slot, tunes to the own cell. */
  lemma WokenOk(hash: CellHash, v: Address, s: Station, t: Station, now: nat, lag: nat)
    requires StationOk(hash, v, s, now, lag) && SlotToken in s.host.dues
    requires t.node.addr == v && t.node.actions == [] && t.node.asnOffset == s.node.asnOffset
    requires t.host.dues == (s.host.dues - {SlotToken})[SlotToken := now + NextDelay(s.node.asnOffset, now)]
    requires t.wakeAsn == Some(Asn(s.node.asnOffset, now))
    requires t.host.hasRadio && SlotOffset(t.wakeAsn.value) == AutonomousRxCell(hash, v).slotOffset ==>
               t.host.freq == RxFrequency(hash, v) && t.host.bw == SUB_CHANNEL_HZ
    ensures StationOk(hash, v, t, now, lag)
  {
    ArmsNextSlot(s.node.asnOffset, now);
    hide AutonomousRxCell, RxFrequency, Asn, NextDelay, SlotOffset;
  }

  lemma OtherLayersOk(hash: CellHash, v: Address, s: Station, now: nat, lag: nat, links: map<Address, LinkInfo>, broadcasts: seq<Broadcast>)
    requires StationOk(hash, v, s, now, lag)
    ensures StationOk(hash, v, s.(node := s.node.(links := links, broadcasts := broadcasts)), now, lag)
  {
  }

  lemma ActedOk(hash: CellHash, sim: Sim, ev: Event, lag: nat)
    requires SimOk(hash, sim, lag) && !ev.Advance? && Enabled(sim, ev, lag)
    ensures StationOk(hash, ev.station, Acted(hash, sim, ev), sim.now, lag)
  {
    hide StationOk, AfterWakeup, AfterSync;
    var s := sim.stations[ev.station];
    ClockNonNegative(hash, ev.station, s, sim.now, lag);
    match ev
    case Boot(v, jitter) => BootOk(hash, v, s, sim.now, lag, jitter);
    case FireAnnounce(v, delay) => AnnounceOk(hash, v, s, sim.now, lag, delay);
    case FireSlot(v, order) => WakeupOk(hash, v, s, sim.now, lag, order);
    case SendBeacon(_) =>
    case HearBeacon(v, b) => SyncOk(hash, v, s, sim.now, lag, b);
    case OtherLayers(v, links, broadcasts) => OtherLayersOk(hash, v, s, sim.now, lag, links, broadcasts);
  }

  lemma ClockNonNegative(hash: CellHash, v: Address, s: Station, now: nat, lag: nat)
    requires StationOk(hash, v, s, now, lag)
    ensures now + s.node.asnOffset >= 0
  {
  }

  lemma AdvanceOk(hash: CellHash, v: Address, s: Station, now: nat, later: nat, lag: nat)
    requires StationOk(hash, v, s, now, lag) && now <= later && NothingDueBefore(s.host, later)
    ensures StationOk(hash, v, s, later, lag)
  {
    hide AutonomousRxCell, RxFrequency, Asn;
  }

  lemma StepKeepsSimOk(hash: CellHash, sim: Sim, ev: Event, lag: nat)
    requires SimOk(hash, sim, lag) && Enabled(sim, ev, lag)
    ensures SimOk(hash, Next(hash, sim, ev), lag)
  {
    var next := Next(hash, sim, ev);
    if !ev.Advance? { ActedOk(hash, sim, ev, lag); }
    hide StationOk, Acted;
    forall v | v in next.stations ensures StationOk(hash, v, next.stations[v], next.now, lag) {
      if ev.Advance? { AdvanceOk(hash, v, sim.stations[v], sim.now, ev.to, lag); }
    }
  }

  lemma InitiallyOk(hash: CellHash, sim: Sim, lag: nat)
    requires Init(sim)
    ensures SimOk(hash, sim, lag)
  {
    hide AutonomousRxCell, RxFrequency, Asn;
  }

  /** In every reachable state every station's clock, slot wakeup and radio are as they should be. */
  lemma {:induction false} SimOkThroughout(hash: CellHash, trace: seq<Sim>, i: nat, lag: nat)
    requires IsTrace(hash, trace, lag) && i < |trace|
    ensures SimOk(hash, trace[i], lag)
  {
    hide Init, SimOk, Acted;
    if i == 0 {
      InitiallyOk(hash, trace[0], lag);
    } else {
      SimOkThroughout(hash, trace, i - 1, lag);
      assert Step(hash, trace[i - 1], trace[i - 1 + 1], lag);
      var ev :| Enabled(trace[i - 1], ev, lag) && trace[i] == Next(hash, trace[i - 1], ev);
      StepKeepsSimOk(hash, trace[i - 1], ev, lag);
    }
  }

  /** In every run, the clock assertion never fails where the source makes it. */
  lemma AssertionHolds(hash: CellHash, trace: seq<Sim>, i: nat, lag: nat, v: Address)
    requires IsTrace(hash, trace, lag) && i < |trace| && v in trace[i].stations
    ensures trace[i].now + trace[i].stations[v].node.asnOffset >= 0
  {
    SimOkThroughout(hash, trace, i, lag);
    hide IsTrace;
  }

  /**
   In every run a started station holds a slot wakeup, due now at the earliest and a slot from now at the latest, on a
   boundary of its own clock.
   */
  lemma SlotWakeupIsArmed(hash: CellHash, trace: seq<Sim>, i: nat, lag: nat, v: Address)
    requires IsTrace(hash, trace, lag) && i < |trace| && v in trace[i].stations
    requires AnnounceToken in trace[i].stations[v].host.dues
    ensures var s := trace[i].stations[v];
            && SlotToken in s.host.dues
            && trace[i].now <= s.host.dues[SlotToken] <= trace[i].now + SLOT_NS
            && (s.host.dues[SlotToken] + s.node.asnOffset) % SLOT_NS == 0
  {
    SimOkThroughout(hash, trace, i, lag);
    hide IsTrace;
  }

  /** Unless the clock was moved in between, successive slot wakeups are for successive slot numbers. */
  lemma WakeupsCountOn(hash: CellHash, trace: seq<Sim>, i: nat, lag: nat, ev: Event)
    requires IsTrace(hash, trace, lag) && i < |trace| && ev.FireSlot? && Enabled(trace[i], ev, lag)
    requires trace[i].stations[ev.station].wakeAsn.Some? && trace[i].stations[ev.station].steady
    ensures Acted(hash, trace[i], ev).wakeAsn == Some(trace[i].stations[ev.station].wakeAsn.value + 1)
  {
    hide *;
    SimOkThroughout(hash, trace, i, lag);
    WakeCountsOn(hash, trace[i], ev, lag);
  }

  lemma WakeCountsOn(hash: CellHash, sim: Sim, ev: Event, lag: nat)
    requires SimOk(hash, sim, lag) && ev.FireSlot? && Enabled(sim, ev, lag)
    requires sim.stations[ev.station].wakeAsn.Some? && sim.stations[ev.station].steady
    ensures Acted(hash, sim, ev).wakeAsn == Some(sim.stations[ev.station].wakeAsn.value + 1)
  {
    assert StationOk(hash, ev.station, sim.stations[ev.station], sim.now, lag);
    hide AfterWakeup, Drained, AutonomousRxCell, RxFrequency, Asn;
  }

  /** How many slot numbers two clocks can be apart: 1 + ceil((lag - 1) / slot), and 1 for lag 0. */
  function Spread(lag: nat): nat { (lag + 2 * SLOT_NS - 2) / SLOT_NS }

  lemma FloorsApart(a: int, b: int, now: int, lag: nat)
    requires -(lag + SLOT_NS - 1) <= a <= 0 && -(lag + SLOT_NS - 1) <= b <= 0 && now + a >= 0 && now + b >= 0
    ensures Asn(a, now) <= Asn(b, now) + Spread(lag)
  {
    assert now + a <= now + b + (lag + SLOT_NS - 1);
    var q := Asn(b, now);
    assert now + b <= q * SLOT_NS + SLOT_NS - 1;
  }

  /** In every run, any two stations agree on the slot number up to the spread, whether synchronised or not. */
  lemma ClocksAgree(hash: CellHash, trace: seq<Sim>, i: nat, lag: nat, u: Address, v: Address)
    requires IsTrace(hash, trace, lag) && i < |trace| && u in trace[i].stations && v in trace[i].stations
    ensures var now := trace[i].now;
            var a, b := trace[i].stations[u].node.asnOffset, trace[i].stations[v].node.asnOffset;
            && now + a >= 0 && now + b >= 0
            && Asn(a, now) <= Asn(b, now) + Spread(lag) && Asn(b, now) <= Asn(a, now) + Spread(lag)
  {
    SimOkThroughout(hash, trace, i, lag);
    var s, t := trace[i].stations[u], trace[i].stations[v];
    assert StationOk(hash, u, s, trace[i].now, lag) && StationOk(hash, v, t, trace[i].now, lag);
    hide IsTrace, SimOk, Listens, CountsOn, SlotOk, Spread, Asn;
    FloorsApart(s.node.asnOffset, t.node.asnOffset, trace[i].now, lag);
    FloorsApart(t.node.asnOffset, s.node.asnOffset, trace[i].now, lag);
  }

  /** The spread is at most one slot more than the slots the lag takes. */
  lemma SpreadInSlots(lag: nat)
    ensures Spread(lag) <= 1 + (lag + SLOT_NS - 1) / SLOT_NS
  {
  }
}
