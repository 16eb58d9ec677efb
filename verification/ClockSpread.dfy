/** A run, for every beacon lag, in which two stations are as far apart as the clock bound allows. */
module ClockSpread {
  import opened Types
  import opened NodeModel
  import opened Schedule
  import opened SlotModel
  import opened SlotRuns
  import opened SlotClock

  function NewStation(v: Address): Station {
    Station(SlotState(v, 0, None, false, [], map[], []), Host(false, map[], 0, 0, 0, [], [], []), None, true)
  }

  /** A started station that never synchronised and has nothing to send. */
  predicate Idle(s: Station, announce: nat, slot: nat) {
    && s.node == SlotState(0, 0, None, false, [], map[], [])
    && !s.host.hasRadio && s.host.dues == map[AnnounceToken := announce, SlotToken := slot]
  }

  const BEACON: Beaconed := Beaconed(0, 0, SLOT_NS - 1)

  /** Time t, in slot k of station 0, which is alone so far. */
  predicate Alone(sim: Sim, t: nat, k: nat, announce: nat) {
    && sim.now == t && k * SLOT_NS <= t <= (k + 1) * SLOT_NS
    && sim.stations.Keys == {0, 1} && Idle(sim.stations[0], announce, (k + 1) * SLOT_NS) && sim.stations[1] == NewStation(1)
  }

  lemma StepBy(hash: CellHash, a: Sim, ev: Event, lag: nat)
    requires Enabled(a, ev, lag)
    ensures Step(hash, a, Next(hash, a, ev), lag)
  {
  }

  lemma Extended(hash: CellHash, trace: seq<Sim>, next: Sim, lag: nat)
    requires IsTrace(hash, trace, lag) && Step(hash, trace[|trace| - 1], next, lag)
    ensures IsTrace(hash, trace + [next], lag)
  {
    hide Step, Init;
    var longer := trace + [next];
    forall i | 0 <= i < |longer| - 1 ensures Step(hash, longer[i], longer[i + 1], lag) {
      if i < |trace| - 1 { assert Step(hash, trace[i], trace[i + 1], lag); }
    }
  }

  /** Time passes within a slot. */
  lemma Passes(hash: CellHash, sim: Sim, t: nat, k: nat, announce: nat, later: nat, lag: nat) returns (next: Sim)
    requires Alone(sim, t, k, announce) && t <= later <= (k + 1) * SLOT_NS && later <= announce
    ensures Step(hash, sim, next, lag) && Alone(next, later, k, announce) && next.beacons == sim.beacons
  {
    var ev := Advance(later);
    forall v | v in sim.stations ensures NothingDueBefore(sim.stations[v].host, later) {
      assert v in sim.stations.Keys;
    }
    StepBy(hash, sim, ev, lag);
    next := Next(hash, sim, ev);
  }

  lemma IdleSlot(hash: CellHash, s: SlotState, asn: nat)
    requires s == SlotState(0, 0, None, false, [], map[], [])
    ensures AfterSlot(hash, s, asn, []).(actions := []) == s
  {
    hide AutonomousRxCell, CellFrequency;
  }

  lemma {:induction false} SilentDrain(h: Host, actions: seq<Action>, now: nat)
    requires !h.hasRadio
    ensures !Drained(h, actions, now).hasRadio
  {
    if actions != [] { SilentDrain(h, actions[..|actions| - 1], now); }
  }

  lemma DueAfter(k: nat)
    ensures Asn(0, k * SLOT_NS) == k && k * SLOT_NS + NextDelay(0, k * SLOT_NS) == (k + 1) * SLOT_NS
  {
    ArmsNextSlot(0, k * SLOT_NS);
  }

  /** A slot wakeup of an idle station leaves it idle for another slot. */
  lemma Wakes(hash: CellHash, s: Station, announce: nat, k: nat)
    requires Idle(s, announce, k * SLOT_NS)
    ensures var woken := s.(host := s.host.(dues := s.host.dues - {SlotToken}));
            Idle(Ran(woken, AfterWakeup(hash, s.node, k * SLOT_NS, []), k * SLOT_NS), announce, (k + 1) * SLOT_NS)
  {
    var woken := s.(host := s.host.(dues := s.host.dues - {SlotToken}));
    var now := k * SLOT_NS;
    DueAfter(k);
    WakeDrains(hash, woken, now, []);
    IdleSlot(hash, s.node, Asn(0, now));
    SilentDrain(woken.host, AfterWakeup(hash, s.node, now, []).actions, now);
    hide AfterSlot, Asn, NextDelay, Drained, AutonomousRxCell, RxFrequency, SlotOffset;
    assert woken.host.dues == map[AnnounceToken := announce];
  }

  lemma Fires(hash: CellHash, sim: Sim, k: nat, announce: nat, lag: nat) returns (next: Sim)
    requires Alone(sim, (k + 1) * SLOT_NS, k, announce)
    ensures Step(hash, sim, next, lag) && Alone(next, (k + 1) * SLOT_NS, k + 1, announce) && next.beacons == sim.beacons
  {
    var ev := FireSlot(0, []);
    assert 0 in sim.stations.Keys && 1 in sim.stations.Keys;
    Wakes(hash, sim.stations[0], announce, k + 1);
    assert Enabled(sim, ev, lag);
    StepBy(hash, sim, ev, lag);
    next := Next(hash, sim, ev);
    hide AfterWakeup, Drained, Step, Asn;
    assert next.stations.Keys == {0, 1};
  }

  /** Slot after slot, each with its wakeup. */
  lemma {:induction false} TicksOn(hash: CellHash, trace: seq<Sim>, t: nat, k: nat, n: nat, announce: nat, lag: nat)
      returns (longer: seq<Sim>, u: nat)
    requires IsTrace(hash, trace, lag) && Alone(trace[|trace| - 1], t, k, announce) && k <= n && n * SLOT_NS <= announce
    ensures IsTrace(hash, longer, lag) && Alone(longer[|longer| - 1], u, n, announce)
    ensures u == (if k < n then n * SLOT_NS else t) && longer[|longer| - 1].beacons == trace[|trace| - 1].beacons
    decreases n - k
  {
    if k == n {
      longer, u := trace, t;
    } else {
      var now := (k + 1) * SLOT_NS;
      assert t <= now <= n * SLOT_NS;
      var a := Passes(hash, trace[|trace| - 1], t, k, announce, now, lag);
      var b := Fires(hash, a, k, announce, lag);
      Extended(hash, trace, a, lag);
      Extended(hash, trace + [a], b, lag);
      hide IsTrace, Alone, Step;
      longer, u := TicksOn(hash, trace + [a] + [b], now, k + 1, n, announce, lag);
    }
  }

  function Nowhere(): Sim { Sim(0, map[0 := NewStation(0), 1 := NewStation(1)], {}) }

  /** Station 0 starts at time 0. */
  lemma Starts(hash: CellHash, announce: nat, lag: nat) returns (next: Sim)
    requires SLOT_NS <= announce
    ensures Init(Nowhere()) && Step(hash, Nowhere(), next, lag) && Alone(next, 0, 0, announce) && next.beacons == {}
  {
    var sim := Nowhere();
    var ev := Boot(0, announce);
    assert Enabled(sim, ev, lag);
    StepBy(hash, sim, ev, lag);
    next := Next(hash, sim, ev);
    DueAfter(0);
    var s := NewStation(0);
    var arm, slot := Arm(AnnounceToken, announce), Arm(SlotToken, NextDelay(0, 0));
    DrainSnoc(s.host, [], arm, 0);
    DrainSnoc(s.host, [arm], slot, 0);
    assert [] + [arm] == [arm] && [arm] + [slot] == [arm, slot];
    hide Drained, Asn, NextDelay;
    assert next.stations.Keys == {0, 1};
    assert next.stations[0].host.dues == map[AnnounceToken := announce, SlotToken := SLOT_NS];
  }

  /** Station 0 sends a beacon in the last nanosecond of slot 0. */
  lemma Beacons(hash: CellHash, sim: Sim, announce: nat, lag: nat) returns (next: Sim)
    requires Alone(sim, SLOT_NS - 1, 0, announce)
    ensures Step(hash, sim, next, lag) && Alone(next, SLOT_NS - 1, 0, announce) && next.beacons == sim.beacons + {BEACON}
  {
    var ev := SendBeacon(0);
    assert 0 in sim.stations.Keys && 1 in sim.stations.Keys;
    assert Enabled(sim, ev, lag);
    StepBy(hash, sim, ev, lag);
    next := Next(hash, sim, ev);
    assert next.stations == sim.stations[0 := sim.stations[0]] == sim.stations;
  }

  /** Station 1 has been started in slot k of station 0. */
  predicate Joined(sim: Sim, t: nat, k: nat, announce: nat, offset: int) {
    && sim.now == t && sim.stations.Keys == {0, 1} && Idle(sim.stations[0], announce, (k + 1) * SLOT_NS)
    && sim.stations[1].node.asnOffset == offset && sim.stations[1].node.actions == [] && sim.stations[1].node.addr == 1
    && AnnounceToken in sim.stations[1].host.dues && sim.stations[1].host.dues[AnnounceToken] == t + announce
    && (offset == 0 ==> sim.stations[1].node.timeSource == None)
    && (offset != 0 ==> sim.stations[1].host.dues.Keys == {AnnounceToken, SlotToken} && sim.stations[1].host.dues[SlotToken] == t + SLOT_NS)
  }

  lemma Joins(hash: CellHash, sim: Sim, t: nat, k: nat, announce: nat, lag: nat) returns (next: Sim)
    requires Alone(sim, t, k, announce)
    ensures Step(hash, sim, next, lag) && Joined(next, t, k, announce, 0) && next.beacons == sim.beacons
    ensures next.stations[1].host.dues.Keys == {AnnounceToken, SlotToken}
  {
    var ev := Boot(1, announce);
    assert 0 in sim.stations.Keys && 1 in sim.stations.Keys;
    assert Enabled(sim, ev, lag);
    StepBy(hash, sim, ev, lag);
    next := Next(hash, sim, ev);
    var s := NewStation(1);
    var arm, slot := Arm(AnnounceToken, announce), Arm(SlotToken, NextDelay(0, t));
    DrainSnoc(s.host, [], arm, t);
    DrainSnoc(s.host, [arm], slot, t);
    assert [] + [arm] == [arm] && [arm] + [slot] == [arm, slot];
    hide Drained, Asn, NextDelay;
    assert next.stations.Keys == {0, 1};
  }

  /** Hearing the beacon after the full lag, station 1 falls behind by all the time since slot 0 began. */
  lemma Hears(hash: CellHash, sim: Sim, k: nat, announce: nat, lag: nat) returns (next: Sim)
    requires Joined(sim, SLOT_NS - 1 + lag, k, announce, 0) && BEACON in sim.beacons
    requires sim.stations[1].host.dues.Keys == {AnnounceToken, SlotToken}
    ensures Step(hash, sim, next, lag) && Joined(next, SLOT_NS - 1 + lag, k, announce, -(SLOT_NS - 1 + lag))
  {
    HearingIsMove(sim, k, announce, lag);
    hide Joined, Enabled, Step, Next;
    StepBy(hash, sim, HearBeacon(1, BEACON), lag);
    HeardAndJoined(hash, sim, k, announce, lag);
    next := Next(hash, sim, HearBeacon(1, BEACON));
  }

  lemma HearingIsMove(sim: Sim, k: nat, announce: nat, lag: nat)
    requires Joined(sim, SLOT_NS - 1 + lag, k, announce, 0) && BEACON in sim.beacons
    ensures Enabled(sim, HearBeacon(1, BEACON), lag) && 1 in sim.stations
  {
    hide Idle;
    assert 1 in sim.stations.Keys;
  }

  lemma HeardAndJoined(hash: CellHash, sim: Sim, k: nat, announce: nat, lag: nat)
    requires Joined(sim, SLOT_NS - 1 + lag, k, announce, 0) && sim.stations[1].host.dues.Keys == {AnnounceToken, SlotToken}
    ensures 1 in sim.stations && Joined(Next(hash, sim, HearBeacon(1, BEACON)), SLOT_NS - 1 + lag, k, announce, -(SLOT_NS - 1 + lag))
  {
    var t, ev := SLOT_NS - 1 + lag, HearBeacon(1, BEACON);
    assert 0 in sim.stations.Keys && 1 in sim.stations.Keys;
    var s := Synced(hash, sim, t);
    hide Acted, Idle;
    var next := Next(hash, sim, ev);
    assert next.stations == sim.stations[1 := s] && next.now == sim.now;
    assert next.stations.Keys == {0, 1} && next.stations[0] == sim.stations[0];
  }

  /** Station 1 after the beacon: the clock moved, the slot armed anew. */
  lemma Synced(hash: CellHash, sim: Sim, t: nat) returns (s: Station)
    requires sim.now == t > 0 && 1 in sim.stations
    requires sim.stations[1].node.asnOffset == 0 && sim.stations[1].node.timeSource == None && sim.stations[1].node.actions == []
    ensures s == Acted(hash, sim, HearBeacon(1, BEACON))
    ensures s.node == sim.stations[1].node.(timeSource := Some(0), asnOffset := 0 - t)
    ensures s.host.dues == sim.stations[1].host.dues[SlotToken := t + SLOT_NS]
  {
    SyncMoves(sim.stations[1].node, t);
    SyncedHost(sim.stations[1].host, t);
    hide AfterSync, Drained;
    s := Acted(hash, sim, HearBeacon(1, BEACON));
  }

  lemma SyncedHost(h: Host, t: nat)
    ensures Drained(h, [] + [Arm(SlotToken, SLOT_NS)], t).dues == h.dues[SlotToken := t + SLOT_NS]
  {
    DrainSnoc(h, [], Arm(SlotToken, SLOT_NS), t);
  }

  lemma SyncMoves(s: SlotState, t: nat)
    requires s.asnOffset == 0 && s.timeSource == None && s.actions == [] && t > 0
    ensures AfterSync(s, 0, 0, t) == s.(timeSource := Some(0), asnOffset := 0 - t, actions := [] + [Arm(SlotToken, SLOT_NS)])
  {
    ArmsNextSlot(0 - t, t);
    assert Asn(0 - t, t) == 0;
  }

  /** On to a moment at which nothing is overdue. */
  lemma Waits(hash: CellHash, sim: Sim, t: nat, k: nat, announce: nat, offset: int, later: nat, lag: nat) returns (next: Sim)
    requires Joined(sim, t, k, announce, offset) && offset != 0
    requires t <= later <= (k + 1) * SLOT_NS && later <= t + SLOT_NS && later <= announce
    ensures Step(hash, sim, next, lag) && next.now == later && next.stations == sim.stations
  {
    var ev := Advance(later);
    forall v | v in sim.stations ensures NothingDueBefore(sim.stations[v].host, later) {
      assert v in sim.stations.Keys;
      forall token | token in sim.stations[v].host.dues ensures later <= sim.stations[v].host.dues[token] {
        assert v == 1 ==> token in sim.stations[1].host.dues.Keys;
      }
    }
    StepBy(hash, sim, ev, lag);
    next := Next(hash, sim, ev);
  }

  /** Two started stations, a whole spread apart. */
  predicate Apart(sim: Sim, lag: nat) {
    && 0 in sim.stations && 1 in sim.stations
    && AnnounceToken in sim.stations[0].host.dues && AnnounceToken in sim.stations[1].host.dues
    && sim.now + sim.stations[0].node.asnOffset >= 0 && sim.now + sim.stations[1].node.asnOffset >= 0
    && Asn(sim.stations[0].node.asnOffset, sim.now) == Asn(sim.stations[1].node.asnOffset, sim.now) + Spread(lag)
  }

  /** The last moment of the run: the slot boundary of station 0 at or after the hearing. */
  lemma BoundaryAfter(lag: nat) returns (k: nat, now: nat)
    ensures var heard := SLOT_NS - 1 + lag;
            && k == heard / SLOT_NS && k * SLOT_NS <= heard <= now <= (k + 1) * SLOT_NS && now <= heard + SLOT_NS - 1
            && Asn(0, now) == Asn(-heard, now) + Spread(lag)
  {
    var heard := SLOT_NS - 1 + lag;
    k := heard / SLOT_NS;
    now := (heard + SLOT_NS - 1) / SLOT_NS * SLOT_NS;
    assert heard == k * SLOT_NS + heard % SLOT_NS;
    assert Asn(0, now) == (heard + SLOT_NS - 1) / SLOT_NS == Spread(lag);
  }

  lemma JoinedApart(sim: Sim, next: Sim, k: nat, announce: nat, lag: nat)
    requires Joined(sim, SLOT_NS - 1 + lag, k, announce, -(SLOT_NS - 1 + lag)) && next.stations == sim.stations
    requires next.now >= SLOT_NS - 1 + lag && Asn(0, next.now) == Asn(-(SLOT_NS - 1 + lag), next.now) + Spread(lag)
    ensures Apart(next, lag)
  {
    hide Asn, Spread;
    assert 0 in sim.stations.Keys && 1 in sim.stations.Keys;
  }

  /** The clock bound is sharp: for every lag some run brings two started stations exactly that far apart. */
  lemma SpreadIsReached(hash: CellHash, lag: nat)
    ensures exists trace :: IsTrace(hash, trace, lag) && Apart(trace[|trace| - 1], lag)
  {
    var k, now := BoundaryAfter(lag);
    var heard := SLOT_NS - 1 + lag;
    var announce := (k + 2) * SLOT_NS;
    hide Asn, Spread, Apart, Joined, Alone, Step;
    var a := Starts(hash, announce, lag);
    var trace := Upto(hash, a, lag);
    var b := Passes(hash, a, 0, 0, announce, SLOT_NS - 1, lag);
    Extended(hash, trace, b, lag);
    var c := Beacons(hash, b, announce, lag);
    Extended(hash, trace + [b], c, lag);
    hide IsTrace;
    var ticked, u := TicksOn(hash, trace + [b] + [c], SLOT_NS - 1, 0, k, announce, lag);
    var last := ticked[|ticked| - 1];
    assert u <= heard;
    var d := Passes(hash, last, u, k, announce, heard, lag);
    Extended(hash, ticked, d, lag);
    var e := Joins(hash, d, heard, k, announce, lag);
    Extended(hash, ticked + [d], e, lag);
    var f := Hears(hash, e, k, announce, lag);
    Extended(hash, ticked + [d] + [e], f, lag);
    var g := Waits(hash, f, heard, k, announce, -heard, now, lag);
    Extended(hash, ticked + [d] + [e] + [f], g, lag);
    JoinedApart(f, g, k, announce, lag);
    var whole := ticked + [d] + [e] + [f] + [g];
    assert whole[|whole| - 1] == g;
  }

  lemma Upto(hash: CellHash, a: Sim, lag: nat) returns (trace: seq<Sim>)
    requires Init(Nowhere()) && Step(hash, Nowhere(), a, lag)
    ensures IsTrace(hash, trace, lag) && trace[|trace| - 1] == a
  {
    trace := [Nowhere(), a];
  }
}
