/** What each handler of the flood baseline makes of a node. */
module FloodModel {
  import opened Types
  import opened DuplicateCache
  import opened Mpr

  datatype Mode = Naive | Snr | Elected

  type U8 = x: nat | x < 256

  datatype Packet = Packet(key: Key, dst: Address, lastHop: Address, hop: U8, payload: Payload, txTime: U64)

  /** What a rebroadcast self-message carries. */
  datatype Timer = Timer(key: Key, hop: U8, dst: Address, payload: Payload, txTime: U64)

  datatype Hello = Hello(src: Address, n1: seq<Address>, mprs: seq<Address>)

  /** `scheduled` counts the rebroadcasts ever armed; the source keeps no such counter. */
  datatype State = State(
    myId: Address,
    mode: Mode,
    initialHopLimit: int,
    neighbourTimeout: nat,
    nextPacketId: U32,
    recent: seq<Key>,
    pending: map<Key, Timer>,
    neighbours: Neighbours,
    mprSet: set<Address>,
    scheduled: nat,
    originated: nat,
    forwarded: nat,
    suppressed: nat,
    delivered: nat,
    deliveredToMe: nat,
    dropDup: nat,
    mprDrop: nat)

  function Fresh(myId: Address, mode: Mode, initialHopLimit: int, neighbourTimeout: nat): State {
    State(myId, mode, initialHopLimit, neighbourTimeout, 1, [], map[], map[], {}, 0, 0, 0, 0, 0, 0, 0, 0)
  }

  /** `(uint8_t)` of the configured hop limit. */
  function HopBudget(initialHopLimit: int): U8 { initialHopLimit % 256 }

  function NoteHeard(s: State, id: Address, now: int): State {
    if id == s.myId then s
    else
      var info := if id in s.neighbours then s.neighbours[id] else NeighbourInfo(0, [], []);
      s.(neighbours := s.neighbours[id := info.(lastSeen := now)])
  }

  function Stale(neighbours: Neighbours, cutoff: int): set<Address> {
    set k | k in neighbours && neighbours[k].lastSeen < cutoff
  }

  function Pruned(s: State, now: int): Neighbours {
    s.neighbours - Stale(s.neighbours, now - s.neighbourTimeout)
  }

  predicate SenderElectedUs(s: State, sender: Address) {
    sender in s.neighbours && s.myId in s.neighbours[sender].mprs
  }

  function Remember(s: State, k: Key): State { s.(recent := Remembered(s.recent, k)) }

  function Scheduled(s: State, t: Timer): State {
    s.(pending := s.pending[t.key := t], scheduled := s.scheduled + 1)
  }

  /** A packet never seen before, or forgotten since. */
  function Accepted(s: State, p: Packet): State {
    var r := Remember(s, p.key);
    var a := r.(delivered := r.delivered + 1, deliveredToMe := r.deliveredToMe + (if p.dst == s.myId then 1 else 0));
    if p.hop > 0 && p.key.src != s.myId && p.dst != s.myId then
      if s.mode == Elected && !SenderElectedUs(a, p.lastHop) then a.(mprDrop := a.mprDrop + 1)
      else Scheduled(a, Timer(p.key, p.hop - 1, p.dst, p.payload, p.txTime))
    else a
  }

  function AfterPacket(s: State, p: Packet, now: int): State {
    var h := if s.mode == Elected then NoteHeard(s, p.lastHop, now) else s;
    if p.key in h.pending then
      if h.mode == Naive then Remember(h, p.key)
      else Remember(h.(pending := h.pending - {p.key}, suppressed := h.suppressed + 1), p.key)
    else if p.key in h.recent then h.(dropDup := h.dropDup + 1)
    else Accepted(h, p)
  }

  function AfterFire(s: State, k: Key): State {
    s.(pending := s.pending - {k}, forwarded := s.forwarded + 1)
  }

  function FiredPacket(s: State, k: Key): Packet
    requires k in s.pending
  {
    var t := s.pending[k];
    Packet(t.key, t.dst, s.myId, t.hop, t.payload, t.txTime)
  }

  function AfterOriginate(s: State): State {
    var r := Remember(s, Key(s.myId, s.nextPacketId));
    r.(nextPacketId := (s.nextPacketId + 1) % 0x1_0000_0000, originated := s.originated + 1)
  }

  function OriginatedPacket(s: State, dst: Address, payload: Payload, txTime: U64): Packet {
    Packet(Key(s.myId, s.nextPacketId), dst, s.myId, HopBudget(s.initialHopLimit), payload, txTime)
  }

  function Learned(s: State, h: Hello, now: int): State {
    s.(neighbours := s.neighbours[h.src := NeighbourInfo(now, h.n1, h.mprs)])
  }

  /** A fresh election over the neighbours left after pruning; `picks` is what the greedy loop picks. */
  function Reelected(s: State, now: int, picks: seq<Address>): State {
    s.(neighbours := Pruned(s, now), mprSet := Elements(picks))
  }

  function AfterHello(s: State, h: Hello, now: int, picks: seq<Address>): State {
    if h.src == s.myId then s else Reelected(Learned(s, h, now), now, picks)
  }

  ghost predicate IsAscending(list: seq<Address>, s: set<Address>) {
    Elements(list) == s && forall i, j :: 0 <= i < j < |list| ==> list[i] < list[j]
  }

  /** The HELLO a node sends: its neighbours and its relays, each in ascending order. */
  ghost predicate IsHelloOf(s: State, h: Hello) {
    h.src == s.myId && IsAscending(h.n1, s.neighbours.Keys) && IsAscending(h.mprs, s.mprSet)
  }

  /** There is only one way to write a set in ascending order. */
  lemma {:induction false} AscendingIsUnique(a: seq<Address>, b: seq<Address>, s: set<Address>)
    requires IsAscending(a, s) && IsAscending(b, s)
    ensures a == b
    decreases |a|
  {
    EmptyTogether(a, s);
    EmptyTogether(b, s);
    if s != {} {
      var x, y := a[|a| - 1], b[|b| - 1];
      assert x in s && y in s;
      assert x == y;
      LastIsOut(a, s);
      LastIsOut(b, s);
      AscendingIsUnique(a[..|a| - 1], b[..|b| - 1], s - {x});
    }
  }

  lemma EmptyTogether(a: seq<Address>, s: set<Address>)
    requires IsAscending(a, s)
    ensures a == [] <==> s == {}
  {
    if a != [] { assert a[0] in s; }
  }

  lemma LastIsOut(a: seq<Address>, s: set<Address>)
    requires IsAscending(a, s) && a != []
    ensures IsAscending(a[..|a| - 1], s - {a[|a| - 1]})
  {
    var front, x := a[..|a| - 1], a[|a| - 1];
    assert a == front + [x];
  }
}
