/**
 What each event does to a flood node, in full and with cache size, id width and hop arithmetic written out, and what an
 election picks in terms of the HELLO lists alone.
 */
module FloodHandlers {
  import opened Types
  import opened DuplicateCache
  import opened Mpr
  import opened FloodModel

  // ----- packets -----

  /** A key the cache does not hold goes to its end, and pushes out the oldest of 32. */
  function Recalling(recent: seq<Key>, k: Key): seq<Key> {
    if k in recent then recent else (if |recent| < 32 then recent else recent[1..]) + [k]
  }

  lemma RememberedIs(recent: seq<Key>, k: Key)
    ensures Remembered(recent, k) == Recalling(recent, k)
  {
    if |recent| >= 32 { assert (recent + [k])[1..] == recent[1..] + [k]; }
  }

  /** Only an electing node notes whom it hears; it keeps the lists of those it knows, and itself out. */
  function Hearing(s: State, id: Address, now: int): Neighbours {
    if s.mode != Elected || id == s.myId then s.neighbours
    else s.neighbours[id := if id in s.neighbours then NeighbourInfo(now, s.neighbours[id].n1, s.neighbours[id].mprs)
                            else NeighbourInfo(now, [], [])]
  }

  /** A copy of a packet whose relay is pending silences it, except in the naive mode, and is remembered. */
  lemma CopySilences(s: State, p: Packet, now: int)
    requires p.key in s.pending
    ensures AfterPacket(s, p, now)
            == s.(neighbours := Hearing(s, p.lastHop, now), recent := Recalling(s.recent, p.key),
                  pending := if s.mode == Naive then s.pending else s.pending - {p.key},
                  suppressed := if s.mode == Naive then s.suppressed else s.suppressed + 1)
  {
    RememberedIs(s.recent, p.key);
    hide Remembered;
  }

  /** Any other packet in the cache is counted as a duplicate. */
  lemma KnownIsDropped(s: State, p: Packet, now: int)
    requires p.key !in s.pending && p.key in s.recent
    ensures AfterPacket(s, p, now) == s.(neighbours := Hearing(s, p.lastHop, now), dropDup := s.dropDup + 1)
  {
  }

  /** A packet with hops to go that is neither from nor for this node. */
  predicate GoesOn(s: State, p: Packet) {
    p.hop > 0 && p.key.src != s.myId && p.dst != s.myId
  }

  /** An electing node relays only for senders whose last HELLO named it. */
  predicate MayRelay(s: State, sender: Address) {
    s.mode != Elected || (sender in s.neighbours && s.myId in s.neighbours[sender].mprs)
  }

  /** A new packet is remembered and counted; one that goes on is to be relayed with one hop less, or counted as not elected for. */
  lemma NewIsAccepted(s: State, p: Packet, now: int)
    requires p.key !in s.pending && p.key !in s.recent
    ensures var relays := GoesOn(s, p) && MayRelay(s, p.lastHop);
            AfterPacket(s, p, now)
            == s.(neighbours := Hearing(s, p.lastHop, now), recent := Recalling(s.recent, p.key),
                  delivered := s.delivered + 1,
                  deliveredToMe := s.deliveredToMe + (if p.dst == s.myId then 1 else 0),
                  mprDrop := s.mprDrop + (if GoesOn(s, p) && !relays then 1 else 0),
                  scheduled := s.scheduled + (if relays then 1 else 0),
                  pending := if relays then s.pending[p.key := Timer(p.key, p.hop - 1, p.dst, p.payload, p.txTime)] else s.pending)
  {
    RememberedIs(s.recent, p.key);
    hide Remembered, Recalling;
  }

  /** What goes out in the end is the packet that came in, with this node as its last hop and one hop less to go. */
  lemma RelayedIsReceived(s: State, p: Packet, now: int)
    requires p.key !in s.pending && p.key !in s.recent && GoesOn(s, p) && MayRelay(s, p.lastHop)
    ensures var t := AfterPacket(s, p, now);
            && p.key in t.pending
            && FiredPacket(t, p.key) == p.(lastHop := s.myId, hop := p.hop - 1)
            && AfterFire(t, p.key) == t.(pending := s.pending, forwarded := s.forwarded + 1)
  {
    NewIsAccepted(s, p, now);
    hide AfterPacket, Recalling, Hearing;
    assert s.pending[p.key := Timer(p.key, p.hop - 1, p.dst, p.payload, p.txTime)] - {p.key} == s.pending;
  }

  /** A packet of one's own carries the next id, which wraps around at 2^32, and as many hops as eight bits of the limit say; it is remembered. */
  lemma OriginatedIs(s: State, dst: Address, payload: Payload, txTime: U64)
    ensures OriginatedPacket(s, dst, payload, txTime)
            == Packet(Key(s.myId, s.nextPacketId), dst, s.myId, s.initialHopLimit % 256, payload, txTime)
    ensures AfterOriginate(s)
            == s.(recent := Recalling(s.recent, Key(s.myId, s.nextPacketId)), originated := s.originated + 1,
                  nextPacketId := if s.nextPacketId == 0xFFFF_FFFF then 0 else s.nextPacketId + 1)
  {
    RememberedIs(s.recent, Key(s.myId, s.nextPacketId));
    hide Remembered;
  }

  // ----- neighbours -----

  /** Exactly the neighbours heard within the timeout are left, with their lists. */
  ghost predicate FreshOf(before: Neighbours, after: Neighbours, timeout: nat, now: int) {
    && (forall k :: k in after <==> k in before && now - before[k].lastSeen <= timeout)
    && (forall k :: k in after ==> after[k] == before[k])
  }

  /** Before a HELLO of its own a node drops whom it has not heard for long, and takes what it elects then as its relays. */
  lemma AnnouncingPrunes(s: State, now: int, picks: seq<Address>)
    ensures var t := Reelected(s, now, picks);
            && t == s.(neighbours := t.neighbours, mprSet := t.mprSet)
            && FreshOf(s.neighbours, t.neighbours, s.neighbourTimeout, now)
            && forall x :: x in t.mprSet <==> x in picks
  {
  }

  /** A HELLO puts its sender's lists in place of the old ones, whatever they were, then the same happens. One's own is ignored. */
  lemma HelloIsLearnt(s: State, h: Hello, now: int, picks: seq<Address>)
    ensures h.src == s.myId ==> AfterHello(s, h, now, picks) == s
    ensures h.src != s.myId ==>
              var t := AfterHello(s, h, now, picks);
              && t == s.(neighbours := t.neighbours, mprSet := t.mprSet)
              && FreshOf(s.neighbours[h.src := NeighbourInfo(now, h.n1, h.mprs)], t.neighbours, s.neighbourTimeout, now)
              && h.src in t.neighbours && t.neighbours[h.src] == NeighbourInfo(now, h.n1, h.mprs)
              && forall x :: x in t.mprSet <==> x in picks
  {
  }

  // ----- elections -----

  /** Some neighbour lists x, which is neither this node nor a neighbour itself, and none of the first i relays lists it. */
  ghost predicate Open(myId: Address, neighbours: Neighbours, picks: seq<Address>, i: nat, x: Address) {
    && x != myId && x !in neighbours
    && (exists k :: k in neighbours && x in neighbours[k].n1)
    && forall j :: 0 <= j < i && j < |picks| && picks[j] in neighbours ==> x !in neighbours[picks[j]].n1
  }

  /** How many of these relay c would add. */
  ghost function Gain(myId: Address, neighbours: Neighbours, picks: seq<Address>, i: nat, c: Address): nat
    requires c in neighbours
  {
    |set x | x in neighbours[c].n1 && Open(myId, neighbours, picks, i, x)|
  }

  /** Relay number i is a neighbour not picked before that gains most, the smallest id of those, and gains something. */
  ghost predicate GainsMost(myId: Address, neighbours: Neighbours, picks: seq<Address>, i: nat)
    requires i < |picks|
  {
    && picks[i] in neighbours && picks[i] !in picks[..i] && Gain(myId, neighbours, picks, i, picks[i]) > 0
    && forall c :: c in neighbours && c !in picks[..i] ==>
         && Gain(myId, neighbours, picks, i, c) <= Gain(myId, neighbours, picks, i, picks[i])
         && (Gain(myId, neighbours, picks, i, c) == Gain(myId, neighbours, picks, i, picks[i]) ==> picks[i] <= c)
  }

  lemma OpenIsRemaining(myId: Address, neighbours: Neighbours, picks: seq<Address>, i: nat)
    requires i <= |picks|
    ensures forall x :: Open(myId, neighbours, picks, i, x) <==> x in Remaining(neighbours, TwoHop(myId, neighbours), picks[..i])
  {
    RemainingMembers(neighbours, TwoHop(myId, neighbours), picks[..i]);
    forall x ensures Open(myId, neighbours, picks, i, x) <==> x in Remaining(neighbours, TwoHop(myId, neighbours), picks[..i]) {
      if Open(myId, neighbours, picks, i, x) {
        forall p | p in picks[..i] ensures x !in Heard(neighbours, p) {
          var j :| 0 <= j < i && picks[..i][j] == p;
          assert picks[j] == p;
        }
      } else if x in TwoHop(myId, neighbours) {
        var j :| 0 <= j < i && picks[j] in neighbours && x in neighbours[picks[j]].n1;
        assert picks[j] == picks[..i][j] && x in Heard(neighbours, picks[j]);
      }
    }
  }

  lemma GainIsCover(myId: Address, neighbours: Neighbours, picks: seq<Address>, i: nat, c: Address)
    requires i <= |picks| && c in neighbours && NoDuplicates(neighbours[c].n1)
    ensures Gain(myId, neighbours, picks, i, c) == Cover(neighbours[c].n1, Remaining(neighbours, TwoHop(myId, neighbours), picks[..i]))
  {
    var u := Remaining(neighbours, TwoHop(myId, neighbours), picks[..i]);
    OpenIsRemaining(myId, neighbours, picks, i);
    CoverIsSize(neighbours[c].n1, u);
    hide Open, Remaining, TwoHop, Cover;
    assert (set x | x in neighbours[c].n1 && Open(myId, neighbours, picks, i, x)) == Elements(neighbours[c].n1) * u;
  }

  lemma PickGainsMost(myId: Address, neighbours: Neighbours, picks: seq<Address>, i: nat)
    requires HonestCounts(neighbours) && i < |picks|
    ensures PickIsBest(neighbours, TwoHop(myId, neighbours), picks, i) <==> GainsMost(myId, neighbours, picks, i)
  {
    forall c | c in neighbours
      ensures Gain(myId, neighbours, picks, i, c) == Cover(neighbours[c].n1, Remaining(neighbours, TwoHop(myId, neighbours), picks[..i]))
    {
      GainIsCover(myId, neighbours, picks, i, c);
    }
    hide Gain, Cover, Remaining, TwoHop;
  }

  /**
   Main result: with duplicate-free HELLO lists, an election is exactly a run of picks each of which gains most at its
   turn, ties going to the smallest id, until nobody is left that a neighbour lists and no relay does.
   */
  lemma ElectionIsGreedy(myId: Address, neighbours: Neighbours, picks: seq<Address>)
    requires HonestCounts(neighbours)
    ensures IsElection(myId, neighbours, picks) <==>
              && (forall i :: 0 <= i < |picks| ==> GainsMost(myId, neighbours, picks, i))
              && forall x :: !Open(myId, neighbours, picks, |picks|, x)
  {
    var u := TwoHop(myId, neighbours);
    forall i | 0 <= i < |picks| ensures PickIsBest(neighbours, u, picks, i) <==> GainsMost(myId, neighbours, picks, i) {
      PickGainsMost(myId, neighbours, picks, i);
    }
    OpenIsRemaining(myId, neighbours, picks, |picks|);
    assert picks[..|picks|] == picks;
    hide GainsMost, PickIsBest, Open, TwoHop, Remaining;
  }
}
