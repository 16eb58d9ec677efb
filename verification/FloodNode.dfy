/** The flood application as its host runs it: one object whose handlers update its tables in place. */
module FloodNode {
  import opened Types
  import opened DuplicateCache
  import opened Mpr
  import opened FloodModel

  /** Every pending key has one live timer carrying it, and every live timer is the pending one of its key. */
  ghost predicate TimersMatch(pending: map<Key, Timer>, rebroadcasts: map<Key, nat>, timers: map<nat, Timer>, next: nat) {
    && pending.Keys == rebroadcasts.Keys
    && (forall k :: k in rebroadcasts ==>
          rebroadcasts[k] in timers && timers[rebroadcasts[k]] == pending[k] && pending[k].key == k)
    && forall t :: t in timers ==> t < next && timers[t].key in rebroadcasts && rebroadcasts[timers[t].key] == t
  }

  /** List and set of the duplicate cache hold the same keys, none twice, at most 32. */
  ghost predicate CacheMatches(list: seq<Key>, keys: set<Key>) {
    keys == Elements(list) && NoDuplicates(list) && |list| <= RECENT_CACHE_CAP
  }

  lemma TimerAdded(pending: map<Key, Timer>, rebroadcasts: map<Key, nat>, timers: map<nat, Timer>, next: nat, t: Timer)
    requires TimersMatch(pending, rebroadcasts, timers, next) && t.key !in rebroadcasts
    ensures TimersMatch(pending[t.key := t], rebroadcasts[t.key := next], timers[next := t], next + 1)
  {
  }

  lemma TimerDropped(pending: map<Key, Timer>, rebroadcasts: map<Key, nat>, timers: map<nat, Timer>, next: nat, k: Key)
    requires TimersMatch(pending, rebroadcasts, timers, next) && k in rebroadcasts
    ensures TimersMatch(pending - {k}, rebroadcasts - {k}, timers - {rebroadcasts[k]}, next)
  {
  }

  /** The pending keys and the live timers are in one-to-one correspondence. */
  lemma TimersBiject(pending: map<Key, Timer>, rebroadcasts: map<Key, nat>, timers: map<nat, Timer>, next: nat)
    requires TimersMatch(pending, rebroadcasts, timers, next)
    ensures forall k, l :: k in rebroadcasts && l in rebroadcasts && k != l ==> rebroadcasts[k] != rebroadcasts[l]
    ensures rebroadcasts.Values == timers.Keys
    ensures |rebroadcasts| == |timers|
  {
    forall t | t in timers ensures t in rebroadcasts.Values { assert rebroadcasts[timers[t].key] == t; }
    SameSize(rebroadcasts, timers);
  }

  lemma {:induction false} SameSize(rebroadcasts: map<Key, nat>, timers: map<nat, Timer>)
    requires forall k :: k in rebroadcasts ==> rebroadcasts[k] in timers && timers[rebroadcasts[k]].key == k
    requires forall t :: t in timers ==> timers[t].key in rebroadcasts && rebroadcasts[timers[t].key] == t
    ensures |rebroadcasts| == |timers|
    decreases |timers|
  {
    if timers == map[] {
      assert rebroadcasts == map[];
    } else {
      var t :| t in timers;
      var k := timers[t].key;
      SameSize(rebroadcasts - {k}, timers - {t});
      assert rebroadcasts == (rebroadcasts - {k})[k := t];
      assert timers == (timers - {t})[t := timers[t]];
    }
  }

  lemma HeadIsOut(list: seq<Key>)
    requires list != [] && NoDuplicates(list)
    ensures Elements(list[1..]) == Elements(list) - {list[0]} && NoDuplicates(list[1..])
  {
    assert list == [list[0]] + list[1..];
  }

  ghost predicate ListedBy(neighbours: Neighbours, listers: set<Address>, x: Address)
    requires listers <= neighbours.Keys
  {
    exists k :: k in listers && x in neighbours[k].n1
  }

  lemma ListedByOneMore(neighbours: Neighbours, listers: set<Address>, k: Address)
    requires listers <= neighbours.Keys && k in neighbours
    ensures forall x :: ListedBy(neighbours, listers + {k}, x) <==> ListedBy(neighbours, listers, x) || x in neighbours[k].n1
  {
    forall x ensures ListedBy(neighbours, listers + {k}, x) <==> ListedBy(neighbours, listers, x) || x in neighbours[k].n1 {
      if x in neighbours[k].n1 { assert k in listers + {k}; }
    }
  }

  lemma Shrinks(list: seq<Address>, uncovered: set<Address>)
    requires Cover(list, uncovered) > 0
    ensures |uncovered - Elements(list)| < |uncovered|
  {
    CoverPositive(list, uncovered);
    var x :| x in list && x in uncovered;
    SubsetSize(uncovered - Elements(list), uncovered - {x});
  }

  /** While something is uncovered, a finished scan has found the best pick. */
  lemma RoundFinds(myId: Address, neighbours: Neighbours, picks: seq<Address>, found: bool, best: Address, cover: nat)
    requires var u := Remaining(neighbours, TwoHop(myId, neighbours), picks);
             u != {} && BestSoFar(neighbours, Elements(picks), u, neighbours.Keys, found, best, cover)
    ensures found && best in neighbours
    ensures var u := Remaining(neighbours, TwoHop(myId, neighbours), picks);
            IsBest(neighbours, Elements(picks), u, best) && Cover(neighbours[best].n1, u) > 0
  {
    hide Cover, TwoHop, Remaining;
    ScanFinds(neighbours, Elements(picks), Remaining(neighbours, TwoHop(myId, neighbours), picks), found, best, cover);
    SomeoneCovers(myId, neighbours, picks);
  }

  lemma NoNeighboursNoTwoHop(myId: Address, neighbours: Neighbours)
    requires neighbours == map[]
    ensures IsElection(myId, neighbours, [])
  {
  }

  lemma AscendingSnoc(list: seq<Address>, s: set<Address>, x: Address)
    requires IsAscending(list, s) && forall y :: y in s ==> y < x
    ensures IsAscending(list + [x], s + {x})
  {
    forall i | 0 <= i < |list| ensures list[i] < x { assert list[i] in s; }
  }

  class FloodApp {
    const myId: Address
    const mode: Mode
    const initialHopLimit: int
    const neighbourTimeout: nat
    var nextPacketId: U32
    var recentList: seq<Key>
    var recentSet: set<Key>
    var pendingRebroadcasts: map<Key, nat>
    var timers: map<nat, Timer>
    var nextTimer: nat
    var neighbours: Neighbours
    var myMprSet: set<Address>
    var pktsOriginated: nat
    var pktsForwarded: nat
    var pktsSuppressed: nat
    var pktsDelivered: nat
    var pktsDeliveredToMe: nat
    var pktsDropDup: nat
    var pktsMprDrop: nat
    var sent: seq<Packet>
    var hellos: seq<Hello>

    ghost var pending: map<Key, Timer>
    ghost var scheduled: nat

    ghost predicate Valid()
      reads this
    {
      && CacheMatches(recentList, recentSet)
      && TimersMatch(pending, pendingRebroadcasts, timers, nextTimer)
    }

    ghost function Model(): State
      reads this
    {
      State(myId, mode, initialHopLimit, neighbourTimeout, nextPacketId, recentList, pending, neighbours, myMprSet,
            scheduled, pktsOriginated, pktsForwarded, pktsSuppressed, pktsDelivered, pktsDeliveredToMe, pktsDropDup, pktsMprDrop)
    }

    constructor (id: Address, m: Mode, hops: int, timeout: nat)
      ensures Valid() && Model() == Fresh(id, m, hops, timeout) && sent == [] && hellos == []
    {
      myId, mode, initialHopLimit, neighbourTimeout := id, m, hops, timeout;
      nextPacketId, nextTimer := 1, 0;
      recentList, recentSet, pendingRebroadcasts, timers := [], {}, map[], map[];
      neighbours, myMprSet := map[], {};
      pktsOriginated, pktsForwarded, pktsSuppressed, pktsDelivered := 0, 0, 0, 0;
      pktsDeliveredToMe, pktsDropDup, pktsMprDrop := 0, 0, 0;
      sent, hellos := [], [];
      pending, scheduled := map[], 0;
    }

    // ----- duplicate cache -----

    predicate IsInRecentCache(k: Key)
      reads this
    {
      k in recentSet
    }

    method RememberPacket(k: Key)
      requires Valid()
      modifies this`recentList, this`recentSet
      ensures Valid() && Model() == Remember(old(Model()), k)
    {
      RememberedFits(recentList, k);
      ghost var grown := recentList + [k];
      if k !in recentSet {
        recentSet := recentSet + {k};
        recentList := recentList + [k];
        if |recentList| > RECENT_CACHE_CAP {
          HeadIsOut(grown);
          recentSet := recentSet - {recentList[0]};
          recentList := recentList[1..];
        }
      }
    }

    // ----- rebroadcasts -----

    method ScheduleRebroadcast(k: Key, hop: U8, payload: Payload, dst: Address, txTime: U64)
      requires Valid() && k !in pendingRebroadcasts
      modifies this
      ensures sent == old(sent) && hellos == old(hellos)
      ensures Valid() && Model() == Scheduled(old(Model()), Timer(k, hop, dst, payload, txTime))
    {
      var t := Timer(k, hop, dst, payload, txTime);
      hide TimersMatch, CacheMatches;
      TimerAdded(pending, pendingRebroadcasts, timers, nextTimer, t);
      timers := timers[nextTimer := t];
      pendingRebroadcasts := pendingRebroadcasts[k := nextTimer];
      nextTimer := nextTimer + 1;
      pending := pending[k := t];
      scheduled := scheduled + 1;
    }

    /** `cancelAndDelete`, then the erase that goes with it. */
    method CancelRebroadcast(k: Key)
      requires Valid() && k in pendingRebroadcasts
      modifies this`pendingRebroadcasts, this`timers, this`pending
      ensures Valid() && Model() == old(Model()).(pending := old(pending) - {k})
    {
      hide CacheMatches;
      TimerDropped(pending, pendingRebroadcasts, timers, nextTimer, k);
      timers := timers - {pendingRebroadcasts[k]};
      pendingRebroadcasts := pendingRebroadcasts - {k};
      pending := pending - {k};
    }

    method OnRebroadcastTimer(timer: nat, channelBusy: bool)
      requires Valid() && timer in timers
      modifies this
      ensures Valid() && hellos == old(hellos)
      ensures channelBusy ==> Model() == old(Model()) && sent == old(sent) && timer in timers
      ensures !channelBusy ==>
                && old(timers[timer].key) in old(pending)
                && Model() == AfterFire(old(Model()), old(timers[timer].key))
                && sent == old(sent) + [FiredPacket(old(Model()), old(timers[timer].key))]
    {
      hide CacheMatches;
      if channelBusy { return; }
      var t := timers[timer];
      CancelRebroadcast(t.key);
      pktsForwarded := pktsForwarded + 1;
      Broadcast(t.key, t.hop, t.payload, t.dst, t.txTime);
    }

    method Broadcast(k: Key, hop: U8, payload: Payload, dst: Address, txTime: U64)
      modifies this`sent
      ensures sent == old(sent) + [Packet(k, dst, myId, hop, payload, txTime)]
    {
      sent := sent + [Packet(k, dst, myId, hop, payload, txTime)];
    }

    method Originate(dst: Address, payload: Payload, now: U64)
      requires Valid()
      modifies this
      ensures Valid() && hellos == old(hellos)
      ensures Model() == AfterOriginate(old(Model()))
      ensures sent == old(sent) + [OriginatedPacket(old(Model()), dst, payload, now)]
    {
      hide TimersMatch, CacheMatches, Remembered;
      var pktId := nextPacketId;
      nextPacketId := (nextPacketId + 1) % 0x1_0000_0000;
      RememberPacket(Key(myId, pktId));
      pktsOriginated := pktsOriginated + 1;
      Broadcast(Key(myId, pktId), HopBudget(initialHopLimit), payload, dst, now);
    }

    // ----- packets from below -----

    method OnPacket(p: Packet, now: int)
      requires Valid()
      modifies this
      ensures Valid() && sent == old(sent) && hellos == old(hellos)
      ensures Model() == AfterPacket(old(Model()), p, now)
    {
      hide NoteHeard, Remembered, Accepted;
      if mode == Elected { HearNeighbour(p.lastHop, now); }
      if p.key in pendingRebroadcasts {
        if mode == Naive {
          RememberPacket(p.key);
          return;
        }
        Suppress(p.key);
        return;
      }
      if IsInRecentCache(p.key) {
        pktsDropDup := pktsDropDup + 1;
        return;
      }
      AcceptPacket(p);
    }

    /** Cancels a pending rebroadcast that someone else has made. */
    method Suppress(k: Key)
      requires Valid() && k in pendingRebroadcasts
      modifies this
      ensures Valid() && sent == old(sent) && hellos == old(hellos)
      ensures Model() == Remember(old(Model()).(pending := old(pending) - {k}, suppressed := old(pktsSuppressed) + 1), k)
    {
      hide TimersMatch, CacheMatches, Remembered;
      CancelRebroadcast(k);
      pktsSuppressed := pktsSuppressed + 1;
      RememberPacket(k);
    }

    method AcceptPacket(p: Packet)
      requires Valid() && p.key !in pendingRebroadcasts
      modifies this
      ensures Valid() && sent == old(sent) && hellos == old(hellos)
      ensures Model() == Accepted(old(Model()), p)
    {
      hide TimersMatch, CacheMatches, Remembered, SenderElectedUs;
      RememberPacket(p.key);
      pktsDelivered := pktsDelivered + 1;
      var destinedOnlyForUs := p.dst == myId;
      if destinedOnlyForUs { pktsDeliveredToMe := pktsDeliveredToMe + 1; }
      if p.hop > 0 && p.key.src != myId && !destinedOnlyForUs {
        var elected := true;
        if mode == Elected { elected := ElectedUs(p.lastHop); }
        if !elected {
          pktsMprDrop := pktsMprDrop + 1;
          return;
        }
        ScheduleRebroadcast(p.key, p.hop - 1, p.payload, p.dst, p.txTime);
      }
    }

    method ElectedUs(sender: Address) returns (elected: bool)
      ensures elected <==> SenderElectedUs(Model(), sender)
    {
      if sender !in neighbours { return false; }
      var mprs := neighbours[sender].mprs;
      for i := 0 to |mprs|
        invariant myId !in mprs[..i]
      {
        if mprs[i] == myId { return true; }
      }
      assert mprs[..|mprs|] == mprs;
      return false;
    }

    // ----- neighbours and their relays -----

    method HearNeighbour(id: Address, now: int)
      requires Valid()
      modifies this`neighbours
      ensures Valid() && Model() == NoteHeard(old(Model()), id, now)
    {
      if id == myId { return; }
      var info := if id in neighbours then neighbours[id] else NeighbourInfo(0, [], []);
      neighbours := neighbours[id := info.(lastSeen := now)];
    }

    /** The next key of an ordered set or map. */
    method SmallestOf(s: set<Address>) returns (x: Address)
      requires s != {}
      ensures x in s && forall y :: y in s ==> x <= y
    {
      x :| x in s;
      var todo := s - {x};
      while todo != {}
        invariant x in s && todo <= s && forall y :: y in s && y !in todo ==> x <= y
      {
        var y :| y in todo;
        if y < x { x := y; }
        todo := todo - {y};
      }
    }

    method PruneNeighbours(now: int)
      requires Valid()
      modifies this`neighbours
      ensures Valid() && Model() == old(Model()).(neighbours := Pruned(old(Model()), now))
    {
      var cutoff := now - neighbourTimeout;
      var todo := neighbours.Keys;
      ghost var all := neighbours;
      while todo != {}
        invariant todo <= all.Keys
        invariant neighbours.Keys == all.Keys - (Stale(all, cutoff) - todo)
        invariant forall k :: k in neighbours ==> neighbours[k] == all[k]
      {
        var k := SmallestOf(todo);
        if neighbours[k].lastSeen < cutoff { neighbours := neighbours - {k}; }
        todo := todo - {k};
      }
      assert neighbours == all - Stale(all, cutoff);
    }

    /** The strict two-hop neighbourhood, gathered from every neighbour's list. */
    method GatherTwoHop() returns (uncovered: set<Address>)
      ensures uncovered == TwoHop(myId, neighbours)
    {
      uncovered := {};
      var todo := neighbours.Keys;
      while todo != {}
        invariant todo <= neighbours.Keys
        invariant forall x :: x in uncovered <==> x != myId && x !in neighbours && ListedBy(neighbours, neighbours.Keys - todo, x)
      {
        var k := SmallestOf(todo);
        var list := neighbours[k].n1;
        ghost var before := uncovered;
        for i := 0 to |list|
          invariant forall x :: x in uncovered <==> x in before || (x in list[..i] && x != myId && x !in neighbours)
        {
          if list[i] != myId && list[i] !in neighbours { uncovered := uncovered + {list[i]}; }
        }
        assert list[..|list|] == list;
        ListedByOneMore(neighbours, neighbours.Keys - todo, k);
        assert neighbours.Keys - (todo - {k}) == neighbours.Keys - todo + {k};
        todo := todo - {k};
      }
    }

    method CountCover(list: seq<Address>, uncovered: set<Address>) returns (cover: nat)
      ensures cover == Cover(list, uncovered)
    {
      cover := 0;
      for i := 0 to |list|
        invariant cover == Cover(list[..i], uncovered)
      {
        assert list[..i + 1][..i] == list[..i];
        if list[i] in uncovered { cover := cover + 1; }
      }
      assert list[..|list|] == list;
    }

    /** One pass over the candidates in ascending order. */
    method ScanForBest(uncovered: set<Address>) returns (found: bool, bestId: Address, bestCover: nat)
      ensures BestSoFar(neighbours, myMprSet, uncovered, neighbours.Keys, found, bestId, bestCover)
    {
      found, bestId, bestCover := false, 0, 0;
      var todo := neighbours.Keys;
      while todo != {}
        invariant todo <= neighbours.Keys
        invariant forall c, d :: c in neighbours && c !in todo && d in todo ==> c < d
        invariant BestSoFar(neighbours, myMprSet, uncovered, neighbours.Keys - todo, found, bestId, bestCover)
      {
        var candidate := SmallestOf(todo);
        assert neighbours.Keys - (todo - {candidate}) == neighbours.Keys - todo + {candidate};
        todo := todo - {candidate};
        if candidate !in myMprSet {
          var cover := CountCover(neighbours[candidate].n1, uncovered);
          if cover > bestCover || (cover == bestCover && found && candidate < bestId) {
            if cover > 0 { found, bestId, bestCover := true, candidate, cover; }
          }
        }
      }
      assert neighbours.Keys - {} == neighbours.Keys;
    }

    /** The election.  The early exit of the source's loop is never taken: `found` holds on every round. */
    method RecomputeMprSet() returns (ghost picks: seq<Address>)
      requires Valid()
      modifies this`myMprSet
      ensures Valid() && IsElection(myId, neighbours, picks)
      ensures Model() == old(Model()).(mprSet := Elements(picks))
    {
      hide Cover, IsBest, TwoHop, BestSoFar, Remaining, PickIsBest, CacheMatches, TimersMatch;
      picks := [];
      myMprSet := {};
      ghost var all := TwoHop(myId, neighbours);
      if neighbours == map[] {
        NoNeighboursNoTwoHop(myId, neighbours);
        return;
      }
      var uncovered := GatherTwoHop();
      NothingPicked(neighbours, all, picks);
      assert picks[..0] == picks;
      while uncovered != {}
        invariant IsGreedy(neighbours, all, picks) && uncovered == Remaining(neighbours, all, picks)
        invariant myMprSet == Elements(picks)
        decreases |uncovered|
      {
        var found, bestId, bestCover := ScanForBest(uncovered);
        RoundFinds(myId, neighbours, picks, found, bestId, bestCover);
        if !found { break; }
        GreedyExtends(neighbours, all, picks, bestId);
        picks := picks + [bestId];
        myMprSet := myMprSet + {bestId};
        Shrinks(neighbours[bestId].n1, uncovered);
        uncovered := EraseAll(uncovered, neighbours[bestId].n1);
      }
    }

    method EraseAll(uncovered: set<Address>, list: seq<Address>) returns (rest: set<Address>)
      ensures rest == uncovered - Elements(list)
    {
      rest := uncovered;
      for i := 0 to |list|
        invariant rest == uncovered - Elements(list[..i])
      {
        rest := rest - {list[i]};
      }
      assert list[..|list|] == list;
    }

    // ----- HELLO -----

    /** Writes out a set in ascending order. */
    method Listed(s: set<Address>) returns (list: seq<Address>)
      ensures IsAscending(list, s)
    {
      list := [];
      var todo := s;
      while todo != {}
        invariant todo <= s && IsAscending(list, s - todo)
        invariant forall x, y :: x in s && x !in todo && y in todo ==> x < y
      {
        var x := SmallestOf(todo);
        AscendingSnoc(list, s - todo, x);
        assert s - (todo - {x}) == s - todo + {x};
        list := list + [x];
        todo := todo - {x};
      }
      assert s - {} == s;
    }

    method SendHello(now: int) returns (ghost picks: seq<Address>)
      requires Valid()
      modifies this
      ensures Valid() && sent == old(sent)
      ensures Model() == Reelected(old(Model()), now, picks) && IsElection(myId, neighbours, picks)
      ensures |hellos| == |old(hellos)| + 1 && hellos[..|old(hellos)|] == old(hellos)
      ensures IsHelloOf(Model(), hellos[|old(hellos)|])
    {
      PruneNeighbours(now);
      picks := RecomputeMprSet();
      var n1 := Listed(neighbours.Keys);
      var mprs := Listed(myMprSet);
      hellos := hellos + [Hello(myId, n1, mprs)];
    }

    method OnHello(h: Hello, now: int) returns (ghost picks: seq<Address>)
      requires Valid()
      modifies this
      ensures Valid() && sent == old(sent) && hellos == old(hellos)
      ensures Model() == AfterHello(old(Model()), h, now, picks)
      ensures h.src != myId ==> IsElection(myId, neighbours, picks)
    {
      picks := [];
      if h.src == myId { return; }
      hide CacheMatches, TimersMatch, Stale, IsElection;
      Learn(h, now);
      PruneNeighbours(now);
      picks := RecomputeMprSet();
    }

    method Learn(h: Hello, now: int)
      requires Valid() && h.src != myId
      modifies this`neighbours
      ensures Valid() && Model() == Learned(old(Model()), h, now)
    {
      hide CacheMatches, TimersMatch;
      HearNeighbour(h.src, now);
      neighbours := neighbours[h.src := NeighbourInfo(now, h.n1, h.mprs)];
    }
  }
}
