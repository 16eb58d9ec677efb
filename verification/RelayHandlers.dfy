/**
 What becomes of a packet that is sent, passed on, sealed or heard, branch by branch and with the limits written out:
 the counterpart of RouteHandlers for the data path of route.zig and relay.zig.
 */
module RelayHandlers {
  import opened Types
  import opened NodeModel
  import opened DataFrame
  import opened RouteHandlers

  // ----- where a packet goes -----

  /** The link to the destination, or else the link to the next hop of its route. */
  function Way(s: State, dest: Address): Option<Address> {
    if dest in s.links then Some(dest)
    else if dest in s.routes && s.routes[dest].nextHop in s.links then Some(s.routes[dest].nextHop)
    else None
  }

  /** This one queue is longer by this one item; nothing else has changed. */
  ghost predicate OnLink(s: State, t: State, peer: Address, item: PendingTx) {
    && peer in s.links && |s.links[peer].pending| < 32
    && t == s.(links := s.links[peer := s.links[peer].(pending := s.links[peer].pending + [item])])
  }

  /** There is a way, but its queue is full: the packet is dropped and counted. */
  ghost predicate TurnedAway(s: State, t: State, peer: Address) {
    && peer in s.links && |s.links[peer].pending| >= 32
    && t == s.(counters := s.counters.(dropQueueFull := s.counters.dropQueueFull + 1))
  }

  // ----- sending -----

  /** A payload over 192 bytes, or one for oneself, goes nowhere. */
  lemma SendRefuses(s: State, dest: Address, source: Address, payload: Payload, now: nat, id: U32)
    requires |payload| > 192 || dest == s.addr
    ensures AfterSend(s, dest, source, payload, now, id) == s
  {
  }

  /** With a way, the payload joins its queue if fewer than 32 wait there. */
  lemma SendTakesTheWay(s: State, dest: Address, source: Address, payload: Payload, now: nat, id: U32)
    requires |payload| <= 192 && dest != s.addr && Way(s, dest).Some?
    ensures var t, peer := AfterSend(s, dest, source, payload, now, id), Way(s, dest).value;
            if |s.links[peer].pending| < 32 then OnLink(s, t, peer, PendingTx(dest, source, payload)) else TurnedAway(s, t, peer)
  {
  }

  /** Without one, the next hop of the route is asked for a link. */
  predicate AsksNextHop(s: State, dest: Address, now: nat) {
    dest in s.routes && LinkDue(s, s.routes[dest].nextHop, now)
  }

  /** So is the destination, if it is a neighbour; if it is also the next hop it has just been asked, at a time other than 0. */
  predicate AsksDest(s: State, dest: Address, now: nat) {
    && LinkDue(s, dest, now)
    && if dest in s.routes && s.routes[dest].nextHop == dest then now == 0 else dest in s.neighbors
  }

  function Asking(s: State, peer: Address, now: nat): map<Address, NeighborInfo> {
    s.neighbors[peer := NeighborInfo(peer in s.neighbors && s.neighbors[peer].known, now)]
  }

  function SoughtFirst(s: State, dest: Address, now: nat): State {
    if AsksNextHop(s, dest, now)
    then s.(neighbors := Asking(s, s.routes[dest].nextHop, now), queue := s.queue + [LinkFrame(Request, s.routes[dest].nextHop, s.addr, s.addr)])
    else s
  }

  /** Once the next hop has been asked, the destination's turn comes under the same condition as before, unless it is the next hop. */
  lemma SeeksSecond(s: State, dest: Address, now: nat)
    requires dest != s.addr && Way(s, dest).None?
    ensures var s1 := SoughtFirst(s, dest, now);
            AsksDest(s, dest, now) <==> dest in s1.neighbors && LinkDue(s1, dest, now)
  {
  }

  /** The node with the link requests out that a send without a way makes: at most two, to the next hop first. */
  function Sought(s: State, dest: Address, now: nat): State {
    var s1 := SoughtFirst(s, dest, now);
    if AsksDest(s, dest, now)
    then s1.(neighbors := Asking(s1, dest, now), queue := s1.queue + [LinkFrame(Request, dest, s.addr, s.addr)])
    else s1
  }

  lemma SendSeeks(s: State, dest: Address, now: nat)
    requires dest != s.addr && Way(s, dest).None?
    ensures var s1 := if dest in s.routes then AfterTryEstablish(s, s.routes[dest].nextHop, now) else s;
            (if dest in s1.neighbors then AfterTryEstablish(s1, dest, now) else s1) == Sought(s, dest, now)
  {
    if dest in s.routes { LinkAskedIffDue(s, s.routes[dest].nextHop, now); }
    LinkAskedIffDue(SoughtFirst(s, dest, now), dest, now);
    SeeksSecond(s, dest, now);
    hide AfterTryEstablish, LinkDue, AsksDest, Way;
  }

  function LinkRequests(s: State, dest: Address, now: nat): (r: seq<Frame>)
    ensures |r| <= 2 && forall f :: f in r ==> f.LinkFrame?
  {
    (if AsksNextHop(s, dest, now) then [LinkFrame(Request, s.routes[dest].nextHop, s.addr, s.addr)] else [])
    + (if AsksDest(s, dest, now) then [LinkFrame(Request, dest, s.addr, s.addr)] else [])
  }

  /** Link requests touch the neighbour table and the queue alone. */
  lemma SoughtTouches(s: State, dest: Address, now: nat)
    ensures var u := Sought(s, dest, now);
            u == s.(neighbors := u.neighbors, queue := s.queue + LinkRequests(s, dest, now))
  {
    assert s.queue + [] == s.queue;
    hide LinkDue;
  }

  /** A payload that is not the node's own and has no way is dropped and counted. */
  lemma SendDropsForeign(s: State, dest: Address, source: Address, payload: Payload, now: nat, id: U32)
    requires |payload| <= 192 && dest != s.addr && Way(s, dest).None? && source != s.addr
    ensures AfterSend(s, dest, source, payload, now, id)
            == Sought(s, dest, now).(counters := s.counters.(dropNoLink := s.counters.dropNoLink + 1))
  {
    SendSeeks(s, dest, now);
    SoughtTouches(s, dest, now);
    hide AfterTryEstablish, Sought;
  }

  /** A request is due: none was ever made for dest, or the last one is twenty seconds old. */
  predicate RequestDue(s: State, dest: Address, now: nat) {
    dest !in s.lastRreq || now >= s.lastRreq[dest] + 20_000_000_000
  }

  /** What waits for dest after one more payload: that one and the last seven before it. */
  function NowParked(s: State, dest: Address, payload: Payload): seq<Payload> {
    var waiting := if dest in s.pendingRoutes then s.pendingRoutes[dest] else [];
    (if |waiting| < 8 then waiting else waiting[1..]) + [payload]
  }

  /**
   One's own payload without a way is parked, and a request goes out if and only if one is due: with the next sequence
   number, no cost and ten hops to go, and a reverse path that ends here. Else nothing but the payload is noted.
   */
  lemma SendAsksIffDue(s: State, dest: Address, payload: Payload, now: nat, id: U32)
    requires |payload| <= 192 && dest != s.addr && Way(s, dest).None?
    ensures var t, u := AfterSend(s, dest, s.addr, payload, now, id), Sought(s, dest, now);
            var seqNo := (s.seqNo + 1) % 0x1_0000_0000_0000_0000;
            t == if RequestDue(s, dest, now)
                 then u.(pendingRoutes := s.pendingRoutes[dest := NowParked(s, dest, payload)],
                         lastRreq := s.lastRreq[dest := now],
                         seqNo := seqNo,
                         reversePaths := s.reversePaths[id := ReverseEntry(dest, s.addr, 0)],
                         queue := u.queue + [Rreq(dest, s.addr, s.addr, id, seqNo % 0x1_0000_0000, 0, 10)])
                 else u.(pendingRoutes := s.pendingRoutes[dest := NowParked(s, dest, payload)])
  {
    SendSeeks(s, dest, now);
    SoughtTouches(s, dest, now);
    hide AfterTryEstablish, Sought;
  }

  /** So what such a send queues is the link requests and, if and only if one is due, one route request after them. */
  lemma RequestQueuedIffDue(s: State, dest: Address, payload: Payload, now: nat, id: U32)
    requires |payload| <= 192 && dest != s.addr && Way(s, dest).None?
    ensures AfterSend(s, dest, s.addr, payload, now, id).queue
            == s.queue + LinkRequests(s, dest, now)
               + if RequestDue(s, dest, now)
                 then [Rreq(dest, s.addr, s.addr, id, (s.seqNo + 1) % 0x1_0000_0000_0000_0000 % 0x1_0000_0000, 0, 10)]
                 else []
  {
    SendAsksIffDue(s, dest, payload, now, id);
    SoughtTouches(s, dest, now);
    hide AfterSend, Sought, RequestDue, LinkRequests, NowParked;
  }

  // ----- passing on -----

  /** A relay passes a packet on over the way, unless that leads back to the packet's source, and counts it if there is room. */
  lemma ForwardTakesTheWay(s: State, dest: Address, source: Address, payload: Payload, now: nat)
    requires Way(s, dest).Some? && (dest in s.links || Way(s, dest).value != source)
    ensures var t, peer := AfterForward(s, dest, source, payload, now), Way(s, dest).value;
            if |s.links[peer].pending| < 32
            then OnLink(s.(counters := s.counters.(forwarded := s.counters.forwarded + 1)), t, peer, PendingTx(dest, source, payload))
            else TurnedAway(s, t, peer)
  {
  }

  /** A packet whose route leads back to its source is dropped in silence. */
  lemma ForwardDropsReturning(s: State, dest: Address, source: Address, payload: Payload, now: nat)
    requires dest !in s.links && dest in s.routes && s.routes[dest].nextHop == source
    ensures AfterForward(s, dest, source, payload, now) == s
  {
  }

  /** A next hop without a link is asked for one, and the packet is dropped and counted. */
  lemma ForwardLacksLink(s: State, dest: Address, source: Address, payload: Payload, now: nat)
    requires Way(s, dest).None? && dest in s.routes && s.routes[dest].nextHop != source
    ensures var next := s.routes[dest].nextHop;
            AfterForward(s, dest, source, payload, now)
            == s.(counters := s.counters.(dropNoLink := s.counters.dropNoLink + 1),
                  neighbors := if LinkDue(s, next, now) then Asking(s, next, now) else s.neighbors,
                  queue := if LinkDue(s, next, now) then s.queue + [LinkFrame(Request, next, s.addr, s.addr)] else s.queue)
  {
    LinkAskedIffDue(s, s.routes[dest].nextHop, now);
    hide AfterTryEstablish, LinkDue;
  }

  /** Without link and route a neighbouring destination is asked for a link, and the packet is dropped and counted. */
  lemma ForwardLacksRoute(s: State, dest: Address, source: Address, payload: Payload, now: nat)
    requires dest !in s.links && dest !in s.routes
    ensures var asks := dest in s.neighbors && LinkDue(s, dest, now);
            AfterForward(s, dest, source, payload, now)
            == s.(counters := s.counters.(dropNoRoute := s.counters.dropNoRoute + 1),
                  neighbors := if asks then Asking(s, dest, now) else s.neighbors,
                  queue := if asks then s.queue + [LinkFrame(Request, dest, s.addr, s.addr)] else s.queue)
  {
    LinkAskedIffDue(s, dest, now);
    hide AfterTryEstablish, LinkDue;
  }

  // ----- frames -----

  /** A frame no link's key opens does nothing. */
  lemma UnopenedIgnored(s: State, f: Sealed, now: nat)
    requires forall p :: p in s.links ==> s.links[p].key != f.key
    ensures AfterSealed(s, f, now) == s
  {
  }

  /** An opened frame is handed out at its destination, and nothing else happens there; anywhere else it is passed on. */
  lemma OpenedHandedOut(s: State, f: Sealed, now: nat, p: Address)
    requires p in s.links && s.links[p].key == f.key
    ensures AfterSealed(s, f, now)
            == if f.dest == s.addr then s.(deliveries := s.deliveries + [Delivery(f.source, f.payload)])
               else AfterForward(s, f.dest, f.source, f.payload, now)
  {
    hide AfterForward;
  }

  lemma NonceBytes(my: Address, peer: Address, counter: nat)
    ensures LinkNonce(my, peer, counter).bytes
            == [counter % 256, counter / 0x100 % 256, counter / 0x1_0000 % 256, counter / 0x100_0000 % 256,
                counter / 0x1_0000_0000 % 256, counter / 0x100_0000_0000 % 256, counter / 0x1_0000_0000_0000 % 256,
                counter / 0x100_0000_0000_0000 % 256, 0, 0, 0, if my > peer then 128 else 0]
  {
    EightBytes(counter);
    hide LittleEndian;
  }

  lemma EightBytes(v: nat)
    ensures LittleEndian(v, 8)
            == [v % 256, v / 0x100 % 256, v / 0x1_0000 % 256, v / 0x100_0000 % 256, v / 0x1_0000_0000 % 256,
                v / 0x100_0000_0000 % 256, v / 0x1_0000_0000_0000 % 256, v / 0x100_0000_0000_0000 % 256]
  {
    hide LittleEndian;
    FourBytes(v, 4);
    FourBytes(v / 0x1_0000_0000, 0);
    NoBytes(v / 0x1_0000_0000 / 0x1_0000_0000);
  }

  lemma FourBytes(v: nat, n: nat)
    ensures LittleEndian(v, n + 4)
            == [v % 256, v / 0x100 % 256, v / 0x1_0000 % 256, v / 0x100_0000 % 256] + LittleEndian(v / 0x1_0000_0000, n)
  {
    hide LittleEndian;
    ByteThenRest(v, n + 4);
    ByteThenRest(v / 0x100, n + 3);
    ByteThenRest(v / 0x1_0000, n + 2);
    ByteThenRest(v / 0x100_0000, n + 1);
  }

  lemma NoBytes(v: nat)
    ensures LittleEndian(v, 0) == []
  {
  }

  lemma ByteThenRest(v: nat, n: nat)
    requires n > 0
    ensures LittleEndian(v, n) == [v % 256] + LittleEndian(v / 256, n - 1)
  {
  }

  /** The head of a queue is sealed if and only if it has at most 191 bytes; then, and only then, it leaves the queue and the counter moves. */
  lemma HeadSealedIffFits(s: State, peer: Address)
    requires peer in s.links && s.links[peer].pending != []
    ensures var info, head := s.links[peer], s.links[peer].pending[0];
            if |head.payload| <= 191
            then && SealedHead(s, peer) == Some(Sealed(info.key, LinkNonce(s.addr, peer, info.txCounter), head.dest, head.source, head.payload))
                 && AfterSeal(s, peer) == s.(links := s.links[peer := LinkInfo(info.key, info.txCounter + 1, info.pending[1..])])
            else SealedHead(s, peer) == None && AfterSeal(s, peer) == s
  {
    hide LinkNonce;
  }

  /** A data frame's text: the category, sixteen bytes of destination, sixteen of source, least significant first, and the payload. */
  lemma FrameLayout(m: Datagram)
    ensures Built(m).Some? <==> |m.payload| <= 191
    ensures Built(m).Some? ==> |Built(m).value| == 33 + |m.payload| && Built(m).value[0] == 3 && Built(m).value[33..] == m.payload
    ensures Built(m).Some? ==> forall i :: 0 <= i < 16 ==> Built(m).value[1 + i] == Digit(m.dest, i) && Built(m).value[17 + i] == Digit(m.source, i)
  {
    hide LittleEndian, Digit;
    forall i | 0 <= i < 16 ensures LittleEndian(m.dest, 16)[i] == Digit(m.dest, i) && LittleEndian(m.source, 16)[i] == Digit(m.source, i) {
      ByteIsDigit(m.dest, 16, i);
      ByteIsDigit(m.source, 16, i);
    }
  }

  /** Digit i of v to the base 256. */
  function Digit(v: nat, i: nat): nat {
    if i == 0 then v % 256 else Digit(v / 256, i - 1)
  }

  lemma {:induction false} ByteIsDigit(v: nat, n: nat, i: nat)
    requires i < n
    ensures LittleEndian(v, n)[i] == Digit(v, i)
  {
    if i > 0 { ByteIsDigit(v / 256, n - 1, i - 1); }
  }
}
