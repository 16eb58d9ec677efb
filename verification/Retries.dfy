/** How often a node asks for a destination: in every run its requests keep their distance. */
module Retries {
  import opened Types
  import opened NodeModel
  import opened Network
  import opened Effects
  import opened RouteHandlers
  import opened RelayHandlers

  /** Neither the times of requests nor the sequence number are touched. */
  ghost predicate SameRequests(s: State, t: State) {
    t.lastRreq == s.lastRreq && t.seqNo == s.seqNo
  }

  /** In this call the application's payload for d sends a request out. */
  ghost predicate AsksFor(net: Net, ev: Event, d: Address)
    requires Enabled(net, ev)
  {
    ev.Submit? && ev.dest == d && exists f :: f in Acted(net, ev).queue && f.Rreq?
  }

  // ----- handler by handler -----

  lemma RreqKeepsRequests(s: State, m: Frame)
    requires m.Rreq?
    ensures SameRequests(s, AfterRreq(s, m))
  {
    if m.from == s.addr || m.orig == s.addr { OwnRequestIgnored(s, m); } else { RequestTouches(s, m); }
    hide AfterRreq;
  }

  lemma RrepKeepsRequests(s: State, m: Frame, now: nat, order: seq<Address>)
    requires m.Rrep? && NoDuplicates(order) && Elements(order) == s.pendingRoutes.Keys
    ensures SameRequests(s, AfterRrep(s, m, now, order))
  {
    if !ReplyCounts(s, m) { ReplyIgnored(s, m, now, order); }
    else if m.to != s.addr { ReplyCosts(s, m, now, order); }
    else if m.orig != s.addr { ReplyGoesOn(s, m, now, order); }
    else { ReplyReleases(s, m, now, order); }
    hide AfterRrep;
  }

  lemma LinkFrameKeepsRequests(s: State, m: Frame, order: seq<Address>)
    requires m.LinkFrame? && NoDuplicates(order) && Elements(order) == s.pendingRoutes.Keys
    ensures SameRequests(s, AfterLinkFrame(s, m, order))
  {
    if m.to != s.addr || m.from == s.addr { LinkFrameIgnored(s, m, order); } else { LinkFrameInstalls(s, m, order); }
    hide AfterLinkFrame;
  }

  lemma ForwardKeepsRequests(s: State, dest: Address, source: Address, payload: Payload, now: nat)
    ensures SameRequests(s, AfterForward(s, dest, source, payload, now))
  {
    if dest !in s.links && dest !in s.routes { ForwardLacksRoute(s, dest, source, payload, now); }
    else if dest !in s.links && s.routes[dest].nextHop == source { ForwardDropsReturning(s, dest, source, payload, now); }
    else if Way(s, dest).None? { ForwardLacksLink(s, dest, source, payload, now); }
    else { ForwardTakesTheWay(s, dest, source, payload, now); }
    hide AfterForward;
  }

  lemma AsksIffDue(s: State, dest: Address, payload: Payload, now: nat, id: U32)
    requires s.queue == [] && |payload| <= 192 && dest != s.addr && Way(s, dest).None?
    ensures (exists f :: f in AfterSend(s, dest, s.addr, payload, now, id).queue && f.Rreq?) <==> RequestDue(s, dest, now)
  {
    var queue := AfterSend(s, dest, s.addr, payload, now, id).queue;
    RequestQueuedIffDue(s, dest, payload, now, id);
    hide AfterSend, RequestDue, LinkRequests;
    if RequestDue(s, dest, now) { assert queue[|queue| - 1].Rreq?; }
  }

  /** A call to send asks exactly if a request is due, and then notes the time under its destination and takes the next number. */
  lemma SendRequests(s: State, dest: Address, payload: Payload, now: nat, id: U32)
    requires s.queue == []
    ensures var t := AfterSend(s, dest, s.addr, payload, now, id);
            if exists f :: f in t.queue && f.Rreq?
            then RequestDue(s, dest, now) && t.lastRreq == s.lastRreq[dest := now] && t.seqNo == (s.seqNo + 1) % 0x1_0000_0000_0000_0000
            else SameRequests(s, t)
  {
    if |payload| > 192 || dest == s.addr {
      SendRefuses(s, dest, s.addr, payload, now, id);
    } else if Way(s, dest).Some? {
      SendTakesTheWay(s, dest, s.addr, payload, now, id);
    } else {
      SendAsksIffDue(s, dest, payload, now, id);
      SoughtTouches(s, dest, now);
      AsksIffDue(s, dest, payload, now, id);
    }
    hide AfterSend, Sought, RequestDue, LinkRequests, Way, NowParked;
  }

  /** Only a request moves the times and the number. */
  lemma EventRequests(net: Net, ev: Event)
    requires WellFormed(net) && Enabled(net, ev)
    ensures var s, t := net.nodes[ev.node], Acted(net, ev);
            if ev.Submit? && AsksFor(net, ev, ev.dest)
            then RequestDue(s, ev.dest, ev.now) && t.lastRreq == s.lastRreq[ev.dest := ev.now]
                 && t.seqNo == (s.seqNo + 1) % 0x1_0000_0000_0000_0000
            else SameRequests(s, t)
  {
    hide AfterLinkFrame, AfterSend, AfterForward, AfterAnnounce, AfterRreq, AfterRrep, RequestDue;
    var s := net.nodes[ev.node];
    match ev
    case HearFrame(_, f, now, order) =>
      if f.LinkFrame? { LinkFrameKeepsRequests(s, f, order); }
      else if f.Rrep? { RrepKeepsRequests(s, f, now, order); }
      else { RreqKeepsRequests(s, f); }
    case HearAnnounce(_, peer, now) => AnnounceAsksTargets(s, peer, now);
    case HearSealed(_, i, now) =>
      var f := net.sealed[i].frame;
      ForwardKeepsRequests(s, f.dest, f.source, f.payload, now);
    case Submit(n, dest, payload, now, id) => SendRequests(s, dest, payload, now, id);
    case Transmit(_, peer) => HeadSealedIffFits(s, peer);
  }

  // ----- over whole runs -----

  /** A request for d was made at this time, or a later one twenty seconds on. */
  ghost predicate NotedSince(net: Net, n: Address, d: Address, since: nat) {
    n in net.nodes && d in net.nodes[n].lastRreq && net.nodes[n].lastRreq[d] >= since
  }

  lemma StepKeepsNoted(net: Net, ev: Event, n: Address, d: Address, since: nat)
    requires WellFormed(net) && Enabled(net, ev) && NotedSince(net, n, d, since)
    ensures NotedSince(Next(net, ev), n, d, since)
  {
    EventRequests(net, ev);
    NextCommits(net, ev);
    hide Acted, Next, AsksFor;
  }

  lemma {:induction false} NotedFromThenOn(trace: seq<Net>, i: nat, j: nat, n: Address, d: Address, since: nat)
    requires IsTrace(trace) && i <= j < |trace| && NotedSince(trace[i], n, d, since)
    ensures NotedSince(trace[j], n, d, since)
    decreases j
  {
    hide NotedSince, Next, Enabled;
    if i < j {
      NotedFromThenOn(trace, i, j - 1, n, d, since);
      FormThroughout(trace, j - 1);
      var ev := SomethingHappens(trace, j - 1);
      StepKeepsNoted(trace[j - 1], ev, n, d, since);
    }
  }

  lemma RequestIsNoted(net: Net, ev: Event, d: Address)
    requires WellFormed(net) && Enabled(net, ev) && AsksFor(net, ev, d)
    ensures NotedSince(Next(net, ev), ev.node, d, ev.now) && RequestDue(net.nodes[ev.node], d, ev.now)
  {
    EventRequests(net, ev);
    NextCommits(net, ev);
    hide Acted, Next;
  }

  /** Main result: in every run, of two requests of a node for one destination the later is at least twenty seconds after the earlier. */
  lemma RequestsKeepTheirDistance(trace: seq<Net>, t: nat, ev: Event, u: nat, ev': Event, d: Address)
    requires IsTrace(trace) && t < u && Happens(trace, t, ev) && Happens(trace, u, ev')
    requires AsksFor(trace[t], ev, d) && AsksFor(trace[u], ev', d) && ev.node == ev'.node
    ensures ev'.now >= ev.now + 20_000_000_000
  {
    FormThroughout(trace, t);
    FormThroughout(trace, u);
    hide IsTrace, Next, AsksFor;
    RequestIsNoted(trace[t], ev, d);
    NotedFromThenOn(trace, t + 1, u, ev.node, d, ev.now);
    RequestIsNoted(trace[u], ev', d);
  }
}
