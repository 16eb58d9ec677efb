/** The four ways an event can bear on routing, with what each leaves in the tables and on the air. */
module Effects {
  import opened Types
  import opened NodeModel
  import opened NodeFacts
  import opened Network

  /** The handler touched no table, and queued only frames that need no backing. */
  ghost predicate QuietEffect(s: State, t: State) {
    SameRouting(s, t) && OnlyLinkFrames(s, t)
  }

  function RreqAnswer(s: State, m: Frame): Frame
    requires m.Rreq?
  {
    Rrep(m.from, s.addr, m.orig, m.id, Truncate(s.seqNo), SatAdd(0, HopCost(s)))
  }

  function RreqOnward(s: State, m: Frame): Frame
    requires m.Rreq? && m.radius > 0
  {
    m.(from := s.addr, cost := SatAdd(m.cost, HopCost(s)), radius := m.radius - 1)
  }

  /** A useful RREQ: the tables it leaves and the one frame it may queue. */
  ghost predicate RreqEffect(s: State, t: State, m: Frame)
    requires m.Rreq?
  {
    var cost := SatAdd(m.cost, HopCost(s));
    && t.addr == s.addr
    && t.routes == Upsert(s.routes, m.orig, RouteEntry(m.from, cost, m.origSeq))
    && t.reversePaths == s.reversePaths[m.id := ReverseEntry(if m.id in s.reversePaths then s.reversePaths[m.id].dest else m.dest, m.from, cost)]
    && (m.dest == s.addr ==> RreqAnswer(s, m) in t.queue)
    && (m.dest != s.addr && m.radius > 0 ==> RreqOnward(s, m) in t.queue)
    && forall f :: f in t.queue && f !in s.queue ==>
         (m.dest == s.addr && f == RreqAnswer(s, m))
         || (m.dest != s.addr && m.radius > 0 && f == RreqOnward(s, m))
  }

  lemma RreqHasEffect(s: State, m: Frame)
    requires m.Rreq? && RreqUseful(s, m)
    ensures RreqEffect(s, AfterRreq(s, m), m)
  {
  }

  /** An accepted RREP: the table it leaves and the one routing frame it may queue. */
  ghost predicate RrepEffect(s: State, t: State, m: Frame)
    requires m.Rrep? && RrepAccepted(s, m)
  {
    && t.addr == s.addr && t.routes == RrepRoutes(s, m) && t.reversePaths == s.reversePaths
    && (RrepForwarded(s, m) ==> RrepOnward(s, m) in t.queue)
    && forall f :: f in t.queue && f !in s.queue ==> OwnLinkFrame(s, f) || (RrepForwarded(s, m) && f == RrepOnward(s, m))
  }

  lemma RrepHasEffect(s: State, m: Frame, now: nat, order: seq<Address>)
    requires m.Rrep? && RrepAccepted(s, m)
    ensures RrepEffect(s, AfterRrep(s, m, now, order), m)
  {
    hide AfterRrep;
    RrepTables(s, m, now, order);
    RrepFrames(s, m, now, order);
  }

  ghost predicate StartsRequest(net: Net, ev: Event, t: State)
    requires Enabled(net, ev)
  {
    ev.Submit? && Initiated(net.nodes[ev.node], t, ev.dest, ev.id)
  }

  ghost predicate TakesRreq(net: Net, ev: Event, t: State)
    requires Enabled(net, ev)
  {
    ev.HearFrame? && ev.frame.Rreq? && RreqUseful(net.nodes[ev.node], ev.frame) && RreqEffect(net.nodes[ev.node], t, ev.frame)
  }

  ghost predicate TakesRrep(net: Net, ev: Event, t: State)
    requires Enabled(net, ev)
  {
    ev.HearFrame? && ev.frame.Rrep? && RrepAccepted(net.nodes[ev.node], ev.frame) && RrepEffect(net.nodes[ev.node], t, ev.frame)
  }

  /** Apart from what follows, a call leaves both tables alone and queues link frames only. */
  lemma OtherwiseQuiet(net: Net, ev: Event)
    requires WellFormed(net) && Enabled(net, ev)
    requires ev.HearFrame? && ev.frame.Rreq? ==> !RreqUseful(net.nodes[ev.node], ev.frame)
    requires ev.HearFrame? && ev.frame.Rrep? ==> !RrepAccepted(net.nodes[ev.node], ev.frame)
    requires ev.Submit? ==> !Initiated(net.nodes[ev.node], Acted(net, ev), ev.dest, ev.id)
    ensures QuietEffect(net.nodes[ev.node], Acted(net, ev))
  {
    hide AfterTryEstablish, AfterFlush, AfterLinkFrame, AfterSend, AfterForward, AfterAnnounce;
    var s := net.nodes[ev.node];
    match ev
    case HearFrame(_, f, now, order) => if f.LinkFrame? { LinkFrameTables(s, f, order); }
    case HearAnnounce(_, peer, now) => AnnounceFacts(s, peer, now);
    case HearSealed(_, i, now) =>
      var f := net.sealed[i].frame;
      ForwardTables(s, f.dest, f.source, f.payload, now);
    case Submit(n, dest, payload, now, id) => SendFacts(s, dest, payload, now, id);
    case Transmit(_, peer) =>
  }

  /** Every event starts a request, takes a useful RREQ, takes an RREP, or leaves routing alone. */
  lemma Classify(net: Net, ev: Event)
    requires WellFormed(net) && Enabled(net, ev)
    ensures var t := Acted(net, ev);
            StartsRequest(net, ev, t) || TakesRreq(net, ev, t) || TakesRrep(net, ev, t) || QuietEffect(net.nodes[ev.node], t)
  {
    hide AfterRreq, AfterRrep, AfterSend;
    var s := net.nodes[ev.node];
    if ev.HearFrame? && ev.frame.Rreq? && RreqUseful(s, ev.frame) {
      RreqHasEffect(s, ev.frame);
    } else if ev.HearFrame? && ev.frame.Rrep? && RrepAccepted(s, ev.frame) {
      RrepHasEffect(s, ev.frame, ev.now, ev.order);
    } else if !StartsRequest(net, ev, Acted(net, ev)) {
      OtherwiseQuiet(net, ev);
    }
  }

  lemma FormStays(net: Net, ev: Event)
    requires WellFormed(net) && Enabled(net, ev)
    ensures WellFormed(Next(net, ev))
  {
    hide Acted, Next;
    NextCommits(net, ev);
    Classify(net, ev);
  }

  lemma FormThroughout(trace: seq<Net>, i: nat)
    requires IsTrace(trace) && i < |trace|
    ensures WellFormed(trace[i])
    decreases i
  {
    if i > 0 {
      FormThroughout(trace, i - 1);
      assert Step(trace[i - 1], trace[i - 1 + 1]);
      var ev :| Enabled(trace[i - 1], ev) && trace[i] == Next(trace[i - 1], ev);
      FormStays(trace[i - 1], ev);
    }
  }
}
