/**
 The mesh as a state machine: nodes, plus everything ever put on the air.  A step lets one node act on any
 frame ever sent, so loss, duplication, delay and reordering need no steps of their own.
 */
module Network {
  import opened Types
  import opened NodeModel

  datatype Message = Message(source: Address, dest: Address, payload: Payload)

  /** A data frame with the link it was sealed for and the counter it consumed. */
  datatype SealedEntry = SealedEntry(frame: Sealed, sender: Address, peer: Address, counter: nat)

  /** A time for every node and destination. */
  type Stamps = (Address, Address) -> nat

  /**
   `written(n, d)` is when node n's route to d last changed; `heard`, `submitted` and `accepted` record the
   broadcasts that got through, the payloads the applications handed in and the payloads handed out.
   */
  datatype Net = Net(
    nodes: map<Address, State>,
    air: set<Frame>,
    sealed: seq<SealedEntry>,
    clock: nat,
    written: Stamps,
    heard: set<(Frame, Address)>,
    submitted: set<Message>,
    accepted: set<Message>)

  datatype Event =
    | HearFrame(node: Address, frame: Frame, now: nat, order: seq<Address>)
    | HearAnnounce(node: Address, peer: Address, now: nat)
    | HearSealed(node: Address, index: nat, now: nat)
    | Submit(node: Address, dest: Address, payload: Payload, now: nat, id: U32)
    | Transmit(node: Address, peer: Address)

  ghost predicate Init(net: Net) {
    && (forall n :: n in net.nodes ==> net.nodes[n] == Fresh(n, net.nodes[n].targetPeers))
    && net.air == {} && net.sealed == [] && net.heard == {}
    && net.submitted == {} && net.accepted == {}
  }

  predicate Enabled(net: Net, ev: Event) {
    && ev.node in net.nodes
    && match ev
       case HearFrame(n, f, _, order) => f in net.air && NoDuplicates(order) && Elements(order) == net.nodes[n].pendingRoutes.Keys
       case HearAnnounce(_, peer, _) => peer in net.nodes
       case HearSealed(_, i, _) => i < |net.sealed|
       case Submit(_, _, _, _, _) => true
       case Transmit(n, peer) => peer in net.nodes[n].links && net.nodes[n].links[peer].pending != []
  }

  /** The acting node right after its handler ran, with what it queued still in it. */
  function Acted(net: Net, ev: Event): State
    requires Enabled(net, ev)
  {
    var s := net.nodes[ev.node];
    match ev
    case HearFrame(_, f, now, order) =>
      (match f
       case Rreq(_, _, _, _, _, _, _) => AfterRreq(s, f)
       case Rrep(_, _, _, _, _, _) => AfterRrep(s, f, now, order)
       case LinkFrame(_, _, _, _) => AfterLinkFrame(s, f, order))
    case HearAnnounce(_, peer, now) => AfterAnnounce(s, peer, now)
    case HearSealed(_, i, now) => AfterSealed(s, net.sealed[i].frame, now)
    case Submit(n, dest, payload, now, id) => AfterSend(s, dest, n, payload, now, id)
    case Transmit(_, peer) => AfterSeal(s, peer)
  }

  function NewlySealed(net: Net, ev: Event): seq<SealedEntry>
    requires Enabled(net, ev)
  {
    if ev.Transmit? && SealedHead(net.nodes[ev.node], ev.peer).Some? then
      [SealedEntry(SealedHead(net.nodes[ev.node], ev.peer).value, ev.node, ev.peer,
                   net.nodes[ev.node].links[ev.peer].txCounter)]
    else []
  }

  predicate RouteChanged(before: map<Address, RouteEntry>, after: map<Address, RouteEntry>, d: Address) {
    d in after && (d !in before || before[d] != after[d])
  }

  function Rewritten(written: Stamps, n: Address, before: map<Address, RouteEntry>, after: map<Address, RouteEntry>, clock: nat): Stamps {
    (k: Address, d: Address) => if k == n && RouteChanged(before, after, d) then clock else written(k, d)
  }

  function Settled(t: State): State { t.(queue := [], deliveries := []) }

  function Next(net: Net, ev: Event): Net
    requires Enabled(net, ev)
  {
    var n := ev.node;
    var s := net.nodes[n];
    var t := Acted(net, ev);
    Net(net.nodes[n := Settled(t)],
        net.air + Elements(t.queue),
        net.sealed + NewlySealed(net, ev),
        net.clock + 1,
        Rewritten(net.written, n, s.routes, t.routes, net.clock),
        if ev.HearFrame? then net.heard + {(ev.frame, n)} else net.heard,
        if ev.Submit? then net.submitted + {Message(n, ev.dest, ev.payload)} else net.submitted,
        net.accepted + (set d | d in t.deliveries :: Message(d.from, n, d.payload)))
  }

  /** Node n moved to `t` and what it queued went on the air. */
  ghost predicate Commits(net: Net, net': Net, n: Address, t: State) {
    && n in net.nodes
    && net'.nodes == net.nodes[n := Settled(t)]
    && net'.air == net.air + Elements(t.queue)
    && net'.written == Rewritten(net.written, n, net.nodes[n].routes, t.routes, net.clock)
    && net'.clock == net.clock + 1
  }

  lemma NextCommits(net: Net, ev: Event)
    requires Enabled(net, ev)
    ensures Commits(net, Next(net, ev), ev.node, Acted(net, ev))
  {
    hide Acted;
  }

  ghost predicate Step(a: Net, b: Net) {
    exists ev :: Enabled(a, ev) && b == Next(a, ev)
  }

  ghost predicate IsTrace(trace: seq<Net>) {
    && |trace| > 0
    && Init(trace[0])
    && forall i :: 0 <= i < |trace| - 1 ==> Step(trace[i], trace[i + 1])
  }

  /** Step t of the run is this event. */
  ghost predicate Happens(trace: seq<Net>, t: nat, ev: Event) {
    t + 1 < |trace| && Enabled(trace[t], ev) && trace[t + 1] == Next(trace[t], ev)
  }

  lemma SomethingHappens(trace: seq<Net>, t: nat) returns (ev: Event)
    requires IsTrace(trace) && t + 1 < |trace|
    ensures Happens(trace, t, ev)
  {
    assert Step(trace[t], trace[t + 1]);
    ev :| Enabled(trace[t], ev) && trace[t + 1] == Next(trace[t], ev);
  }

  /** Nodes sit under their own address and hold nothing unsent between steps. */
  ghost predicate WellFormed(net: Net) {
    forall n :: n in net.nodes ==> net.nodes[n].addr == n && net.nodes[n].queue == [] && net.nodes[n].deliveries == []
  }

  /** Request ids are never shared by requests for different destinations. */
  ghost predicate ConsistentIds(net: Net) {
    forall f, g :: f in net.air && g in net.air && f.Rreq? && g.Rreq? && f.id == g.id ==> f.dest == g.dest
  }

  /** Nothing ever leaves the air, and the set of nodes is fixed. */
  lemma {:induction false} AirGrows(trace: seq<Net>, i: nat, j: nat)
    requires IsTrace(trace) && i <= j < |trace|
    ensures trace[i].air <= trace[j].air && trace[i].nodes.Keys == trace[j].nodes.Keys
    decreases j
  {
    if i < j {
      AirGrows(trace, i, j - 1);
      assert Step(trace[j - 1], trace[j - 1 + 1]);
      var ev :| Enabled(trace[j - 1], ev) && trace[j] == Next(trace[j - 1], ev);
      NextCommits(trace[j - 1], ev);
    }
  }
}
