/** What every node of the flood baseline keeps to in every run and every mode. */
module FloodRuns {
  import opened Types
  import opened DuplicateCache
  import opened Mpr
  import opened FloodModel
  import opened FloodNet
  import opened FloodBound

  /** Every rebroadcast ever armed was sent, was suppressed or is still pending. */
  ghost predicate AccountsBalance(s: State) {
    s.scheduled == s.forwarded + s.suppressed + |s.pending|
  }

  /** A node is never its own neighbour, and its relays are neighbours. */
  ghost predicate RelaysAreNeighbours(s: State) {
    s.myId !in s.neighbours && s.mprSet <= s.neighbours.Keys
  }

  ghost predicate CacheFitsIn(s: State) {
    NoDuplicates(s.recent) && |s.recent| <= RECENT_CACHE_CAP
  }

  ghost predicate Healthy(s: State) {
    AccountsBalance(s) && RelaysAreNeighbours(s) && CacheFitsIn(s) && HonestCounts(s.neighbours)
  }

  lemma MapShrinks<T>(m: map<Key, T>, k: Key)
    requires k in m
    ensures |m - {k}| == |m| - 1
  {
    assert (m - {k}).Keys == m.Keys - {k};
    assert |m - {k}| == |(m - {k}).Keys| && |m| == |m.Keys|;
  }

  lemma MapGrows<T>(m: map<Key, T>, k: Key, t: T)
    requires k !in m
    ensures |m[k := t]| == |m| + 1
  {
    assert m[k := t].Keys == m.Keys + {k};
    assert |m[k := t]| == |m[k := t].Keys| && |m| == |m.Keys|;
  }

  lemma NoteHeardHealthy(s: State, id: Address, at: int)
    requires Healthy(s)
    ensures Healthy(NoteHeard(s, id, at))
  {
    assert HonestCounts(NoteHeard(s, id, at).neighbours) by {
      forall k | k in NoteHeard(s, id, at).neighbours ensures NoDuplicates(NoteHeard(s, id, at).neighbours[k].n1) {}
    }
  }

  lemma AcceptedHealthy(s: State, p: Packet)
    requires Healthy(s) && p.key !in s.pending
    ensures Healthy(Accepted(s, p))
  {
    hide Remembered, HonestCounts, SenderElectedUs;
    RememberedFits(s.recent, p.key);
    MapGrows(s.pending, p.key, Timer(p.key, if p.hop > 0 then p.hop - 1 else 0, p.dst, p.payload, p.txTime));
  }

  lemma PacketHealthy(s: State, p: Packet, at: int)
    requires Healthy(s)
    ensures Healthy(AfterPacket(s, p, at))
  {
    hide Remembered, HonestCounts, NoteHeard, Accepted;
    var h := if s.mode == Elected then NoteHeard(s, p.lastHop, at) else s;
    NoteHeardHealthy(s, p.lastHop, at);
    RememberedFits(h.recent, p.key);
    if p.key in h.pending {
      MapShrinks(h.pending, p.key);
    } else if p.key !in h.recent {
      AcceptedHealthy(h, p);
    }
  }

  lemma FireHealthy(s: State, k: Key)
    requires Healthy(s) && k in s.pending
    ensures Healthy(AfterFire(s, k))
  {
    hide HonestCounts;
    MapShrinks(s.pending, k);
  }

  lemma OriginateHealthy(s: State)
    requires Healthy(s)
    ensures Healthy(AfterOriginate(s))
  {
    hide Remembered, HonestCounts;
    RememberedFits(s.recent, Key(s.myId, s.nextPacketId));
  }

  lemma ReelectedHealthy(s: State, at: int, picks: seq<Address>)
    requires Healthy(s) && IsElection(s.myId, Pruned(s, at), picks)
    ensures Healthy(Reelected(s, at, picks))
  {
    hide IsElection;
    var t := Reelected(s, at, picks);
    forall k | k in t.neighbours ensures NoDuplicates(t.neighbours[k].n1) {
      assert t.neighbours[k] == s.neighbours[k];
    }
    ElectionCovers(s.myId, t.neighbours, picks);
  }

  lemma LearnedHealthy(s: State, h: Hello, at: int)
    requires Healthy(s) && h.src != s.myId && NoDuplicates(h.n1)
    ensures Healthy(Learned(s, h, at))
  {
    forall k | k in Learned(s, h, at).neighbours ensures NoDuplicates(Learned(s, h, at).neighbours[k].n1) {}
  }

  /** Every node is healthy, and every HELLO on the air lists each neighbour once. */
  ghost predicate AllHealthy(net: Net) {
    && (forall v :: v in net.nodes ==> Healthy(net.nodes[v]))
    && forall h :: h in net.hellos ==> NoDuplicates(h.n1)
  }

  lemma ActedHealthy(net: Net, ev: Event)
    requires Enabled(net, ev) && WellFormed(net) && AllHealthy(net)
    ensures Healthy(Acted(net, ev))
  {
    hide Healthy, AfterPacket, IsElection, Learned, AfterOriginate, AfterFire, IsHelloOf, Reelected;
    var s := net.nodes[ev.node];
    match ev
    case Start(_, _, _, _) => OriginateHealthy(s);
    case Receive(_, i, at) => PacketHealthy(s, net.sent[i].packet, at);
    case Fire(_, k) => FireHealthy(s, k);
    case Announce(_, _, at, picks) =>
      ReelectionMeans(s, at, picks);
      ReelectedHealthy(s, at, picks);
    case HearHello(_, h, at, picks) =>
      if h.src != s.myId {
        LearnedHealthy(s, h, at);
        ReelectionMeans(Learned(s, h, at), at, picks);
        LearnKeepsId(s, h, at);
        ReelectedHealthy(Learned(s, h, at), at, picks);
      }
  }

  lemma LearnKeepsId(s: State, h: Hello, at: int)
    ensures Learned(s, h, at).myId == s.myId
  {
  }

  lemma ReelectionMeans(s: State, at: int, picks: seq<Address>)
    ensures Reelected(s, at, picks).neighbours == Pruned(s, at) && Reelected(s, at, picks).mprSet == Elements(picks)
  {
  }

  lemma StepKeepsHealthy(net: Net, ev: Event)
    requires Enabled(net, ev) && WellFormed(net) && AllHealthy(net)
    ensures AllHealthy(Next(net, ev))
  {
    hide Healthy, Acted, IsElection, Channel;
    ActedHealthy(net, ev);
    forall h | h in Next(net, ev).hellos ensures NoDuplicates(h.n1) {
      if h !in net.hellos { assert IsHelloOf(Acted(net, ev), h); }
    }
  }

  /** In every reachable state the accounts balance, the caches fit and the relays are neighbours. */
  lemma {:induction false} HealthyThroughout(trace: seq<Net>, i: nat)
    requires IsTrace(trace) && i < |trace|
    ensures WellFormed(trace[i]) && AllHealthy(trace[i])
  {
    if i > 0 {
      HealthyThroughout(trace, i - 1);
      hide Next, AllHealthy, WellFormed, Init, Enabled;
      assert Step(trace[i - 1], trace[i - 1 + 1]);
      var ev :| Enabled(trace[i - 1], ev) && trace[i] == Next(trace[i - 1], ev);
      StepKeepsForm(trace[i - 1], ev);
      StepKeepsHealthy(trace[i - 1], ev);
    }
  }

  /** The relays a node settled on in this step. */
  ghost predicate Elects(net: Net, ev: Event) {
    Enabled(net, ev) && (ev.Announce? || (ev.HearHello? && ev.hello.src != ev.node))
  }

  /**
   Main result: whenever a node elects relays, in any run, they cover its strict two-hop set, and number at most k * log2
   of its size if some k neighbours cover it.
   */
  lemma ElectionsAreNearOptimal(trace: seq<Net>, i: nat, ev: Event, relays: set<Address>)
    requires IsTrace(trace) && i < |trace| && Elects(trace[i], ev)
    requires IsCover(Acted(trace[i], ev).neighbours, relays, TwoHop(ev.node, Acted(trace[i], ev).neighbours))
    ensures Acted(trace[i], ev).mprSet == Elements(ev.picks)
    ensures forall x :: x in TwoHop(ev.node, Acted(trace[i], ev).neighbours) ==>
              Reaches(Acted(trace[i], ev).neighbours, Acted(trace[i], ev).mprSet, x)
    ensures |Acted(trace[i], ev).mprSet| <= |relays| * Bits(|TwoHop(ev.node, Acted(trace[i], ev).neighbours)|)
  {
    hide IsElection, TwoHop, IsCover, Bits, HonestCounts, WellFormed;
    HealthyThroughout(trace, i);
    ActedHealthy(trace[i], ev);
    ElectionIs(trace[i], ev);
    ElectionNearOptimal(ev.node, Acted(trace[i], ev).neighbours, ev.picks, relays);
    ElectionCovers(ev.node, Acted(trace[i], ev).neighbours, ev.picks);
    CountOnce(ev.picks);
  }

  lemma ElectionIs(net: Net, ev: Event)
    requires WellFormed(net) && Elects(net, ev)
    ensures Acted(net, ev).mprSet == Elements(ev.picks) && IsElection(ev.node, Acted(net, ev).neighbours, ev.picks)
  {
    hide IsElection, Stale;
  }

  lemma {:induction false} CountOnce(picks: seq<Address>)
    requires NoDuplicates(picks)
    ensures |Elements(picks)| == |picks|
  {
    if picks != [] {
      var front, last := picks[..|picks| - 1], picks[|picks| - 1];
      CountOnce(front);
      assert picks == front + [last];
      assert Elements(picks) == Elements(front) + {last} && last !in front;
    } else {
      assert Elements(picks) == {};
    }
  }
}
