/** Links: both ends of a link hold the same key, and nothing a node knows is ever lost. */
module Links {
  import opened Types
  import opened NodeModel
  import opened NodeFacts
  import opened Network
  import opened Effects
  import opened DataEffects

  function PairKey(a: Address, b: Address): LinkKey {
    DeriveLinkKey(Ecdh(a, b), a, b)
  }

  /** Both endpoints derive one key, and no other pair of nodes derives it. */
  lemma PairKeyIdentifiesPair(a: Address, b: Address, c: Address, d: Address)
    ensures PairKey(a, b) == PairKey(c, d) <==> {a, b} == {c, d}
  {
    if {a, b} == {c, d} {
      assert a in {c, d} && b in {c, d} && c in {a, b} && d in {a, b};
    }
  }

  ghost predicate LinksKeyed(net: Net) {
    forall n, p :: n in net.nodes && p in net.nodes[n].links ==>
      p in net.nodes && p != n && net.nodes[n].links[p].key == PairKey(n, p)
  }

  ghost predicate LinkFramesHonest(net: Net) {
    forall f :: f in net.air && f.LinkFrame? ==> f.from in net.nodes && f.xchg == f.from
  }

  ghost predicate LinkInv(net: Net) {
    WellFormed(net) && LinksKeyed(net) && LinkFramesHonest(net)
  }

  lemma LinkFramesStayHonest(net: Net, ev: Event)
    requires WellFormed(net) && LinkFramesHonest(net) && Enabled(net, ev)
    ensures LinkFramesHonest(Next(net, ev)) && WellFormed(Next(net, ev))
  {
    hide Acted, Next;
    NextCommits(net, ev);
    Classify(net, ev);
  }

  lemma LinksStayKeyed(net: Net, ev: Event)
    requires LinkInv(net) && Enabled(net, ev)
    ensures LinksKeyed(Next(net, ev))
  {
    hide Acted, Next;
    NextCommits(net, ev);
    LinksOfEvent(net, ev);
  }

  lemma StepKeepsLinkInv(net: Net, net': Net)
    requires LinkInv(net) && Step(net, net')
    ensures LinkInv(net')
  {
    hide Acted, Next, WellFormed, LinksKeyed, LinkFramesHonest;
    var ev :| Enabled(net, ev) && net' == Next(net, ev);
    LinkFramesStayHonest(net, ev);
    LinksStayKeyed(net, ev);
  }

  /** Nodes stay, and routes, links and reverse paths are never removed. */
  ghost predicate Grows(net: Net, net': Net) {
    && net'.nodes.Keys == net.nodes.Keys
    && net.air <= net'.air
    && forall n :: n in net.nodes ==>
         && net.nodes[n].routes.Keys <= net'.nodes[n].routes.Keys
         && net.nodes[n].links.Keys <= net'.nodes[n].links.Keys
         && net.nodes[n].reversePaths.Keys <= net'.nodes[n].reversePaths.Keys
  }

  lemma NodeGrows(net: Net, ev: Event)
    requires WellFormed(net) && Enabled(net, ev)
    ensures var s, t := net.nodes[ev.node], Acted(net, ev);
            s.routes.Keys <= t.routes.Keys && s.links.Keys <= t.links.Keys && s.reversePaths.Keys <= t.reversePaths.Keys
  {
    hide Acted;
    Classify(net, ev);
    LinksOfEvent(net, ev);
  }

  lemma StepGrows(net: Net, net': Net)
    requires WellFormed(net) && Step(net, net')
    ensures Grows(net, net')
  {
    hide Acted, Next;
    var ev :| Enabled(net, ev) && net' == Next(net, ev);
    NextCommits(net, ev);
    NodeGrows(net, ev);
  }
}
