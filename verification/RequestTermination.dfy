/** A request flood dies out: every rebroadcast spends a unit of a potential that nothing ever refills. */
module RequestTermination {
  import opened Types
  import opened NodeModel
  import opened NodeFacts
  import opened Network
  import opened Effects
  import opened ReversePaths
  import opened ReplyProgress
  import opened Sums

  /** The cost a node still has to lose for this request; a node that never heard of it counts as costlier than any. */
  ghost function Potential(net: Net, id: U32, n: Address): nat {
    if Rev(net, id, n) then MinCost(net, id, n) else 0x1_0000
  }

  ghost function PotentialOf(net: Net, id: U32): Address -> nat {
    (n: Address) => Potential(net, id, n)
  }

  ghost function TotalPotential(net: Net, id: U32, nodes: set<Address>): nat {
    SumOver(PotentialOf(net, id), nodes)
  }

  /** In this step a node took up the request: the only way it is ever rebroadcast. */
  ghost predicate TakesUp(net: Net, net': Net, id: U32) {
    exists ev :: Enabled(net, ev) && net' == Next(net, ev) && TakesRreq(net, ev, Acted(net, ev)) && ev.frame.id == id
  }

  lemma TakeUpLowers(net: Net, ev: Event, n: Address)
    requires WellFormed(net) && Enabled(net, ev) && TakesRreq(net, ev, Acted(net, ev))
    ensures Potential(Next(net, ev), ev.frame.id, n) <= Potential(net, ev.frame.id, n) - (if n == ev.node then 1 else 0)
  {
    hide Acted, Next, RreqEffect;
    RreqEnters(net, ev);
  }

  lemma OthersNeverRaise(net: Net, ev: Event, id: U32, n: Address)
    requires WellFormed(net) && Enabled(net, ev)
    ensures Potential(Next(net, ev), id, n) <= Potential(net, id, n)
  {
    hide Acted, Next, RreqEffect, Initiated;
    if StartsRequest(net, ev, Acted(net, ev)) && ev.id == id {
      RequestEnters(net, ev);
    } else if TakesRreq(net, ev, Acted(net, ev)) && ev.frame.id == id {
      TakeUpLowers(net, ev, n);
    } else {
      UntouchedByOthers(net, ev, id);
    }
  }

  lemma StepSpends(net: Net, net': Net, id: U32)
    requires WellFormed(net) && Step(net, net')
    ensures TotalPotential(net', id, net.nodes.Keys) + (if TakesUp(net, net', id) then 1 else 0)
            <= TotalPotential(net, id, net.nodes.Keys)
  {
    hide Acted, Next, RreqEffect;
    var all := net.nodes.Keys;
    if TakesUp(net, net', id) {
      var ev :| Enabled(net, ev) && net' == Next(net, ev) && TakesRreq(net, ev, Acted(net, ev)) && ev.frame.id == id;
      var rest := all - {ev.node};
      SumSplits(PotentialOf(net, id), all, ev.node);
      SumSplits(PotentialOf(net', id), all, ev.node);
      forall n | n in all ensures Potential(net', id, n) <= Potential(net, id, n) - (if n == ev.node then 1 else 0) {
        TakeUpLowers(net, ev, n);
      }
      SumMonotone(PotentialOf(net', id), PotentialOf(net, id), rest);
    } else {
      var ev :| Enabled(net, ev) && net' == Next(net, ev);
      forall n | n in all ensures Potential(net', id, n) <= Potential(net, id, n) { OthersNeverRaise(net, ev, id, n); }
      SumMonotone(PotentialOf(net', id), PotentialOf(net, id), all);
    }
  }

  /** How often the request was taken up along a run. */
  ghost function TakeUps(trace: seq<Net>, id: U32): nat {
    if |trace| < 2 then 0
    else TakeUps(trace[..|trace| - 1], id) + (if TakesUp(trace[|trace| - 2], trace[|trace| - 1], id) then 1 else 0)
  }

  lemma {:induction false} TakeUpsSpend(trace: seq<Net>, id: U32)
    requires IsTrace(trace)
    ensures TakeUps(trace, id) + TotalPotential(trace[|trace| - 1], id, trace[0].nodes.Keys)
            <= TotalPotential(trace[0], id, trace[0].nodes.Keys)
    decreases |trace|
  {
    hide TakesUp, Step;
    if |trace| > 1 {
      var front := trace[..|trace| - 1];
      var last := |trace| - 1;
      assert IsTrace(front) by {
        forall i | 0 <= i < |front| - 1 ensures Step(front[i], front[i + 1]) { assert Step(trace[i], trace[i + 1]); }
      }
      TakeUpsSpend(front, id);
      FormThroughout(trace, last - 1);
      AirGrows(trace, 0, last - 1);
      assert Step(trace[last - 1], trace[last - 1 + 1]);
      StepSpends(trace[last - 1], trace[last], id);
    }
  }

  /** Over any run whatsoever, one id is taken up, and so rebroadcast, boundedly often. */
  lemma FloodTerminates(trace: seq<Net>, id: U32)
    requires IsTrace(trace)
    ensures TakeUps(trace, id) <= |trace[0].nodes| * 0x1_0000
  {
    TakeUpsSpend(trace, id);
    SumBounded(PotentialOf(trace[0], id), trace[0].nodes.Keys, 0x1_0000);
    assert |trace[0].nodes| == |trace[0].nodes.Keys|;
  }

  /**
   A RREQ from a node other than its originator is new on the air only in a step that takes the request up, is then
   the only one, and comes with a strict drop of its sender's cost to the cost it carries.
   */
  lemma RebroadcastMeansCheaper(net: Net, ev: Event, id: U32, q: Frame)
    requires WellFormed(net) && Enabled(net, ev)
    requires RreqFor(Next(net, ev), id, q) && q !in net.air && q.from != q.orig
    ensures TakesUp(net, Next(net, ev), id)
    ensures q.from == ev.node && Rev(Next(net, ev), id, ev.node) && q.cost == MinCost(Next(net, ev), id, ev.node)
    ensures Rev(net, id, ev.node) ==> q.cost < MinCost(net, id, ev.node)
    ensures forall q' :: RreqFor(Next(net, ev), id, q') && q' !in net.air ==> q' == q
  {
    hide Acted, Next, RreqEffect, Initiated;
    if StartsRequest(net, ev, Acted(net, ev)) && ev.id == id {
      RequestEnters(net, ev);
    } else if TakesRreq(net, ev, Acted(net, ev)) && ev.frame.id == id {
      RreqEnters(net, ev);
    } else {
      UntouchedByOthers(net, ev, id);
    }
  }
}
