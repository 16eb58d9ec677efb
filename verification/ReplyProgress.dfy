/** What the reverse-path tree gives over whole runs: paths back to the originator, and bounds on costs. */
module ReplyProgress {
  import opened Types
  import opened NodeModel
  import opened NodeFacts
  import opened Network
  import opened Effects
  import opened Links
  import opened ReversePaths
  import opened ReverseTree

  /** One request id, used by one originator for one destination, with hop costs small enough not to saturate. */
  ghost predicate CleanRequest(trace: seq<Net>, id: U32, o: Address, d: Address, m: nat) {
    && IsTrace(trace)
    && BelongsTo(trace[|trace| - 1], id, o, d)
    && HopCostsWithin(trace[|trace| - 1], m)
    && HopBudget(ROUTE_RADIUS + 1, m) <= MAX_COST
  }

  lemma {:induction false} TraceGrows(trace: seq<Net>, i: nat, j: nat)
    requires IsTrace(trace) && i <= j < |trace|
    ensures Grows(trace[i], trace[j])
    decreases j
  {
    hide Step;
    if i < j {
      TraceGrows(trace, i, j - 1);
      FormThroughout(trace, j - 1);
      assert Step(trace[j - 1], trace[j - 1 + 1]);
      StepGrows(trace[j - 1], trace[j]);
    }
  }

  lemma CleanEarlier(trace: seq<Net>, id: U32, o: Address, d: Address, m: nat, i: nat)
    requires CleanRequest(trace, id, o, d, m) && i < |trace|
    ensures BelongsTo(trace[i], id, o, d) && HopCostsWithin(trace[i], m)
  {
    var last := trace[|trace| - 1];
    TraceGrows(trace, i, |trace| - 1);
    forall q | RreqFor(trace[i], id, q) ensures q.orig == o && q.dest == d { assert RreqFor(last, id, q); }
    forall n | n in trace[i].nodes ensures 1 + |trace[i].nodes[n].links| <= m {
      SubsetSize(trace[i].nodes[n].links.Keys, last.nodes[n].links.Keys);
      assert |trace[i].nodes[n].links| == |trace[i].nodes[n].links.Keys|;
      assert |last.nodes[n].links| == |last.nodes[n].links.Keys|;
    }
  }

  lemma TreeAtStart(net: Net, id: U32, o: Address, d: Address, m: nat)
    requires Init(net)
    ensures TreeInv(net, id, o, d, m)
  {
  }

  lemma {:induction false} TreeThroughout(trace: seq<Net>, id: U32, o: Address, d: Address, m: nat, i: nat)
    requires CleanRequest(trace, id, o, d, m) && i < |trace|
    ensures TreeInv(trace[i], id, o, d, m)
    decreases i
  {
    hide TreeInv, Init, Step, BelongsTo, HopCostsWithin;
    if i == 0 {
      TreeAtStart(trace[0], id, o, d, m);
    } else {
      TreeThroughout(trace, id, o, d, m, i - 1);
      CleanEarlier(trace, id, o, d, m, i - 1);
      CleanEarlier(trace, id, o, d, m, i);
      assert Step(trace[i - 1], trace[i - 1 + 1]);
      StepKeepsTree(trace[i - 1], trace[i], id, o, d, m);
    }
  }

  lemma {:induction false} CostsOnlyFall(trace: seq<Net>, id: U32, o: Address, d: Address, m: nat, i: nat, j: nat, n: Address)
    requires CleanRequest(trace, id, o, d, m) && i <= j < |trace| && Rev(trace[i], id, n)
    ensures Rev(trace[j], id, n) && MinCost(trace[j], id, n) <= MinCost(trace[i], id, n)
    decreases j
  {
    hide TreeInv, Step, BelongsTo, HopCostsWithin;
    if i < j {
      CostsOnlyFall(trace, id, o, d, m, i, j - 1, n);
      TreeThroughout(trace, id, o, d, m, j - 1);
      CleanEarlier(trace, id, o, d, m, j - 1);
      CleanEarlier(trace, id, o, d, m, j);
      assert Step(trace[j - 1], trace[j - 1 + 1]);
      StepKeepsTree(trace[j - 1], trace[j], id, o, d, m);
    }
  }

  /** A path along `prev_hop` pointers. */
  ghost predicate IsReversePath(net: Net, id: U32, p: seq<Address>) {
    && |p| > 0
    && (forall i :: 0 <= i < |p| ==> Rev(net, id, p[i]))
    && (forall i :: 0 <= i < |p| - 1 ==> RevEntry(net, id, p[i]).prevHop == p[i + 1])
  }

  ghost predicate StrictlyCheaper(net: Net, id: U32, p: seq<Address>)
    requires IsReversePath(net, id, p)
  {
    forall i, j :: 0 <= i < j < |p| ==> MinCost(net, id, p[j]) < MinCost(net, id, p[i])
  }

  lemma RevFact(net: Net, id: U32, o: Address, d: Address, m: nat, n: Address)
    requires TreeInv(net, id, o, d, m) && Rev(net, id, n)
    ensures RevOk(net, id, o, d, m, n)
  {
    hide RevOk;
  }

  lemma CheaperExtended(net: Net, id: U32, n: Address, rest: seq<Address>)
    requires Rev(net, id, n) && IsReversePath(net, id, rest) && StrictlyCheaper(net, id, rest)
    requires RevEntry(net, id, n).prevHop == rest[0] && MinCost(net, id, rest[0]) < MinCost(net, id, n)
    ensures IsReversePath(net, id, [n] + rest) && StrictlyCheaper(net, id, [n] + rest)
  {
    var p := [n] + rest;
    forall i, j | 0 <= i < j < |p| ensures MinCost(net, id, p[j]) < MinCost(net, id, p[i]) {
      if i == 0 && j > 1 { assert MinCost(net, id, rest[j - 1]) < MinCost(net, id, rest[0]); }
      if i > 0 { assert MinCost(net, id, rest[j - 1]) < MinCost(net, id, rest[i - 1]); }
    }
  }

  lemma {:induction false} PathToOriginator(net: Net, id: U32, o: Address, d: Address, m: nat, n: Address) returns (p: seq<Address>)
    requires TreeInv(net, id, o, d, m) && Rev(net, id, n)
    ensures IsReversePath(net, id, p) && StrictlyCheaper(net, id, p) && p[0] == n && p[|p| - 1] == o
    decreases MinCost(net, id, n)
  {
    hide TreeInv;
    RevFact(net, id, o, d, m, n);
    if n == o {
      p := [n];
    } else {
      var rest := PathToOriginator(net, id, o, d, m, RevEntry(net, id, n).prevHop);
      CheaperExtended(net, id, n, rest);
      p := [n] + rest;
    }
  }

  /**
   In every state of every run, `prev_hop` pointers of one request lead from any node that has an entry to the
   originator, the cost falling strictly at each hop.
   */
  lemma ReversePathTree(trace: seq<Net>, id: U32, o: Address, d: Address, m: nat, i: nat, n: Address)
    requires CleanRequest(trace, id, o, d, m) && i < |trace| && Rev(trace[i], id, n)
    ensures exists p: seq<Address> ::
              IsReversePath(trace[i], id, p) && StrictlyCheaper(trace[i], id, p) && p[0] == n && p[|p| - 1] == o
  {
    TreeThroughout(trace, id, o, d, m, i);
    hide TreeInv, CleanRequest;
    var p := PathToOriginator(trace[i], id, o, d, m, n);
  }

  /** The originator's cost is 0, and nobody's exceeds eleven hops' worth. */
  lemma ReverseCostBound(trace: seq<Net>, id: U32, o: Address, d: Address, m: nat, i: nat, n: Address)
    requires CleanRequest(trace, id, o, d, m) && i < |trace| && Rev(trace[i], id, n)
    ensures MinCost(trace[i], id, n) <= 11 * m
    ensures MinCost(trace[i], id, n) == 0 <==> n == o
  {
    TreeThroughout(trace, id, o, d, m, i);
    hide TreeInv, CleanRequest;
    RevFact(trace[i], id, o, d, m, n);
    BudgetIsProduct(ROUTE_RADIUS + 1, m);
  }

  /** A request still carrying radius r has accumulated at most 10 - r hops' worth of cost. */
  lemma InFlightCostBound(trace: seq<Net>, id: U32, o: Address, d: Address, m: nat, i: nat, q: Frame)
    requires CleanRequest(trace, id, o, d, m) && i < |trace| && RreqFor(trace[i], id, q)
    ensures q.radius <= 10 && q.cost <= (10 - q.radius) * m
  {
    hide TreeInv, CleanRequest, RreqOk, HopBudget;
    TreeThroughout(trace, id, o, d, m, i);
    RreqFact(trace[i], id, o, d, m, q);
    var hops := ROUTE_RADIUS - q.radius;
    BudgetIsProduct(hops, m);
  }

  lemma RreqFact(net: Net, id: U32, o: Address, d: Address, m: nat, q: Frame)
    requires TreeInv(net, id, o, d, m) && RreqFor(net, id, q)
    ensures q.radius <= ROUTE_RADIUS && q.cost <= HopBudget(ROUTE_RADIUS - q.radius, m)
  {
    hide HopBudget;
    assert RreqOk(net, id, o, d, m, q);
  }
}
