/** Multipoint-relay election: what the greedy loop of recomputeMprSet chooses. */
module Mpr {
  import opened Types

  /** A neighbour's last HELLO: when it was heard, its neighbours and its relays. */
  datatype NeighbourInfo = NeighbourInfo(lastSeen: int, n1: seq<Address>, mprs: seq<Address>)

  type Neighbours = map<Address, NeighbourInfo>

  /** The strict two-hop neighbourhood. */
  function TwoHop(myId: Address, neighbours: Neighbours): set<Address> {
    set k, two | k in neighbours && two in neighbours[k].n1 && two != myId && two !in neighbours :: two
  }

  /** How many list entries are still uncovered, counted as the scan counts them. */
  function Cover(list: seq<Address>, uncovered: set<Address>): nat {
    if list == [] then 0
    else Cover(list[..|list| - 1], uncovered) + (if list[|list| - 1] in uncovered then 1 else 0)
  }

  /** The relay the scan settles on: the smallest id among the unpicked neighbours of largest cover. */
  ghost predicate IsBest(neighbours: Neighbours, picked: set<Address>, uncovered: set<Address>, b: Address) {
    && b in neighbours && b !in picked && Cover(neighbours[b].n1, uncovered) > 0
    && forall c :: c in neighbours && c !in picked ==>
         && Cover(neighbours[c].n1, uncovered) <= Cover(neighbours[b].n1, uncovered)
         && (Cover(neighbours[c].n1, uncovered) == Cover(neighbours[b].n1, uncovered) ==> b <= c)
  }

  function Heard(neighbours: Neighbours, id: Address): seq<Address> {
    if id in neighbours then neighbours[id].n1 else []
  }

  /** What is still uncovered after the picks made so far. */
  function Remaining(neighbours: Neighbours, uncovered: set<Address>, picks: seq<Address>): set<Address> {
    if picks == [] then uncovered
    else Remaining(neighbours, uncovered, picks[..|picks| - 1]) - Elements(Heard(neighbours, picks[|picks| - 1]))
  }

  /** Pick number i was the best one given those before it. */
  ghost predicate PickIsBest(neighbours: Neighbours, uncovered: set<Address>, picks: seq<Address>, i: nat)
    requires i < |picks|
  {
    IsBest(neighbours, Elements(picks[..i]), Remaining(neighbours, uncovered, picks[..i]), picks[i])
  }

  ghost predicate IsGreedy(neighbours: Neighbours, uncovered: set<Address>, picks: seq<Address>) {
    forall i :: 0 <= i < |picks| ==> PickIsBest(neighbours, uncovered, picks, i)
  }

  /** Picks that leave nothing uncovered. */
  ghost predicate IsElection(myId: Address, neighbours: Neighbours, picks: seq<Address>) {
    IsGreedy(neighbours, TwoHop(myId, neighbours), picks) && Remaining(neighbours, TwoHop(myId, neighbours), picks) == {}
  }

  // ----- covering -----

  lemma {:induction false} CoverPositive(list: seq<Address>, uncovered: set<Address>)
    ensures Cover(list, uncovered) > 0 <==> exists x :: x in list && x in uncovered
  {
    if list != [] {
      var front, last := list[..|list| - 1], list[|list| - 1];
      CoverPositive(front, uncovered);
      assert forall x :: x in list <==> x in front || x == last;
    }
  }

  /** On a list without duplicates the count is the size of the fresh cover. */
  lemma {:induction false} CoverIsSize(list: seq<Address>, uncovered: set<Address>)
    requires NoDuplicates(list)
    ensures Cover(list, uncovered) == |Elements(list) * uncovered|
  {
    if list == [] {
      assert Elements(list) * uncovered == {};
    } else {
      var front, last := list[..|list| - 1], list[|list| - 1];
      CoverIsSize(front, uncovered);
      assert Elements(list) == Elements(front) + {last} && last !in front;
      if last in uncovered {
        assert Elements(list) * uncovered == Elements(front) * uncovered + {last};
      } else {
        assert Elements(list) * uncovered == Elements(front) * uncovered;
      }
    }
  }

  lemma {:induction false} RemainingMembers(neighbours: Neighbours, uncovered: set<Address>, picks: seq<Address>)
    ensures forall x :: x in Remaining(neighbours, uncovered, picks) <==>
              x in uncovered && forall p :: p in picks ==> x !in Heard(neighbours, p)
  {
    if picks != [] {
      var front, last := picks[..|picks| - 1], picks[|picks| - 1];
      assert forall p :: p in picks <==> p in front || p == last;
      RemainingMembers(neighbours, uncovered, front);
    }
  }

  /** While a strict two-hop node is uncovered, some unpicked neighbour covers it: the early exit cannot be taken. */
  lemma SomeoneCovers(myId: Address, neighbours: Neighbours, picks: seq<Address>)
    requires Remaining(neighbours, TwoHop(myId, neighbours), picks) != {}
    ensures exists c :: c in neighbours && c !in picks && Cover(neighbours[c].n1, Remaining(neighbours, TwoHop(myId, neighbours), picks)) > 0
  {
    var u := Remaining(neighbours, TwoHop(myId, neighbours), picks);
    var x :| x in u;
    RemainingMembers(neighbours, TwoHop(myId, neighbours), picks);
    var k :| k in neighbours && x in neighbours[k].n1;
    CoverPositive(neighbours[k].n1, u);
  }

  lemma BestIsUnique(neighbours: Neighbours, picked: set<Address>, uncovered: set<Address>, a: Address, b: Address)
    requires IsBest(neighbours, picked, uncovered, a) && IsBest(neighbours, picked, uncovered, b)
    ensures a == b
  {
  }

  lemma {:induction false} GreedyRunsAgree(neighbours: Neighbours, uncovered: set<Address>, p: seq<Address>, q: seq<Address>, i: nat)
    requires IsGreedy(neighbours, uncovered, p) && IsGreedy(neighbours, uncovered, q) && i <= |p| && i <= |q|
    ensures p[..i] == q[..i]
  {
    hide IsBest, Remaining;
    if i > 0 {
      GreedyRunsAgree(neighbours, uncovered, p, q, i - 1);
      assert PickIsBest(neighbours, uncovered, p, i - 1) && PickIsBest(neighbours, uncovered, q, i - 1);
      BestIsUnique(neighbours, Elements(p[..i - 1]), Remaining(neighbours, uncovered, p[..i - 1]), p[i - 1], q[i - 1]);
      assert p[..i] == p[..i - 1] + [p[i - 1]] && q[..i] == q[..i - 1] + [q[i - 1]];
    }
  }

  lemma NothingLeftToPick(neighbours: Neighbours, uncovered: set<Address>, picks: seq<Address>, i: nat)
    requires IsGreedy(neighbours, uncovered, picks) && i < |picks|
    ensures Remaining(neighbours, uncovered, picks[..i]) != {}
  {
    hide Remaining;
    assert PickIsBest(neighbours, uncovered, picks, i);
    CoverPositive(neighbours[picks[i]].n1, Remaining(neighbours, uncovered, picks[..i]));
  }

  /** The election is determined by the neighbour table: any two complete greedy runs make the same picks in the same order. */
  lemma ElectionIsDetermined(myId: Address, neighbours: Neighbours, p: seq<Address>, q: seq<Address>)
    requires IsElection(myId, neighbours, p) && IsElection(myId, neighbours, q)
    ensures p == q
  {
    hide IsGreedy, Remaining, TwoHop;
    var u := TwoHop(myId, neighbours);
    assert p[..|p|] == p && q[..|q|] == q;
    if |p| <= |q| {
      GreedyRunsAgree(neighbours, u, p, q, |p|);
      if |p| < |q| { NothingLeftToPick(neighbours, u, q, |p|); }
    } else {
      GreedyRunsAgree(neighbours, u, p, q, |q|);
      NothingLeftToPick(neighbours, u, p, |q|);
    }
  }

  lemma GreedyPicksDiffer(neighbours: Neighbours, uncovered: set<Address>, picks: seq<Address>)
    requires IsGreedy(neighbours, uncovered, picks)
    ensures Elements(picks) <= neighbours.Keys && NoDuplicates(picks)
  {
    hide Remaining;
    forall x | x in picks ensures x in neighbours {
      var i :| 0 <= i < |picks| && picks[i] == x;
      assert PickIsBest(neighbours, uncovered, picks, i);
    }
    forall i, j | 0 <= i < j < |picks| ensures picks[i] != picks[j] {
      assert PickIsBest(neighbours, uncovered, picks, j);
      assert picks[i] == picks[..j][i];
    }
  }

  /** Something this pick covers, and no earlier one does. */
  ghost predicate IsFresh(neighbours: Neighbours, picks: seq<Address>, i: nat, x: Address)
    requires i < |picks|
  {
    x in Heard(neighbours, picks[i]) && forall j :: 0 <= j < i ==> x !in Heard(neighbours, picks[j])
  }

  /** Pick number i covers a strict two-hop node that no earlier pick covers. */
  ghost predicate EarnsItsPlace(neighbours: Neighbours, uncovered: set<Address>, picks: seq<Address>, i: nat)
    requires i < |picks|
  {
    exists x :: x in uncovered && IsFresh(neighbours, picks, i, x)
  }

  lemma PickCoversSomethingNew(neighbours: Neighbours, uncovered: set<Address>, picks: seq<Address>, i: nat)
    requires IsGreedy(neighbours, uncovered, picks) && i < |picks|
    ensures EarnsItsPlace(neighbours, uncovered, picks, i)
  {
    hide Remaining;
    var before := picks[..i];
    assert PickIsBest(neighbours, uncovered, picks, i);
    CoverPositive(neighbours[picks[i]].n1, Remaining(neighbours, uncovered, before));
    var x :| x in neighbours[picks[i]].n1 && x in Remaining(neighbours, uncovered, before);
    RemainingMembers(neighbours, uncovered, before);
    forall j | 0 <= j < i ensures x !in Heard(neighbours, picks[j]) { assert picks[j] == before[j]; }
    assert IsFresh(neighbours, picks, i, x);
  }

  /** Some relay among these lists x as its neighbour. */
  ghost predicate Reaches(neighbours: Neighbours, relays: set<Address>, x: Address) {
    exists p :: p in relays && x in Heard(neighbours, p)
  }

  /** The relays are neighbours, cover the whole strict two-hop neighbourhood, and none is picked for nothing. */
  lemma ElectionCovers(myId: Address, neighbours: Neighbours, picks: seq<Address>)
    requires IsElection(myId, neighbours, picks)
    ensures Elements(picks) <= neighbours.Keys && NoDuplicates(picks)
    ensures forall x :: x in TwoHop(myId, neighbours) ==> Reaches(neighbours, Elements(picks), x)
    ensures forall i :: 0 <= i < |picks| ==> EarnsItsPlace(neighbours, TwoHop(myId, neighbours), picks, i)
  {
    var u := TwoHop(myId, neighbours);
    hide IsGreedy, Remaining, TwoHop, EarnsItsPlace;
    RemainingMembers(neighbours, u, picks);
    GreedyPicksDiffer(neighbours, u, picks);
    forall i | 0 <= i < |picks| ensures EarnsItsPlace(neighbours, u, picks, i) {
      PickCoversSomethingNew(neighbours, u, picks, i);
    }
  }

  /** What the scan knows after looking at some of the neighbours in ascending order. */
  ghost predicate BestSoFar(neighbours: Neighbours, picked: set<Address>, uncovered: set<Address>, seen: set<Address>,
                            found: bool, best: Address, cover: nat)
    requires seen <= neighbours.Keys
  {
    && (if found then best in seen && best !in picked && cover == Cover(neighbours[best].n1, uncovered) && cover > 0 else cover == 0)
    && forall c :: c in seen && c !in picked ==>
         Cover(neighbours[c].n1, uncovered) <= cover
         && (found && Cover(neighbours[c].n1, uncovered) == cover ==> best <= c)
  }

  /** A finished scan has the best pick, or there is nothing to pick. */
  lemma ScanFinds(neighbours: Neighbours, picked: set<Address>, uncovered: set<Address>, found: bool, best: Address, cover: nat)
    requires BestSoFar(neighbours, picked, uncovered, neighbours.Keys, found, best, cover)
    ensures found ==> IsBest(neighbours, picked, uncovered, best)
    ensures !found ==> forall c :: c in neighbours && c !in picked ==> Cover(neighbours[c].n1, uncovered) == 0
  {
  }

  /** Picking the best neighbour extends a greedy run. */
  lemma GreedyExtends(neighbours: Neighbours, uncovered: set<Address>, picks: seq<Address>, b: Address)
    requires IsGreedy(neighbours, uncovered, picks)
    requires IsBest(neighbours, Elements(picks), Remaining(neighbours, uncovered, picks), b)
    ensures IsGreedy(neighbours, uncovered, picks + [b])
    ensures Remaining(neighbours, uncovered, picks + [b]) == Remaining(neighbours, uncovered, picks) - Elements(neighbours[b].n1)
  {
    var longer := picks + [b];
    assert longer[..|picks|] == picks;
    hide Remaining, IsBest;
    forall i | 0 <= i < |longer| ensures PickIsBest(neighbours, uncovered, longer, i) {
      if i < |picks| {
        assert longer[..i] == picks[..i];
        assert PickIsBest(neighbours, uncovered, picks, i);
      }
    }
  }

  // ----- comparison with the optimum -----

  /** These neighbours together cover the given nodes: a competitor to the greedy choice. */
  ghost predicate IsCover(neighbours: Neighbours, relays: set<Address>, nodes: set<Address>) {
    relays <= neighbours.Keys && forall x :: x in nodes ==> Reaches(neighbours, relays, x)
  }

  /** HELLO lists are written from the keys of a map, so they carry no address twice. */
  ghost predicate HonestCounts(neighbours: Neighbours) {
    forall k :: k in neighbours ==> NoDuplicates(neighbours[k].n1)
  }

  /** A product the proofs below treat as one symbol. */
  function Times(a: int, b: int): int { a * b }

  lemma TimesGrows(a: int, b: int)
    ensures Times(a + 1, b) == Times(a, b) + b
  {
  }

  lemma TimesPositive(a: nat, b: nat)
    ensures Times(a, b) >= 0
  {
  }

  lemma SplitSize(nodes: set<Address>, own: set<Address>)
    requires own <= nodes
    ensures |nodes| == |nodes - own| + |own|
  {
    assert nodes == (nodes - own) + own;
  }

  /** Setting one list and what it covers aside leaves a cover of the rest by one list fewer. */
  lemma PeelOne(neighbours: Neighbours, relays: set<Address>, nodes: set<Address>, c: nat) returns (p: Address, rest: set<Address>)
    requires IsCover(neighbours, relays, nodes) && nodes != {}
    requires forall p :: p in relays ==> |Elements(Heard(neighbours, p)) * nodes| <= c
    ensures p in relays && rest <= nodes && |nodes| <= |rest| + c
    ensures IsCover(neighbours, relays - {p}, rest)
  {
    var x :| x in nodes;
    assert Reaches(neighbours, relays, x);
    p :| p in relays && x in Heard(neighbours, p);
    rest := nodes - Elements(Heard(neighbours, p)) * nodes;
    SplitSize(nodes, Elements(Heard(neighbours, p)) * nodes);
    hide Heard;
    forall y | y in rest ensures Reaches(neighbours, relays - {p}, y) {
      assert Reaches(neighbours, relays, y);
    }
  }

  /** k lists none of which covers more than c nodes cover at most k * c of them. */
  lemma {:induction false} CoverAdds(neighbours: Neighbours, relays: set<Address>, nodes: set<Address>, c: nat)
    requires IsCover(neighbours, relays, nodes)
    requires forall p :: p in relays ==> |Elements(Heard(neighbours, p)) * nodes| <= c
    ensures |nodes| <= Times(|relays|, c)
    decreases |relays|
  {
    hide Times, Heard, IsCover;
    if nodes == {} {
      TimesPositive(|relays|, c);
    } else {
      var p, rest := PeelOne(neighbours, relays, nodes, c);
      var others := relays - {p};
      assert |relays| == |others| + 1;
      forall q | q in others ensures |Elements(Heard(neighbours, q)) * rest| <= c {
        SubsetSize(Elements(Heard(neighbours, q)) * rest, Elements(Heard(neighbours, q)) * nodes);
      }
      CoverAdds(neighbours, others, rest, c);
      TimesGrows(|others|, c);
    }
  }

  /** No list covers more of what is uncovered than the best pick. */
  lemma BestCoversMost(neighbours: Neighbours, uncovered: set<Address>, picks: seq<Address>, best: Address, q: Address)
    requires HonestCounts(neighbours) && q in neighbours
    requires IsBest(neighbours, Elements(picks), Remaining(neighbours, uncovered, picks), best)
    ensures var u := Remaining(neighbours, uncovered, picks);
            |Elements(Heard(neighbours, q)) * u| <= |Elements(Heard(neighbours, best)) * u|
  {
    hide Remaining, Cover;
    var u := Remaining(neighbours, uncovered, picks);
    if q in picks {
      RemainingMembers(neighbours, uncovered, picks);
      assert Elements(Heard(neighbours, q)) * u == {};
    } else {
      CoverIsSize(neighbours[q].n1, u);
      CoverIsSize(neighbours[best].n1, u);
    }
  }

  /** Each pick covers at least the average share of any competing cover. */
  lemma PickTakesItsShare(neighbours: Neighbours, uncovered: set<Address>, picks: seq<Address>, i: nat, relays: set<Address>)
    requires IsGreedy(neighbours, uncovered, picks) && i < |picks| && HonestCounts(neighbours)
    requires IsCover(neighbours, relays, uncovered)
    ensures var u := Remaining(neighbours, uncovered, picks[..i]);
            var next := Remaining(neighbours, uncovered, picks[..i + 1]);
            next <= u && |u| <= Times(|relays|, |u| - |next|)
  {
    hide Remaining, Cover, Times, HonestCounts, Heard;
    assert PickIsBest(neighbours, uncovered, picks, i);
    var u := Remaining(neighbours, uncovered, picks[..i]);
    var next := Remaining(neighbours, uncovered, picks[..i + 1]);
    var own := Elements(Heard(neighbours, picks[i])) * u;
    RemainingStep(neighbours, uncovered, picks, i);
    assert u == next + own && |u| == |next| + |own|;
    assert IsCover(neighbours, relays, u) by { RemainingMembers(neighbours, uncovered, picks[..i]); }
    forall q | q in relays ensures |Elements(Heard(neighbours, q)) * u| <= |own| {
      BestCoversMost(neighbours, uncovered, picks[..i], picks[i], q);
    }
    CoverAdds(neighbours, relays, u, |own|);
  }

  lemma RemainingStep(neighbours: Neighbours, uncovered: set<Address>, picks: seq<Address>, i: nat)
    requires i < |picks|
    ensures Remaining(neighbours, uncovered, picks[..i + 1])
            == Remaining(neighbours, uncovered, picks[..i]) - Elements(Heard(neighbours, picks[i]))
  {
    assert picks[..i + 1][..i] == picks[..i];
  }

  function Power(base: nat, exponent: nat): nat {
    if exponent == 0 then 1 else base * Power(base, exponent - 1)
  }

  /** If some k neighbours cover everything, i greedy picks leave at most ((k-1)/k)^i of it. */
  lemma {:induction false} GreedyShrinksGeometrically(neighbours: Neighbours, uncovered: set<Address>, picks: seq<Address>, i: nat, relays: set<Address>)
    requires IsGreedy(neighbours, uncovered, picks) && i <= |picks| && HonestCounts(neighbours)
    requires IsCover(neighbours, relays, uncovered) && relays != {}
    ensures Times(|Remaining(neighbours, uncovered, picks[..i])|, Power(|relays|, i)) <= Times(|uncovered|, Power(|relays| - 1, i))
  {
    hide Remaining, IsGreedy, IsCover, HonestCounts, Times;
    if i == 0 {
      assert Remaining(neighbours, uncovered, picks[..i]) == uncovered by { NothingPicked(neighbours, uncovered, picks); }
    } else {
      GreedyShrinksGeometrically(neighbours, uncovered, picks, i - 1, relays);
      PickTakesItsShare(neighbours, uncovered, picks, i - 1, relays);
      var u, v := Remaining(neighbours, uncovered, picks[..i - 1]), Remaining(neighbours, uncovered, picks[..i]);
      assert i - 1 + 1 == i;
      ShrinkStep(|relays|, |u|, |v|, |uncovered|, i - 1);
    }
  }

  lemma NothingPicked(neighbours: Neighbours, uncovered: set<Address>, picks: seq<Address>)
    ensures Remaining(neighbours, uncovered, picks[..0]) == uncovered
  {
  }

  lemma ShrinkStep(k: nat, u: nat, v: nat, n: nat, i: nat)
    requires k > 0 && u <= Times(k, u - v) && Times(u, Power(k, i)) <= Times(n, Power(k - 1, i))
    ensures Times(v, Power(k, i + 1)) <= Times(n, Power(k - 1, i + 1))
  {
    var p, q := Power(k, i), Power(k - 1, i);
    hide Power;
    assert k * (u - v) == k * u - k * v && (k - 1) * u == k * u - u;
    Scale(p, k * v, (k - 1) * u);
    Scale(k - 1, u * p, n * q);
    Regroup(v, k, p);
    Regroup(u, k - 1, p);
    Regroup(n, k - 1, q);
    PowerGrows(k, i);
    PowerGrows(k - 1, i);
  }

  lemma PowerGrows(base: nat, i: nat)
    ensures Power(base, i + 1) == base * Power(base, i)
  {
  }

  lemma Regroup(a: int, b: int, c: int)
    ensures a * (b * c) == c * (b * a) && b * (a * c) == c * (b * a)
  {
  }

  /** Number of binary digits. */
  function Bits(n: nat): nat {
    if n == 0 then 0 else 1 + Bits(n / 2)
  }

  /** While more than half of n is left, every pick takes more than 1/(2k) of n. */
  lemma {:induction false} HalvingWindow(neighbours: Neighbours, uncovered: set<Address>, picks: seq<Address>, a: nat, j: nat, relays: set<Address>)
    requires IsGreedy(neighbours, uncovered, picks) && a + j <= |picks| && HonestCounts(neighbours)
    requires IsCover(neighbours, relays, uncovered)
    ensures var n := |Remaining(neighbours, uncovered, picks[..a])|;
            var left := |Remaining(neighbours, uncovered, picks[..a + j])|;
            left <= n / 2 || (left <= n && Times(j, n + 1) <= 2 * Times(|relays|, n - left))
  {
    hide IsGreedy, IsCover, HonestCounts, Remaining, Times;
    if j == 0 {
      TimesOfZero(|Remaining(neighbours, uncovered, picks[..a])| + 1, |relays|);
    } else {
      HalvingWindow(neighbours, uncovered, picks, a, j - 1, relays);
      PickTakesItsShare(neighbours, uncovered, picks, a + j - 1, relays);
      var n := |Remaining(neighbours, uncovered, picks[..a])|;
      var u, v := Remaining(neighbours, uncovered, picks[..a + (j - 1)]), Remaining(neighbours, uncovered, picks[..a + j]);
      assert a + j - 1 + 1 == a + j && a + j - 1 == a + (j - 1);
      SubsetSize(v, u);
      if |v| > n / 2 {
        TimesGrows(j - 1, n + 1);
        TimesSplits(|relays|, n - |u|, |u| - |v|);
      }
    }
  }

  lemma TimesOfZero(a: int, b: int)
    ensures Times(0, a) == 0 == Times(b, 0)
  {
  }

  lemma TimesSplits(k: int, a: int, b: int)
    ensures Times(k, a + b) == Times(k, a) + Times(k, b)
  {
  }

  /** k picks are enough to halve what is left. */
  lemma WindowHalves(neighbours: Neighbours, uncovered: set<Address>, picks: seq<Address>, a: nat, relays: set<Address>)
    requires IsGreedy(neighbours, uncovered, picks) && a + |relays| <= |picks| && HonestCounts(neighbours)
    requires IsCover(neighbours, relays, uncovered) && relays != {}
    ensures |Remaining(neighbours, uncovered, picks[..a + |relays|])| <= |Remaining(neighbours, uncovered, picks[..a])| / 2
  {
    hide IsGreedy, IsCover, HonestCounts, Remaining;
    HalvingWindow(neighbours, uncovered, picks, a, |relays|, relays);
    var n, m := |Remaining(neighbours, uncovered, picks[..a])|, |Remaining(neighbours, uncovered, picks[..a + |relays|])|;
    if m > n / 2 { HalfOrMore(|relays|, n, m); }
  }

  lemma HalfOrMore(k: nat, n: nat, m: nat)
    requires k > 0 && m <= n && Times(k, n + 1) <= 2 * Times(k, n - m)
    ensures m <= n / 2
  {
    assert 2 * Times(k, n - m) == k * (2 * (n - m));
    Cancel(k, n + 1, 2 * (n - m));
  }

  lemma Cancel(k: nat, a: int, b: int)
    requires k > 0 && k * a <= k * b
    ensures a <= b
  {
    if a > b { Scale(k, b + 1, a); }
  }

  /** The greedy set is within a logarithmic factor of the smallest possible relay set. */
  lemma {:induction false} GreedyIsNearOptimal(neighbours: Neighbours, uncovered: set<Address>, picks: seq<Address>, a: nat, relays: set<Address>)
    requires IsGreedy(neighbours, uncovered, picks) && a <= |picks| && HonestCounts(neighbours)
    requires IsCover(neighbours, relays, uncovered)
    ensures |picks| - a <= Times(|relays|, Bits(|Remaining(neighbours, uncovered, picks[..a])|))
    decreases |picks| - a
  {
    hide IsGreedy, IsCover, HonestCounts, Remaining, Times, Bits;
    var k, n := |relays|, |Remaining(neighbours, uncovered, picks[..a])|;
    TimesPositive(k, Bits(n));
    if a < |picks| {
      NothingLeftToPick(neighbours, uncovered, picks, a);
      PickTakesItsShare(neighbours, uncovered, picks, a, relays);
      if relays == {} { TimesOfZero(n - |Remaining(neighbours, uncovered, picks[..a + 1])|, 0); }
      if |picks| - a <= k {
        OneMoreBit(k, 0, n);
        TimesPositive(k, Bits(0));
      } else {
        WindowHalves(neighbours, uncovered, picks, a, relays);
        GreedyIsNearOptimal(neighbours, uncovered, picks, a + k, relays);
        OneMoreBit(k, |Remaining(neighbours, uncovered, picks[..a + k])|, n);
      }
    }
  }

  lemma OneMoreBit(k: nat, m: nat, n: nat)
    requires n > 0 && m <= n / 2
    ensures k + Times(k, Bits(m)) <= Times(k, Bits(n))
  {
    BitsGrow(m, n / 2);
    assert Bits(n) == 1 + Bits(n / 2);
    TimesSplits(k, Bits(m), 1);
    Scale(k, Bits(m) + 1, Bits(n));
  }

  lemma Scale(k: nat, a: int, b: int)
    requires a <= b
    ensures k * a <= k * b
  {
    assert k * b == k * a + k * (b - a);
  }

  lemma {:induction false} BitsGrow(m: nat, n: nat)
    requires m <= n
    ensures Bits(m) <= Bits(n)
  {
    if m > 0 { BitsGrow(m / 2, n / 2); }
  }

  /** Main result: against any k neighbours that cover the strict two-hop set, the election picks at most k * log2 of its size. */
  lemma ElectionNearOptimal(myId: Address, neighbours: Neighbours, picks: seq<Address>, relays: set<Address>)
    requires IsElection(myId, neighbours, picks) && HonestCounts(neighbours)
    requires IsCover(neighbours, relays, TwoHop(myId, neighbours))
    ensures |picks| <= Times(|relays|, Bits(|TwoHop(myId, neighbours)|))
  {
    hide IsGreedy, IsCover, HonestCounts, Bits, TwoHop, Times;
    GreedyIsNearOptimal(neighbours, TwoHop(myId, neighbours), picks, 0, relays);
    NothingPicked(neighbours, TwoHop(myId, neighbours), picks);
  }
}
