/** Heap blocks with exactly one owner each. */
module Ownership {
  import opened Types

  type Bytes = seq<nat>

  /** Where a block can be: the broadcast queue, the action queue, the consumed list, a link queue or a parked queue. */
  datatype Place = Waiting | Queued | Consumed | OnLink(peer: Address) | ParkedFor(dest: Address)

  type Holdings = Place -> seq<nat>

  /** Every live block stands once, in the list of its owner, and nothing else stands anywhere. */
  ghost predicate Owned(heap: map<nat, Bytes>, owner: map<nat, Place>, at: Holdings) {
    && owner.Keys == heap.Keys
    && (forall p :: NoDuplicates(at(p)))
    && forall p, b :: b in at(p) <==> b in owner && owner[b] == p
  }

  /** Only the list of p changed. */
  ghost predicate OnlyAt(at: Holdings, at': Holdings, p: Place, list: seq<nat>) {
    at'(p) == list && forall q :: q != p ==> at'(q) == at(q)
  }

  lemma OwnerOf(heap: map<nat, Bytes>, owner: map<nat, Place>, at: Holdings, p: Place, i: nat)
    requires Owned(heap, owner, at) && i < |at(p)|
    ensures at(p)[i] in heap && at(p)[i] in owner && owner[at(p)[i]] == p
  {
    assert at(p)[i] in at(p);
  }

  /** A fresh block goes to the end of a list. */
  lemma Given(heap: map<nat, Bytes>, owner: map<nat, Place>, at: Holdings, at': Holdings, p: Place, b: nat, bytes: Bytes)
    requires Owned(heap, owner, at) && b !in heap && OnlyAt(at, at', p, at(p) + [b])
    ensures Owned(heap[b := bytes], owner[b := p], at')
  {
    assert b !in at(p);
    forall q, c ensures c in at'(q) <==> c in owner[b := p] && owner[b := p][c] == q {
      assert c in at(q) <==> c in owner && owner[c] == q;
    }
    forall q ensures NoDuplicates(at'(q)) { assert NoDuplicates(at(q)); }
  }

  lemma HeadLeaves(list: seq<nat>)
    requires list != [] && NoDuplicates(list)
    ensures NoDuplicates(list[1..]) && forall c :: c in list[1..] <==> c in list && c != list[0]
  {
    assert list == [list[0]] + list[1..];
  }

  /** The head of a list is freed. */
  lemma Freed(heap: map<nat, Bytes>, owner: map<nat, Place>, at: Holdings, at': Holdings, p: Place)
    requires Owned(heap, owner, at) && at(p) != [] && OnlyAt(at, at', p, at(p)[1..])
    ensures at(p)[0] in heap && Owned(heap - {at(p)[0]}, owner - {at(p)[0]}, at')
  {
    var b := at(p)[0];
    HeadLeaves(at(p));
    assert b in at(p);
    forall q, c ensures c in at'(q) <==> c in owner - {b} && (owner - {b})[c] == q {
      assert c in at(q) <==> c in owner && owner[c] == q;
    }
    forall q ensures NoDuplicates(at'(q)) { assert NoDuplicates(at(q)); }
  }

  /** The head of one list moves to the end of another. */
  lemma Moved(heap: map<nat, Bytes>, owner: map<nat, Place>, at: Holdings, at': Holdings, p: Place, q: Place)
    requires Owned(heap, owner, at) && p != q && at(p) != []
    requires at'(p) == at(p)[1..] && at'(q) == at(q) + [at(p)[0]] && forall r :: r != p && r != q ==> at'(r) == at(r)
    ensures at(p)[0] in heap && Owned(heap, owner[at(p)[0] := q], at')
  {
    var b := at(p)[0];
    HeadLeaves(at(p));
    assert b in at(p);
    assert b in owner && owner[b] == p;
    assert b !in at(q);
    assert owner[b := q].Keys == owner.Keys;
    forall r, c ensures c in at'(r) <==> c in owner[b := q] && owner[b := q][c] == r {
      assert c in at(r) <==> c in owner && owner[c] == r;
    }
    forall r ensures NoDuplicates(at'(r)) { assert NoDuplicates(at(r)); }
  }

  lemma OneOwner(heap: map<nat, Bytes>, owner: map<nat, Place>, at: Holdings, p: Place, i: nat, q: Place)
    requires Owned(heap, owner, at) && i < |at(p)| && p != q
    ensures at(p)[i] !in at(q)
  {
    OwnerOf(heap, owner, at, p, i);
  }

  /** Lists that hold the same blocks as before. */
  lemma Unmoved(heap: map<nat, Bytes>, owner: map<nat, Place>, at: Holdings, at': Holdings)
    requires Owned(heap, owner, at) && forall p :: at'(p) == at(p)
    ensures Owned(heap, owner, at')
  {
  }
}
