/** Buffers of a node: the action queue, the scratch buffer its slices point into, and the heap blocks it owns. */
module Buffers {
  import opened Types
  import opened Ownership

  const ACTIONS_CAPACITY: nat := 256
  const TX_BUF_CAPACITY: nat := 4096
  const CONSUMED_CAPACITY: nat := 256
  const SEAL_OVERHEAD: nat := 12 + 33 + 16

  /** An action as queued: a broadcast is a heap block, data and deliveries are slices of the scratch buffer. */
  datatype Action =
    | SendBroadcast(block: nat)
    | SendData(start: nat, len: nat)
    | HandUp(from: Address, start: nat, len: nat)
    | NoBytes

  /** The heap blocks among some actions. */
  function Blocks(actions: seq<Action>): seq<nat> {
    if actions == [] then []
    else Blocks(actions[..|actions| - 1]) + OwnBlock(actions[|actions| - 1])
  }

  function OwnBlock(a: Action): seq<nat> {
    if a.SendBroadcast? then [a.block] else []
  }

  lemma BlocksSnoc(actions: seq<Action>, a: Action)
    ensures Blocks(actions + [a]) == Blocks(actions) + OwnBlock(a)
  {
    assert (actions + [a])[..|actions|] == actions;
  }

  lemma {:induction false} BlocksHead(actions: seq<Action>)
    requires actions != []
    ensures Blocks(actions) == OwnBlock(actions[0]) + Blocks(actions[1..])
  {
    var front, last := actions[..|actions| - 1], actions[|actions| - 1];
    assert Blocks(actions) == Blocks(front) + OwnBlock(last);
    if front == [] {
      assert actions[1..] == [] && actions[0] == last;
    } else {
      BlocksHead(front);
      assert actions[1..] == front[1..] + [last] && actions[0] == front[0];
      BlocksSnoc(front[1..], last);
      hide Blocks, OwnBlock;
    }
  }

  /** The bytes an action points at are the ones it was built with. */
  ghost predicate Intact(a: Action, heap: map<nat, Bytes>, txBuf: Bytes, bytes: Bytes) {
    match a
    case SendBroadcast(b) => b in heap && heap[b] == bytes
    case SendData(start, len) => start + len <= |txBuf| && txBuf[start..start + len] == bytes
    case HandUp(_, start, len) => start + len <= |txBuf| && txBuf[start..start + len] == bytes
    case NoBytes => true
  }

  ghost predicate AllIntact(actions: seq<Action>, built: seq<Bytes>, heap: map<nat, Bytes>, txBuf: Bytes) {
    |built| == |actions| && forall i :: 0 <= i < |actions| ==> Intact(actions[i], heap, txBuf, built[i])
  }

  lemma {:induction false} BlocksHave(actions: seq<Action>, i: nat)
    requires i < |actions| && actions[i].SendBroadcast?
    ensures actions[i].block in Blocks(actions)
  {
    if i < |actions| - 1 { BlocksHave(actions[..|actions| - 1], i); }
  }

  /** One more action over a scratch buffer that only grew. */
  lemma IntactSnoc(actions: seq<Action>, built: seq<Bytes>, heap: map<nat, Bytes>, txBuf: Bytes, more: Bytes, a: Action, bytes: Bytes)
    requires AllIntact(actions, built, heap, txBuf) && Intact(a, heap, txBuf + more, bytes)
    ensures AllIntact(actions + [a], built + [bytes], heap, txBuf + more)
  {
    forall i | 0 <= i < |actions| ensures Intact(actions[i], heap, txBuf + more, built[i]) {
      assert Intact(actions[i], heap, txBuf, built[i]);
    }
  }

  lemma IntactTail(actions: seq<Action>, built: seq<Bytes>, heap: map<nat, Bytes>, txBuf: Bytes)
    requires AllIntact(actions, built, heap, txBuf) && actions != []
    ensures Intact(actions[0], heap, txBuf, built[0]) && AllIntact(actions[1..], built[1..], heap, txBuf)
  {
  }

  lemma IntactGiven(actions: seq<Action>, built: seq<Bytes>, heap: map<nat, Bytes>, txBuf: Bytes, b: nat, bytes: Bytes)
    requires AllIntact(actions, built, heap, txBuf) && b !in heap
    ensures AllIntact(actions, built, heap[b := bytes], txBuf)
  {
    forall i | 0 <= i < |actions| ensures Intact(actions[i], heap[b := bytes], txBuf, built[i]) {
      assert Intact(actions[i], heap, txBuf, built[i]);
    }
  }

  lemma IntactFreed(actions: seq<Action>, built: seq<Bytes>, heap: map<nat, Bytes>, txBuf: Bytes, b: nat)
    requires AllIntact(actions, built, heap, txBuf) && b !in Blocks(actions)
    ensures AllIntact(actions, built, heap - {b}, txBuf)
  {
    forall i | 0 <= i < |actions| ensures Intact(actions[i], heap - {b}, txBuf, built[i]) {
      assert Intact(actions[i], heap, txBuf, built[i]);
      if actions[i].SendBroadcast? { BlocksHave(actions, i); }
    }
  }

  function Held(waiting: seq<nat>, actions: seq<Action>, consumed: seq<nat>,
                links: map<Address, seq<nat>>, parked: map<Address, seq<nat>>): Holdings {
    (p: Place) =>
      match p
      case Waiting => waiting
      case Queued => Blocks(actions)
      case Consumed => consumed
      case OnLink(peer) => if peer in links then links[peer] else []
      case ParkedFor(dest) => if dest in parked then parked[dest] else []
  }

  /** How many of the offered payloads a link queue takes. */
  function Fitting(waiting: nat, offered: nat): nat {
    if waiting + offered <= PENDING_TX_MAX then offered else if waiting <= PENDING_TX_MAX then PENDING_TX_MAX - waiting else 0
  }

  /** k blocks in the order they were allocated. */
  function FreshBlocks(next: nat, k: nat): (r: seq<nat>)
    ensures |r| == k && forall i :: 0 <= i < k ==> r[i] == next + i
  {
    seq(k, i requires 0 <= i < k => next + i)
  }

  ghost predicate CopyOf(heap: map<nat, Bytes>, b: nat, heap': map<nat, Bytes>, b': nat) {
    b in heap && b' in heap' && heap'[b'] == heap[b]
  }

  /** Block next + i holds what parked[i] held, and blocks that were not parked hold what they held. */
  ghost predicate Copied(heap: map<nat, Bytes>, heap': map<nat, Bytes>, parked: seq<nat>, next: nat, k: nat) {
    && k <= |parked|
    && (forall i :: 0 <= i < k ==> CopyOf(heap, parked[i], heap', next + i))
    && forall b :: b in heap && b !in parked ==> CopyOf(heap, b, heap', b)
  }

  /** The first `done` parked payloads have been handed to the link. */
  ghost predicate Handed(heap0: map<nat, Bytes>, heap: map<nat, Bytes>, list0: seq<nat>, list: seq<nat>,
                         parked: seq<nat>, done: nat, next: nat)
    requires done <= |parked|
  {
    var k := Fitting(|list0|, done);
    && list == list0 + FreshBlocks(next, k)
    && Copied(heap0, heap, parked[..done], next, k)
    && heap.Keys == heap0.Keys - Elements(parked[..done]) + Elements(FreshBlocks(next, k))
    && NoDuplicates(parked) && (forall b :: b in parked ==> b in heap0) && forall b :: b in heap0 ==> b < next
  }

  lemma HandedNone(heap: map<nat, Bytes>, list: seq<nat>, parked: seq<nat>, next: nat)
    requires NoDuplicates(parked) && (forall b :: b in parked ==> b in heap) && forall b :: b in heap ==> b < next
    ensures Handed(heap, heap, list, list, parked, 0, next)
  {
    assert parked[..0] == [] && FreshBlocks(next, 0) == [];
  }

  lemma HandedAll(heap0: map<nat, Bytes>, heap: map<nat, Bytes>, list0: seq<nat>, list: seq<nat>, parked: seq<nat>, done: nat, next: nat)
    requires done == |parked| && Handed(heap0, heap, list0, list, parked, done, next)
    ensures var k := Fitting(|list0|, |parked|);
            && list == list0 + FreshBlocks(next, k) && Copied(heap0, heap, parked, next, k)
            && heap.Keys == heap0.Keys - Elements(parked) + Elements(FreshBlocks(next, k))
  {
    hide Copied;
    assert parked[..done] == parked;
  }

  lemma HandedSizes(heap0: map<nat, Bytes>, heap: map<nat, Bytes>, list0: seq<nat>, list: seq<nat>, parked: seq<nat>, done: nat, next: nat)
    requires done <= |parked| && Handed(heap0, heap, list0, list, parked, done, next)
    ensures |list| == |list0| + Fitting(|list0|, done)
  {
    hide Copied;
  }

  /** One more: copied to a fresh block at the end of the queue if that has room, and the original freed. */
  lemma HandedStep(heap0: map<nat, Bytes>, heap: map<nat, Bytes>, heap': map<nat, Bytes>, list0: seq<nat>, list: seq<nat>, list': seq<nat>,
                   parked: seq<nat>, done: nat, next: nat)
    requires done < |parked| && Handed(heap0, heap, list0, list, parked, done, next) && parked[done] in heap
    requires var spare := next + Fitting(|list0|, done);
             var ok := |list| < PENDING_TX_MAX;
             && heap' == (if ok then heap[spare := heap[parked[done]]] else heap) - {parked[done]}
             && list' == if ok then list + [spare] else list
    ensures Handed(heap0, heap', list0, list', parked, done + 1, next)
  {
    var b, k, k' := parked[done], Fitting(|list0|, done), Fitting(|list0|, done + 1);
    hide Copied;
    assert k' == if |list| < PENDING_TX_MAX then k + 1 else k;
    CopiedStep(heap0, heap, heap', parked, done, next, k, k');
    OneFreshBlock(next, k);
    KeysStep(heap0, heap, heap', parked, done, next, k, k');
  }

  lemma KeysStep(heap0: map<nat, Bytes>, heap: map<nat, Bytes>, heap': map<nat, Bytes>, parked: seq<nat>, done: nat, next: nat, k: nat, k': nat)
    requires done < |parked| && NoDuplicates(parked) && parked[done] in heap && parked[done] < next && (k' == k || k' == k + 1)
    requires heap.Keys == heap0.Keys - Elements(parked[..done]) + Elements(FreshBlocks(next, k))
    requires heap' == (if k' > k then heap[next + k := heap[parked[done]]] else heap) - {parked[done]}
    ensures heap'.Keys == heap0.Keys - Elements(parked[..done + 1]) + Elements(FreshBlocks(next, k'))
  {
    var b := parked[done];
    assert parked[..done + 1] == parked[..done] + [b];
    assert Elements(parked[..done + 1]) == Elements(parked[..done]) + {b};
    OneFreshBlock(next, k);
    assert b !in Elements(FreshBlocks(next, k'));
    hide Elements;
  }

  lemma OneFreshBlock(next: nat, k: nat)
    ensures FreshBlocks(next, k + 1) == FreshBlocks(next, k) + [next + k]
    ensures Elements(FreshBlocks(next, k + 1)) == Elements(FreshBlocks(next, k)) + {next + k}
  {
  }

  lemma CopiedStep(heap0: map<nat, Bytes>, heap: map<nat, Bytes>, heap': map<nat, Bytes>, parked: seq<nat>, done: nat, next: nat, k: nat, k': nat)
    requires done < |parked| && Copied(heap0, heap, parked[..done], next, k) && NoDuplicates(parked)
    requires (forall b :: b in parked ==> b in heap0) && (forall b :: b in heap0 ==> b < next)
    requires parked[done] in heap && (k' == k || (k' == k + 1 && k == done))
    requires heap' == (if k' > k then heap[next + k := heap[parked[done]]] else heap) - {parked[done]}
    ensures Copied(heap0, heap', parked[..done + 1], next, k')
  {
    var b, before, after := parked[done], parked[..done], parked[..done + 1];
    assert after == before + [b] && b !in before;
    assert CopyOf(heap0, b, heap, b);
    forall i | 0 <= i < k' ensures CopyOf(heap0, after[i], heap', next + i) {
      if i < k { assert CopyOf(heap0, before[i], heap, next + i); }
    }
    forall c | c in heap0 && c !in after ensures CopyOf(heap0, c, heap', c) {
      assert c !in before && c < next && CopyOf(heap0, c, heap, c);
    }
  }

  /**
   What a call of the host into the node does with buffers: start, the two wakeups (a slot's with the beacon it may
   build first), a beacon that re-arms the slot or not, a payload delivered or forwarded on a link, a payload sent on a
   link or parked, a link installed or a reply home with the parked payloads it releases, any other frame queued.
   */
  datatype Call =
    | Start
    | AnnounceWakeup
    | SlotWakeup(beacon: Option<Bytes>, ready: Option<Address>)
    | HearBeacon(rearms: bool)
    | Receive(from: Address, payload: Bytes)
    | Forward(via: Address, payload: Bytes)
    | Send(dest: Address, via: Address, payload: Bytes)
    | Link(peer: Address, routed: seq<Address>)
    | Reply(peer: Address, routed: seq<Address>)
    | Frame(bytes: Bytes)

  class Node {
    const seal: Bytes -> Bytes
    var heap: map<nat, Bytes>
    var nextBlock: nat
    var txBuf: Bytes
    var actions: seq<Action>
    var broadcastQueue: seq<nat>
    var consumedFrames: seq<nat>
    var links: map<Address, seq<nat>>
    var pendingRoutes: map<Address, seq<nat>>

    ghost var owner: map<nat, Place>
    ghost var built: seq<Bytes>

    ghost function At(): Holdings
      reads this
    {
      Held(broadcastQueue, actions, consumedFrames, links, pendingRoutes)
    }

    ghost predicate Valid()
      reads this
    {
      && Owned(heap, owner, At())
      && AllIntact(actions, built, heap, txBuf)
      && (forall b :: b in heap ==> b < nextBlock)
      && (forall p :: |seal(p)| == |p| + SEAL_OVERHEAD)
    }

    /** Nothing is queued and no scratch bytes are in use: the state the host leaves behind. */
    ghost predicate Idle()
      reads this
    {
      actions == [] && txBuf == [] && consumedFrames == []
    }

    constructor (seal: Bytes -> Bytes)
      requires forall p :: |seal(p)| == |p| + SEAL_OVERHEAD
      ensures Valid() && Idle() && heap == map[] && this.seal == seal
    {
      this.seal := seal;
      heap, nextBlock, txBuf, actions, broadcastQueue, consumedFrames := map[], 0, [], [], [], [];
      links, pendingRoutes, owner, built := map[], map[], map[], [];
    }

    /** A copy of some bytes on the heap, not owned yet. */
    method Dupe(bytes: Bytes) returns (b: nat)
      modifies this`heap, this`nextBlock
      ensures b == old(nextBlock) && nextBlock == b + 1 && heap == old(heap)[b := bytes]
    {
      b := nextBlock;
      heap := heap[b := bytes];
      nextBlock := nextBlock + 1;
    }

    /** Freeing demands a live block. */
    method Free(b: nat)
      requires b in heap
      modifies this`heap
      ensures heap == old(heap) - {b}
    {
      heap := heap - {b};
    }

    // ----- the queue of broadcasts -----

    method QueueFrame(bytes: Bytes)
      requires Valid()
      modifies this
      ensures Valid()
      ensures broadcastQueue == old(broadcastQueue) + [old(nextBlock)] && heap == old(heap)[old(nextBlock) := bytes]
      ensures actions == old(actions) && txBuf == old(txBuf) && consumedFrames == old(consumedFrames)
      ensures links == old(links) && pendingRoutes == old(pendingRoutes)
    {
      hide Owned, AllIntact;
      ghost var at := At();
      var b := Dupe(bytes);
      broadcastQueue := broadcastQueue + [b];
      Given(old(heap), owner, at, At(), Waiting, b, bytes);
      IntactGiven(actions, built, old(heap), txBuf, b, bytes);
      owner := owner[b := Waiting];
    }

    /** One broadcast frame passes from the queue to an action. */
    method QueueBroadcast()
      requires Valid() && broadcastQueue != [] && |actions| < ACTIONS_CAPACITY
      modifies this
      ensures Valid() && heap == old(heap) && txBuf == old(txBuf) && consumedFrames == old(consumedFrames)
      ensures broadcastQueue == old(broadcastQueue)[1..]
      ensures actions == old(actions) + [SendBroadcast(old(broadcastQueue)[0])]
      ensures links == old(links) && pendingRoutes == old(pendingRoutes)
    {
      hide AllIntact, Blocks;
      ghost var at := At();
      var frame := broadcastQueue[0];
      OwnerOf(heap, owner, at, Waiting, 0);
      hide Owned;
      broadcastQueue := broadcastQueue[1..];
      actions := actions + [SendBroadcast(frame)];
      built := built + [heap[frame]];
      BlocksSnoc(old(actions), SendBroadcast(frame));
      IntactSnoc(old(actions), old(built), heap, txBuf, [], SendBroadcast(frame), heap[frame]);
      assert txBuf + [] == txBuf;
      Moved(heap, owner, at, At(), Waiting, Queued);
      owner := owner[frame := Queued];
    }

    method DrainBroadcasts()
      requires Valid() && |actions| + BROADCASTS_DRAINED_PER_SLOT <= ACTIONS_CAPACITY
      modifies this
      ensures Valid() && heap == old(heap) && txBuf == old(txBuf) && consumedFrames == old(consumedFrames)
      ensures |actions| <= |old(actions)| + BROADCASTS_DRAINED_PER_SLOT && links == old(links) && pendingRoutes == old(pendingRoutes)
    {
      hide Owned, AllIntact, Blocks;
      var n := 0;
      while n < BROADCASTS_DRAINED_PER_SLOT && broadcastQueue != []
        invariant n <= BROADCASTS_DRAINED_PER_SLOT && |actions| == |old(actions)| + n
        invariant Valid() && heap == old(heap) && txBuf == old(txBuf) && consumedFrames == old(consumedFrames)
        invariant links == old(links) && pendingRoutes == old(pendingRoutes)
      {
        QueueBroadcast();
        n := n + 1;
      }
    }

    // ----- actions that are slices of the scratch buffer -----

    /** Appends some bytes to the scratch buffer and queues the action that points at them. */
    method QueueSlice(a: Action, bytes: Bytes)
      requires Valid() && |actions| < ACTIONS_CAPACITY && |txBuf| + |bytes| <= TX_BUF_CAPACITY
      requires a == NoBytes || a == SendData(|txBuf|, |bytes|) || (a.HandUp? && a.start == |txBuf| && a.len == |bytes|)
      modifies this`txBuf, this`actions, this`built
      ensures Valid() && txBuf == old(txBuf) + bytes && actions == old(actions) + [a] && built == old(built) + [bytes]
    {
      hide Owned, AllIntact, Blocks;
      ghost var at := At();
      txBuf := txBuf + bytes;
      actions := actions + [a];
      built := built + [bytes];
      IntactSnoc(old(actions), old(built), heap, old(txBuf), bytes, a, bytes);
      BlocksSnoc(old(actions), a);
      Unmoved(heap, owner, at, At());
    }

    method DeliverLocal(from: Address, payload: Bytes)
      requires Valid() && |actions| < ACTIONS_CAPACITY && |txBuf| + |payload| <= TX_BUF_CAPACITY
      modifies this
      ensures Valid() && heap == old(heap) && consumedFrames == old(consumedFrames)
      ensures actions == old(actions) + [HandUp(from, |old(txBuf)|, |payload|)] && built == old(built) + [payload]
      ensures txBuf == old(txBuf) + payload
    {
      QueueSlice(HandUp(from, |txBuf|, |payload|), payload);
    }

    /** Frees the head of a link queue. */
    method FreeHead(peer: Address)
      requires Valid() && peer in links && links[peer] != []
      modifies this`heap, this`links, this`owner
      ensures Valid()
      ensures links == old(links)[peer := old(links[peer])[1..]] && heap == old(heap) - {old(links[peer])[0]}
    {
      hide AllIntact, Blocks;
      ghost var at := At();
      var b := links[peer][0];
      OneOwner(heap, owner, at, OnLink(peer), 0, Queued);
      OwnerOf(heap, owner, at, OnLink(peer), 0);
      hide Owned;
      IntactFreed(actions, built, heap, txBuf, b);
      Freed(heap, owner, at, Held(broadcastQueue, actions, consumedFrames, links[peer := links[peer][1..]], pendingRoutes), OnLink(peer));
      links := links[peer := links[peer][1..]];
      Free(b);
      owner := owner - {b};
    }

    /** Seals the head of a link queue into the scratch buffer; an oversize head stays. */
    method SendHead(peer: Address) returns (sent: bool)
      requires Valid() && peer in links && links[peer] != [] && |actions| < ACTIONS_CAPACITY
      requires |txBuf| + RELAY_MAX_PAYLOAD + SEAL_OVERHEAD <= TX_BUF_CAPACITY
      modifies this
      ensures Valid() && consumedFrames == old(consumedFrames)
      ensures peer in links && |txBuf| <= |old(txBuf)| + RELAY_MAX_PAYLOAD + SEAL_OVERHEAD && |actions| <= |old(actions)| + 1
      ensures old(links[peer])[0] in old(heap)
      ensures sent <==> |old(heap)[old(links[peer])[0]]| <= RELAY_MAX_PAYLOAD
      ensures sent ==>
                && built == old(built) + [seal(old(heap)[old(links[peer])[0]])]
                && links == old(links)[peer := old(links[peer])[1..]]
      ensures !sent ==> heap == old(heap) && links == old(links) && actions == old(actions)
    {
      hide AllIntact, Blocks;
      OwnerOf(heap, owner, At(), OnLink(peer), 0);
      hide Owned;
      var payload := heap[links[peer][0]];
      if |payload| > RELAY_MAX_PAYLOAD { return false; }
      QueueSlice(SendData(|txBuf|, |seal(payload)|), seal(payload));
      FreeHead(peer);
      return true;
    }

    method Burst(peer: Address)
      requires Valid() && peer in links && |actions| + FRAMES_PER_TX_CELL <= ACTIONS_CAPACITY
      requires |txBuf| + FRAMES_PER_TX_CELL * (RELAY_MAX_PAYLOAD + SEAL_OVERHEAD) <= TX_BUF_CAPACITY
      modifies this
      ensures Valid() && consumedFrames == old(consumedFrames)
      ensures |actions| <= |old(actions)| + FRAMES_PER_TX_CELL
      ensures |txBuf| <= |old(txBuf)| + FRAMES_PER_TX_CELL * (RELAY_MAX_PAYLOAD + SEAL_OVERHEAD)
    {
      hide Owned, AllIntact, Blocks;
      var n := 0;
      while n < FRAMES_PER_TX_CELL && links[peer] != []
        invariant n <= FRAMES_PER_TX_CELL && peer in links && Valid() && consumedFrames == old(consumedFrames)
        invariant |actions| <= |old(actions)| + n
        invariant |txBuf| <= |old(txBuf)| + n * (RELAY_MAX_PAYLOAD + SEAL_OVERHEAD)
      {
        var sent := SendHead(peer);
        if !sent { break; }
        n := n + 1;
      }
    }

    /** A slot's work: broadcasts, at most one burst, a retune, the next wakeup. */
    method HandleSlotWakeup(peer: Option<Address>)
      requires Valid() && Idle() && (peer.Some? ==> peer.value in links)
      modifies this
      ensures Valid() && consumedFrames == [] && |actions| <= BROADCASTS_DRAINED_PER_SLOT + FRAMES_PER_TX_CELL + 2
      ensures |txBuf| <= FRAMES_PER_TX_CELL * (RELAY_MAX_PAYLOAD + SEAL_OVERHEAD) <= TX_BUF_CAPACITY
    {
      hide Owned, AllIntact, Blocks;
      DrainBroadcasts();
      if peer.Some? { Burst(peer.value); }
      QueueSlice(NoBytes, []);
      QueueSlice(NoBytes, []);
    }

    // ----- payload queues -----

    method InstallLink(peer: Address)
      requires Valid()
      modifies this`links
      ensures Valid() && links == if peer in old(links) then old(links) else old(links)[peer := []]
    {
      hide Owned, AllIntact, Blocks;
      ghost var at := At();
      if peer !in links { links := links[peer := []]; }
      Unmoved(heap, owner, at, At());
    }

    /** A copy of the payload joins a link queue that has room. */
    method EnqueueOnLink(peer: Address, payload: Bytes) returns (ok: bool)
      requires Valid() && peer in links
      modifies this`heap, this`nextBlock, this`links, this`owner
      ensures Valid() && (ok <==> |old(links)[peer]| < PENDING_TX_MAX)
      ensures ok ==>
                && heap == old(heap)[old(nextBlock) := payload] && old(nextBlock) !in old(heap)
                && links == old(links)[peer := old(links)[peer] + [old(nextBlock)]]
      ensures !ok ==> heap == old(heap) && links == old(links)
      ensures nextBlock == old(nextBlock) + (if ok then 1 else 0)
    {
      hide Owned, AllIntact, Blocks;
      if |links[peer]| >= PENDING_TX_MAX { return false; }
      ghost var at := At();
      var dup := Dupe(payload);
      links := links[peer := links[peer] + [dup]];
      Given(old(heap), owner, at, At(), OnLink(peer), dup, payload);
      IntactGiven(actions, built, old(heap), txBuf, dup, payload);
      owner := owner[dup := OnLink(peer)];
      return true;
    }

    /** Frees the oldest payload parked for a destination. */
    method FreeParked(dest: Address)
      requires Valid() && dest in pendingRoutes && pendingRoutes[dest] != []
      modifies this`heap, this`pendingRoutes, this`owner
      ensures Valid() && pendingRoutes == old(pendingRoutes)[dest := old(pendingRoutes[dest])[1..]]
      ensures heap == old(heap) - {old(pendingRoutes[dest])[0]}
    {
      hide AllIntact, Blocks;
      ghost var at := At();
      var b := pendingRoutes[dest][0];
      OneOwner(heap, owner, at, ParkedFor(dest), 0, Queued);
      OwnerOf(heap, owner, at, ParkedFor(dest), 0);
      hide Owned;
      IntactFreed(actions, built, heap, txBuf, b);
      Freed(heap, owner, at, Held(broadcastQueue, actions, consumedFrames, links, pendingRoutes[dest := pendingRoutes[dest][1..]]),
            ParkedFor(dest));
      pendingRoutes := pendingRoutes[dest := pendingRoutes[dest][1..]];
      Free(b);
      owner := owner - {b};
    }

    method AppendParked(dest: Address, payload: Bytes)
      requires Valid() && dest in pendingRoutes
      modifies this`heap, this`nextBlock, this`pendingRoutes, this`owner
      ensures Valid() && pendingRoutes == old(pendingRoutes)[dest := old(pendingRoutes[dest]) + [old(nextBlock)]]
      ensures heap == old(heap)[old(nextBlock) := payload] && old(nextBlock) !in old(heap)
    {
      hide Owned, AllIntact, Blocks;
      ghost var at, heap0 := At(), heap;
      var dup := Dupe(payload);
      pendingRoutes := pendingRoutes[dest := pendingRoutes[dest] + [dup]];
      Given(heap0, owner, at, At(), ParkedFor(dest), dup, payload);
      IntactGiven(actions, built, heap0, txBuf, dup, payload);
      owner := owner[dup := ParkedFor(dest)];
    }

    /** Parks a copy of a payload until a route is known; the ninth pushes out, and frees, the oldest. */
    method Park(dest: Address, payload: Bytes)
      requires Valid()
      modifies this`heap, this`nextBlock, this`pendingRoutes, this`owner
      ensures Valid()
      ensures var before: seq<nat> := if dest in old(pendingRoutes) then old(pendingRoutes)[dest] else [];
              var full := |before| >= PENDING_PER_DEST_MAX;
              var kept: seq<nat> := if full then before[1..] else before;
              && pendingRoutes == old(pendingRoutes)[dest := kept + [old(nextBlock)]]
              && heap == (if full then old(heap) - {before[0]} else old(heap))[old(nextBlock) := payload]
    {
      hide Owned, AllIntact, Blocks;
      if dest !in pendingRoutes {
        ghost var at := At();
        pendingRoutes := pendingRoutes[dest := []];
        Unmoved(heap, owner, at, At());
      }
      if |pendingRoutes[dest]| >= PENDING_PER_DEST_MAX { FreeParked(dest); }
      AppendParked(dest, payload);
    }

    /** What is parked is live, and parked once. */
    lemma ParkedIsLive(dest: Address)
      requires Valid() && dest in pendingRoutes
      ensures NoDuplicates(pendingRoutes[dest]) && forall b :: b in pendingRoutes[dest] ==> b in heap
    {
      hide AllIntact, Blocks;
      assert At()(ParkedFor(dest)) == pendingRoutes[dest];
    }

    /** Hands the first parked payload to the link, if that has room, and frees the original. */
    method FlushOne(peer: Address, dest: Address)
      requires Valid() && peer in links && dest in pendingRoutes && pendingRoutes[dest] != []
      modifies this`heap, this`nextBlock, this`links, this`pendingRoutes, this`owner
      ensures Valid() && pendingRoutes == old(pendingRoutes)[dest := old(pendingRoutes[dest])[1..]] && old(pendingRoutes[dest])[0] in old(heap)
      ensures var b := old(pendingRoutes[dest])[0];
              var ok := |old(links[peer])| < PENDING_TX_MAX;
              && heap == (if ok then old(heap)[old(nextBlock) := old(heap)[b]] else old(heap)) - {b}
              && links == (if ok then old(links)[peer := old(links[peer]) + [old(nextBlock)]] else old(links))
              && nextBlock == old(nextBlock) + (if ok then 1 else 0)
    {
      hide Owned, AllIntact, Blocks;
      assert pendingRoutes[dest][0] in heap by { OwnerOf(heap, owner, At(), ParkedFor(dest), 0); }
      var _ := EnqueueOnLink(peer, heap[pendingRoutes[dest][0]]);
      FreeParked(dest);
    }

    /**
     Hands what is parked for a destination to a link: the payloads that the link has room for are copied to fresh
     blocks at its end, in order, and every original is freed.
     */
    method Flush(peer: Address, dest: Address)
      requires Valid() && peer in links && dest in pendingRoutes
      modifies this`heap, this`nextBlock, this`links, this`pendingRoutes, this`owner
      ensures Valid() && peer in links && pendingRoutes == old(pendingRoutes) - {dest}
      ensures var parked := old(pendingRoutes[dest]);
              var k := Fitting(|old(links[peer])|, |parked|);
              && links == old(links)[peer := old(links[peer]) + FreshBlocks(old(nextBlock), k)]
              && Copied(old(heap), heap, parked, old(nextBlock), k)
              && heap.Keys == old(heap).Keys - Elements(parked) + Elements(FreshBlocks(old(nextBlock), k))
    {
      hide Owned, AllIntact, Blocks, Handed, Copied;
      ghost var parked, heap0, list0, next0 := pendingRoutes[dest], heap, links[peer], nextBlock;
      ghost var done := 0;
      ParkedIsLive(dest);
      HandedNone(heap, list0, parked, next0);
      while pendingRoutes[dest] != []
        invariant Valid() && peer in links && dest in pendingRoutes && pendingRoutes - {dest} == old(pendingRoutes) - {dest}
        invariant done <= |parked| && pendingRoutes[dest] == parked[done..]
        invariant Handed(heap0, heap, list0, links[peer], parked, done, next0)
        invariant links == old(links)[peer := links[peer]] && nextBlock == next0 + Fitting(|list0|, done)
        decreases |pendingRoutes[dest]|
      {
        ghost var heap1, list1 := heap, links[peer];
        HandedSizes(heap0, heap, list0, list1, parked, done, next0);
        FlushOne(peer, dest);
        HandedStep(heap0, heap1, heap, list0, list1, links[peer], parked, done, next0);
        done := done + 1;
      }
      HandedAll(heap0, heap, list0, links[peer], parked, done, next0);
      ghost var at := At();
      pendingRoutes := pendingRoutes - {dest};
      Unmoved(heap, owner, at, At());
    }

    /** Hands everything parked for these destinations to the link. */
    method FlushAll(peer: Address, routed: seq<Address>)
      requires Valid() && peer in links
      modifies this`heap, this`nextBlock, this`links, this`pendingRoutes, this`owner
      ensures Valid() && peer in links
    {
      hide Owned, AllIntact, Blocks;
      for i := 0 to |routed|
        invariant Valid() && peer in links
      {
        if routed[i] in pendingRoutes { Flush(peer, routed[i]); }
      }
    }

    // ----- the host takes the actions -----

    /** Frees every frame the host is done with. */
    method FreeConsumed()
      requires Valid()
      modifies this`heap, this`consumedFrames, this`owner
      ensures Valid() && consumedFrames == []
    {
      hide AllIntact, Blocks, Owned;
      while consumedFrames != []
        invariant Valid()
        decreases |consumedFrames|
      {
        ghost var at := At();
        var b := consumedFrames[0];
        OneOwner(heap, owner, at, Consumed, 0, Queued);
        OwnerOf(heap, owner, at, Consumed, 0);
        IntactFreed(actions, built, heap, txBuf, b);
        Freed(heap, owner, at, Held(broadcastQueue, actions, consumedFrames[1..], links, pendingRoutes), Consumed);
        consumedFrames := consumedFrames[1..];
        Free(b);
        owner := owner - {b};
      }
    }

    /** Takes the next action; with none left, frees the consumed frames and resets the scratch buffer. */
    method NextAction() returns (more: bool, act: Action)
      requires Valid() && |consumedFrames| < CONSUMED_CAPACITY
      modifies this
      ensures Valid() && broadcastQueue == old(broadcastQueue) && links == old(links) && pendingRoutes == old(pendingRoutes)
      ensures more <==> old(actions) != []
      ensures more ==> act == old(actions)[0] && actions == old(actions)[1..] && built == old(built)[1..]
      ensures more ==> old(built) != [] && Intact(act, heap, txBuf, old(built)[0]) && heap == old(heap)
      ensures more ==> |consumedFrames| <= |old(consumedFrames)| + 1
      ensures !more ==> Idle()
    {
      hide Blocks, Owned;
      if actions == [] {
        FreeConsumed();
        txBuf := [];
        return false, NoBytes;
      }
      ghost var at := At();
      act := actions[0];
      IntactTail(actions, built, heap, txBuf);
      hide AllIntact;
      BlocksHead(actions);
      if act.SendBroadcast? { consumedFrames := consumedFrames + [act.block]; }
      actions := actions[1..];
      built := built[1..];
      if act.SendBroadcast? {
        Moved(heap, owner, at, At(), Queued, Consumed);
        owner := owner[act.block := Consumed];
      } else {
        Unmoved(heap, owner, at, At());
      }
      return true, act;
    }

    /** The host's loop: afterwards nothing is queued, held or in scratch use. */
    method DrainActions()
      requires Valid() && |consumedFrames| + |actions| < CONSUMED_CAPACITY
      modifies this
      ensures Valid() && Idle() && broadcastQueue == old(broadcastQueue) && links == old(links) && pendingRoutes == old(pendingRoutes)
    {
      hide Owned, AllIntact, Blocks;
      var more := true;
      while more
        invariant Valid() && (!more ==> Idle()) && |consumedFrames| + |actions| < CONSUMED_CAPACITY
        invariant broadcastQueue == old(broadcastQueue) && links == old(links) && pendingRoutes == old(pendingRoutes)
        decreases more, |actions|
      {
        var act;
        more, act := NextAction();
      }
    }

    // ----- the end -----

    method FreeLinks()
      requires Valid()
      modifies this`heap, this`links, this`owner
      ensures Valid() && forall p :: p in links ==> links[p] == []
    {
      hide Owned, AllIntact, Blocks;
      var todo := links.Keys;
      while todo != {}
        invariant Valid() && todo <= links.Keys == old(links).Keys && forall p :: p in links && p !in todo ==> links[p] == []
      {
        var peer :| peer in todo;
        while links[peer] != []
          invariant Valid() && peer in links && links.Keys == old(links).Keys
          invariant forall p :: p in links && p !in todo ==> links[p] == []
          decreases |links[peer]|
        {
          FreeHead(peer);
        }
        todo := todo - {peer};
      }
    }

    method FreeAllParked()
      requires Valid()
      modifies this`heap, this`pendingRoutes, this`owner
      ensures Valid() && forall d :: d in pendingRoutes ==> pendingRoutes[d] == []
    {
      hide Owned, AllIntact, Blocks;
      var todo := pendingRoutes.Keys;
      while todo != {}
        invariant Valid() && todo <= pendingRoutes.Keys == old(pendingRoutes).Keys && forall d :: d in pendingRoutes && d !in todo ==> pendingRoutes[d] == []
      {
        var dest :| dest in todo;
        while pendingRoutes[dest] != []
          invariant Valid() && dest in pendingRoutes && pendingRoutes.Keys == old(pendingRoutes).Keys
          invariant forall d :: d in pendingRoutes && d !in todo ==> pendingRoutes[d] == []
          decreases |pendingRoutes[dest]|
        {
          FreeParked(dest);
        }
        todo := todo - {dest};
      }
    }

    method FreeBroadcasts()
      requires Valid()
      modifies this`heap, this`broadcastQueue, this`owner
      ensures Valid() && broadcastQueue == []
    {
      hide AllIntact, Blocks, Owned;
      while broadcastQueue != []
        invariant Valid()
        decreases |broadcastQueue|
      {
        ghost var at := At();
        var b := broadcastQueue[0];
        OneOwner(heap, owner, at, Waiting, 0, Queued);
        OwnerOf(heap, owner, at, Waiting, 0);
        IntactFreed(actions, built, heap, txBuf, b);
        Freed(heap, owner, at, Held(broadcastQueue[1..], actions, consumedFrames, links, pendingRoutes), Waiting);
        broadcastQueue := broadcastQueue[1..];
        Free(b);
        owner := owner - {b};
      }
    }

    /** Gives every block back except frames still in the action queue: those, and only those, leak. */
    method Deinit()
      requires Valid()
      modifies this
      ensures heap.Keys == Elements(Blocks(old(actions)))
    {
      hide Owned, AllIntact, Blocks;
      FreeLinks();
      FreeAllParked();
      FreeBroadcasts();
      FreeConsumed();
      OnlyQueuedLeft(heap, owner, At());
    }

    /** One call, from idle, with the host's loop run after it. */
    method Serve(call: Call)
      requires Valid() && Idle()
      modifies this
      ensures Valid() && Idle()
    {
      hide Owned, AllIntact, Blocks;
      match call {
        case Start =>
          QueueSlice(NoBytes, []);
          QueueSlice(NoBytes, []);
        case AnnounceWakeup => QueueSlice(NoBytes, []);
        case SlotWakeup(beacon, ready) =>
          if beacon.Some? { QueueFrame(beacon.value); }
          HandleSlotWakeup(if ready.Some? && ready.value in links then ready else None);
        case HearBeacon(rearms) => if rearms { QueueSlice(NoBytes, []); }
        case Receive(from, payload) =>
          if |payload| <= RELAY_MAX_PAYLOAD { DeliverLocal(from, payload); }
        case Forward(via, payload) =>
          if via in links { var _ := EnqueueOnLink(via, payload); }
        case Send(dest, via, payload) =>
          if |payload| <= ROUTE_MAX_PAYLOAD {
            if via in links { var _ := EnqueueOnLink(via, payload); } else { Park(dest, payload); }
          }
        case Link(peer, routed) =>
          InstallLink(peer);
          FlushAll(peer, routed);
        case Reply(peer, routed) =>
          if peer in links { FlushAll(peer, routed); }
        case Frame(bytes) => QueueFrame(bytes);
      }
      DrainActions();
    }

    /**
     Any calls in any order, then the end: no block is freed twice or used after it was freed, no capacity is exceeded,
     and nothing leaks.
     */
    method Run(calls: seq<Call>)
      requires Valid() && Idle()
      modifies this
      ensures heap == map[]
    {
      hide Owned, AllIntact, Blocks;
      for i := 0 to |calls|
        invariant Valid() && Idle()
      {
        Serve(calls[i]);
      }
      Deinit();
      NoBlocks();
    }
  }

  lemma NoBlocks()
    ensures Elements(Blocks([])) == {}
  {
  }

  lemma OnlyQueuedLeft(heap: map<nat, Bytes>, owner: map<nat, Place>, at: Holdings)
    requires Owned(heap, owner, at) && forall p :: p != Queued ==> at(p) == []
    ensures heap.Keys == Elements(at(Queued))
  {
    forall b ensures b in heap.Keys <==> b in at(Queued) {
      if b in owner { assert b in at(owner[b]); }
    }
  }
}
