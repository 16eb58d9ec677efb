/** Constants, integer widths and over-the-air frames of the SLoRa stack. */
module Types {
  type Address = nat
  type Payload = seq<nat>

  type U16 = x: nat | x < 0x1_0000
  type U32 = x: nat | x < 0x1_0000_0000
  type U64 = x: nat | x < 0x1_0000_0000_0000_0000

  const ROUTE_RADIUS: nat := 10
  const ROUTE_MAX_PAYLOAD: nat := 192
  const RELAY_MAX_PAYLOAD: nat := 191
  const PENDING_TX_MAX: nat := 32
  const PENDING_PER_DEST_MAX: nat := 8
  const MAX_LINKS_PER_NODE: nat := 8
  const FRAMES_PER_TX_CELL: nat := 4
  const BROADCASTS_DRAINED_PER_SLOT: nat := 32
  const RREQ_RETRY_NS: nat := 20_000_000_000
  const LINK_RETRY_NS: nat := 5_000_000_000

  datatype Option<+T> = None | Some(value: T)

  /** The `+|` operator on `u16`. */
  function SatAdd(a: U16, b: nat): (r: U16)
    ensures a <= r
    ensures 0 < b ==> a < r || a == r == 0xFFFF
  {
    if a + b < 0x1_0000 then a + b else 0xFFFF
  }

  /** The `+%= 1` operator on `u64`. */
  function WrapSucc(a: U64): U64 {
    (a + 1) % 0x1_0000_0000_0000_0000
  }

  /** `@truncate` from `u64` to `u32`. */
  function Truncate(a: U64): U32 {
    a % 0x1_0000_0000
  }

  /** What an X25519 exchange yields, idealised: the unordered pair of key owners. */
  datatype Shared = Shared(lo: Address, hi: Address)

  /** A BLAKE2b-256 link key, idealised as its own preimage. */
  datatype LinkKey = LinkKey(shared: Shared, lo: Address, hi: Address)

  function Min(a: Address, b: Address): Address { if a <= b then a else b }

  function Max(a: Address, b: Address): Address { if a <= b then b else a }

  function Ecdh(mine: Address, theirs: Address): Shared {
    Shared(Min(mine, theirs), Max(mine, theirs))
  }

  function DeriveLinkKey(shared: Shared, a: Address, b: Address): LinkKey {
    LinkKey(shared, Min(a, b), Max(a, b))
  }

  datatype LinkOp = Request | Response

  /** Broadcast frames. Signatures are ideal, so `from` is the true sender. */
  datatype Frame =
    | Rreq(dest: Address, from: Address, orig: Address, id: U32, origSeq: U32, cost: U16, radius: nat)
    | Rrep(to: Address, from: Address, orig: Address, id: U32, dstSeq: U32, cost: U16)
    | LinkFrame(op: LinkOp, to: Address, from: Address, xchg: Address)

  datatype Nonce = Nonce(bytes: seq<nat>)

  /** A sealed data frame under ideal AEAD: opening succeeds for exactly `key`. */
  datatype Sealed = Sealed(key: LinkKey, nonce: Nonce, dest: Address, source: Address, payload: Payload)

  function Elements<T(==,!new)>(s: seq<T>): (r: set<T>)
    ensures forall x :: x in r <==> x in s
  {
    set x | x in s
  }

  predicate NoDuplicates<T(==)>(s: seq<T>) {
    forall i, j :: 0 <= i < j < |s| ==> s[i] != s[j]
  }

  lemma SubsetSize<T>(a: set<T>, b: set<T>)
    requires a <= b
    ensures |a| <= |b|
  {
    assert b == a + (b - a);
  }

  /** A list without duplicates inside a set is no longer than the set is big. */
  lemma {:induction false} DistinctCount<T(!new)>(s: seq<T>, bound: set<T>)
    requires NoDuplicates(s) && Elements(s) <= bound
    ensures |s| <= |bound|
  {
    if s != [] {
      var front, last := s[..|s| - 1], s[|s| - 1];
      assert forall x :: x in front ==> x != last;
      DistinctCount(front, bound - {last});
    }
  }

  /** Some order in which a hash map with these keys may be walked. */
  ghost function AnyOrder(s: set<Address>): (r: seq<Address>)
    ensures NoDuplicates(r) && Elements(r) == s
  {
    if s == {} then []
    else
      var x :| x in s;
      [x] + AnyOrder(s - {x})
  }
}
