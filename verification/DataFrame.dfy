/** The plaintext of a data frame, byte by byte. */
module DataFrame {
  import opened Types
  import opened NodeModel

  const RELAY_CATEGORY: nat := 3
  const HEADER_LEN: nat := 33
  const MAX_PLAINTEXT: nat := 224

  datatype Datagram = Datagram(dest: Address, source: Address, payload: Payload)

  predicate IsBytes(s: seq<nat>) {
    forall i :: 0 <= i < |s| ==> s[i] < 256
  }

  /** The number that bytes in little-endian order stand for. */
  function FromLittleEndian(bytes: seq<nat>): nat {
    if bytes == [] then 0 else bytes[0] + 256 * FromLittleEndian(bytes[1..])
  }

  /** What buildDataFrame lays out; a payload too long gives no frame. */
  function Built(m: Datagram): Option<seq<nat>> {
    if |m.payload| > RELAY_MAX_PAYLOAD then None
    else Some([RELAY_CATEGORY] + LittleEndian(m.dest, 16) + LittleEndian(m.source, 16) + m.payload)
  }

  /** What dispatchDecoded reads back: nothing from a short text or from another category. */
  function Dispatched(pt: seq<nat>): Option<Datagram> {
    if |pt| < HEADER_LEN || pt[0] != RELAY_CATEGORY then None
    else Some(Datagram(FromLittleEndian(pt[1..17]), FromLittleEndian(pt[17..33]), pt[33..]))
  }

  lemma {:induction false} ReadsBack(v: nat, n: nat)
    requires v < Pow256(n)
    ensures FromLittleEndian(LittleEndian(v, n)) == v && IsBytes(LittleEndian(v, n))
  {
    if n > 0 {
      assert LittleEndian(v, n)[1..] == LittleEndian(v / 256, n - 1);
      ReadsBack(v / 256, n - 1);
    }
  }

  lemma {:induction false} WritesBack(bytes: seq<nat>)
    requires IsBytes(bytes)
    ensures LittleEndian(FromLittleEndian(bytes), |bytes|) == bytes && FromLittleEndian(bytes) < Pow256(|bytes|)
  {
    if bytes != [] {
      WritesBack(bytes[1..]);
      assert FromLittleEndian(bytes) / 256 == FromLittleEndian(bytes[1..]);
      assert bytes == [bytes[0]] + bytes[1..];
    }
  }

  /** Exactly the payloads of at most 191 bytes are framed, and a framed datagram is read back unchanged at the other end. */
  lemma DispatchReadsBuilt(m: Datagram)
    requires m.dest < Pow256(16) && m.source < Pow256(16)
    ensures Built(m).Some? <==> HEADER_LEN + |m.payload| <= MAX_PLAINTEXT
    ensures Built(m).Some? ==> |Built(m).value| <= MAX_PLAINTEXT && Dispatched(Built(m).value) == Some(m)
  {
    hide LittleEndian, FromLittleEndian, Pow256;
    ReadsBack(m.dest, 16);
    ReadsBack(m.source, 16);
    if Built(m).Some? {
      var pt := Built(m).value;
      assert pt[1..17] == LittleEndian(m.dest, 16);
      assert pt[17..33] == LittleEndian(m.source, 16);
      assert pt[33..] == m.payload;
    }
  }

  /** Nothing else is ever read: a text that yields a datagram is the text that datagram is laid out as. */
  lemma BuildsWhatWasRead(pt: seq<nat>)
    requires IsBytes(pt) && |pt| <= MAX_PLAINTEXT && Dispatched(pt).Some?
    ensures Built(Dispatched(pt).value) == Some(pt)
    ensures Dispatched(pt).value.dest < Pow256(16) && Dispatched(pt).value.source < Pow256(16)
  {
    hide LittleEndian, FromLittleEndian, Pow256;
    WritesBack(pt[1..17]);
    WritesBack(pt[17..33]);
    assert pt == [pt[0]] + pt[1..17] + pt[17..33] + pt[33..];
  }
}
