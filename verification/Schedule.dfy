/** Slot and channel arithmetic of the TSCH schedule. */
module Schedule {
  import opened Types

  const SLOT_NS: nat := 100_000_000
  const SLOTFRAME_LEN: nat := 16
  const NUM_CHANNELS: nat := 16
  const BASE_FREQ_HZ: nat := 903_250_000
  const CHANNEL_SPACING_HZ: nat := 1_600_000
  const SUB_CHANNEL_HZ: nat := 500_000
  const HOP_SEQUENCE: seq<nat> := [0, 5, 10, 15, 1, 6, 11, 2, 7, 12, 3, 8, 13, 4, 9, 14]

  datatype Cell = Cell(slotOffset: nat, chOffset: nat)

  /** The two BLAKE2b words the cell of an address is taken from. */
  type CellHash = Address -> (U32, U32)

  function SlotOffset(asn: nat): nat { asn % SLOTFRAME_LEN }

  function WallclockAtAsn(asn: nat): nat { asn * SLOT_NS }

  function PhysicalChannel(asn: nat, chOffset: nat): (ch: nat)
    ensures ch < NUM_CHANNELS
  {
    HOP_SEQUENCE[(asn + chOffset) % NUM_CHANNELS]
  }

  function FrequencyHz(ch: nat): nat { BASE_FREQ_HZ + ch * CHANNEL_SPACING_HZ }

  /** Slot 0 is kept for beacons. */
  function AutonomousRxCell(hash: CellHash, addr: Address): (cell: Cell)
    ensures 1 <= cell.slotOffset < SLOTFRAME_LEN && cell.chOffset < NUM_CHANNELS
  {
    Cell(1 + hash(addr).0 % (SLOTFRAME_LEN - 1), hash(addr).1 % NUM_CHANNELS)
  }

  /** The frequency of a cell at a given slot number. */
  function CellFrequency(asn: nat, cell: Cell): nat {
    FrequencyHz(PhysicalChannel(asn, cell.chOffset))
  }

  /** The frequency a node listens on in its own slot. */
  function RxFrequency(hash: CellHash, addr: Address): nat {
    var cell := AutonomousRxCell(hash, addr);
    CellFrequency(cell.slotOffset, cell)
  }

  /** Slot number at a local time, `offset` being the clock correction. */
  function Asn(offset: int, now: int): nat
    requires now + offset >= 0
  {
    (now + offset) / SLOT_NS
  }

  /** The hop sequence is a permutation of the channels. */
  lemma HopIsPermutation()
    ensures |HOP_SEQUENCE| == NUM_CHANNELS && NoDuplicates(HOP_SEQUENCE)
    ensures forall c :: 0 <= c < NUM_CHANNELS ==> c in HOP_SEQUENCE
  {
    assert HOP_SEQUENCE[0] == 0 && HOP_SEQUENCE[4] == 1 && HOP_SEQUENCE[7] == 2 && HOP_SEQUENCE[10] == 3;
    assert HOP_SEQUENCE[13] == 4 && HOP_SEQUENCE[1] == 5 && HOP_SEQUENCE[5] == 6 && HOP_SEQUENCE[8] == 7;
    assert HOP_SEQUENCE[11] == 8 && HOP_SEQUENCE[14] == 9 && HOP_SEQUENCE[2] == 10 && HOP_SEQUENCE[6] == 11;
    assert HOP_SEQUENCE[9] == 12 && HOP_SEQUENCE[12] == 13 && HOP_SEQUENCE[15] == 14 && HOP_SEQUENCE[3] == 15;
  }

  lemma ChannelsWrap(a: nat, b: nat)
    ensures (a + b) % NUM_CHANNELS == (a % NUM_CHANNELS + b) % NUM_CHANNELS
  {
  }

  /**
   Since the slotframe is as long as the hop sequence, a cell is always on the same channel: a sender whose slot number
   has the cell's slot offset uses the cell's one frequency, whatever the slot number.
   */
  lemma CellNeverHops(hash: CellHash, addr: Address, asn: nat)
    requires SlotOffset(asn) == AutonomousRxCell(hash, addr).slotOffset
    ensures CellFrequency(asn, AutonomousRxCell(hash, addr)) == RxFrequency(hash, addr)
  {
    var cell := AutonomousRxCell(hash, addr);
    SameChannel(asn, cell.slotOffset, cell.chOffset);
    hide AutonomousRxCell, PhysicalChannel, SlotOffset;
  }

  lemma SameChannel(asn: nat, slot: nat, chOffset: nat)
    requires SlotOffset(asn) == slot
    ensures PhysicalChannel(asn, chOffset) == PhysicalChannel(slot, chOffset)
  {
    ChannelsWrap(asn, chOffset);
  }

  /** In one slot, two cells share a frequency only if they share their channel offset. */
  lemma CellsKeepApart(asn: nat, a: Cell, b: Cell)
    requires a.chOffset < NUM_CHANNELS && b.chOffset < NUM_CHANNELS
    ensures CellFrequency(asn, a) == CellFrequency(asn, b) <==> a.chOffset == b.chOffset
  {
    if a.chOffset != b.chOffset {
      IndicesDiffer(asn, a.chOffset, b.chOffset);
      HopsDiffer((asn + a.chOffset) % NUM_CHANNELS, (asn + b.chOffset) % NUM_CHANNELS);
    }
  }

  lemma HopsDiffer(i: nat, j: nat)
    requires i < NUM_CHANNELS && j < NUM_CHANNELS && i != j
    ensures |HOP_SEQUENCE| == NUM_CHANNELS && HOP_SEQUENCE[i] != HOP_SEQUENCE[j]
  {
    HopIsPermutation();
  }

  lemma IndicesDiffer(asn: nat, a: nat, b: nat)
    requires a < NUM_CHANNELS && b < NUM_CHANNELS && a != b
    ensures (asn + a) % NUM_CHANNELS != (asn + b) % NUM_CHANNELS
  {
  }

  /** The next slot boundary: strictly later, at most one slot away, and the next slot number. */
  lemma NextBoundary(offset: int, now: int)
    requires now + offset >= 0
    ensures var next := WallclockAtAsn(Asn(offset, now) + 1) - offset;
            && now < next <= now + SLOT_NS
            && (next + offset) % SLOT_NS == 0
            && Asn(offset, next) == Asn(offset, now) + 1
  {
    var a := Asn(offset, now);
    assert now + offset == a * SLOT_NS + (now + offset) % SLOT_NS;
    assert (a + 1) * SLOT_NS / SLOT_NS == a + 1;
  }
}
