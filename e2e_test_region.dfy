/**
 * Layout of the shared-memory regions used by the end-to-end (E2E) test:
 * the stage enum, the stage register, the fill record with its host-owned and
 * guest-owned halves, the number of fill records that cover a region, and the
 * catalogue of region variants.
 *
 * Sizes are named constants for the declared fields; the layout base classes
 * are taken to contribute no bytes.
 */
module E2ETest {
  import opened Wrappers

  /** std::size_t on the 64-bit targets: values below 2^64. */
  const SizeLimit: int := 0x1_0000_0000_0000_0000
  type SizeT = x: int | 0 <= x < SizeLimit

  type U32 = x: int | 0 <= x < 0x1_0000_0000

  /** One `char` of a shared buffer. */
  type Byte = x: int | 0 <= x < 256

  // ---------------------------------------------------------------------------
  // Test stages and the stage register
  // ---------------------------------------------------------------------------

  /** E2ETestStage: how far one side of the test has progressed. */
  datatype Stage = StageNone | MemoryFilled | PeerMemoryRead

  /** The enumerator's integral value, as stored in a register. */
  function Code(s: Stage): (c: U32)
    ensures c < 3
  {
    match s
    case StageNone => 0
    case MemoryFilled => 1
    case PeerMemoryRead => 2
  }

  /**
   * Reading a raw register value back as a stage. The getter casts any 32-bit
   * value to the enum; a value with no enumerator is `None` here.
   */
  function Decode(c: U32): (r: Option<Stage>)
    ensures r.Some? <==> c < 3
    ensures r.Some? ==> Code(r.value) == c
  {
    if c == 0 then Some(StageNone)
    else if c == 1 then Some(MemoryFilled)
    else if c == 2 then Some(PeerMemoryRead)
    else None
  }

  /** The three stages have the codes 0, 1 and 2, in protocol order. */
  lemma StageCodes()
    ensures Code(StageNone) == 0 && Code(MemoryFilled) == 1 && Code(PeerMemoryRead) == 2
    ensures Code(StageNone) < Code(MemoryFilled) < Code(PeerMemoryRead)
  {
  }

  /** Storing a stage and reading it back yields the same stage. */
  lemma DecodeCode(s: Stage)
    ensures Decode(Code(s)) == Some(s)
  {
  }

  /** E2ETestStageRegister: a single 32-bit word in shared memory. */
  class StageRegister {
    var value: U32

    /** The register is placed over existing memory holding `raw`. */
    constructor (raw: U32)
      ensures value == raw
    {
      value := raw;
    }

    /** value(): the stored word read as a stage. */
    function Value(): (r: Option<Stage>)
      reads this
      ensures r.Some? <==> value < 3
      ensures r.Some? ==> Code(r.value) == value
    {
      Decode(value)
    }

    /** set_value(): overwrites the stored word with the stage's code. */
    method SetValue(newValue: Stage)
      modifies this
      ensures value == Code(newValue)
      ensures Value() == Some(newValue)
    {
      value := Code(newValue);
      DecodeCode(newValue);
    }
  }

  // ---------------------------------------------------------------------------
  // Sizes and the number of fill records
  // ---------------------------------------------------------------------------

  /** kOwnedFieldSize: bytes in each side's half of a fill record. */
  const OwnedFieldSize: nat := 32
  /** sizeof(E2EMemoryFill): a host half followed by a guest half. */
  const FillRecordSize: nat := 2 * OwnedFieldSize
  /** sizeof(uint32_t). */
  const WordSize: nat := 4
  /** sizeof(E2ETestStageRegister): one uint32_t. */
  const StageRegisterSize: nat := WordSize
  /** Offset of data[0]: after guest_status and host_status. */
  const RecordsOffset: nat := 2 * StageRegisterSize
  /** sizeof(E2ETestRegionLayout): both registers and the one declared record. */
  const HeaderSize: nat := RecordsOffset + FillRecordSize

  /** Offset of the first byte after `n` records placed at data[0]. */
  function RecordsEnd(n: nat): nat
  {
    RecordsOffset + n * FillRecordSize
  }

  /**
   * NumFillRecords: how many records, starting with the declared data[0],
   * fit in a region of `regionSize` bytes. A region smaller than the layout
   * gets none; otherwise the records stay inside the region and the bytes
   * left after the last one are fewer than a record.
   */
  function NumFillRecords(regionSize: SizeT): (n: SizeT)
    ensures regionSize < HeaderSize ==> n == 0
    ensures HeaderSize <= regionSize ==> 1 <= n
    ensures HeaderSize <= regionSize ==> RecordsEnd(n) <= regionSize
    ensures HeaderSize <= regionSize ==> regionSize - RecordsEnd(n) < FillRecordSize
  {
    if regionSize < HeaderSize then 0
    else
      // the guard above keeps this size_t subtraction from wrapping
      var rest: SizeT := regionSize - HeaderSize;
      1 + rest / FillRecordSize
  }

  /** The count has the closed form 1 + (size - header) / record. */
  lemma NumFillRecordsFormula(regionSize: SizeT)
    requires HeaderSize <= regionSize
    ensures NumFillRecords(regionSize) == 1 + (regionSize - HeaderSize) / FillRecordSize
  {
  }

  /**
   * The two bounds in the contract of NumFillRecords pin the count down: any
   * record count that stays inside the region and leaves less than a record
   * uncovered is the computed one.
   */
  lemma NumFillRecordsUnique(regionSize: SizeT, n: nat)
    requires HeaderSize <= regionSize
    requires RecordsEnd(n) <= regionSize < RecordsEnd(n) + FillRecordSize
    ensures n == NumFillRecords(regionSize)
  {
  }

  /** A region exactly the size of the layout holds the declared record only. */
  lemma HeaderSizedRegion()
    ensures NumFillRecords(HeaderSize) == 1
  {
  }

  /** Three records beyond the layout give four records in all. */
  lemma ThreeExtraRecords()
    ensures NumFillRecords(HeaderSize + 3 * FillRecordSize) == 4
  {
  }

  // ---------------------------------------------------------------------------
  // Fill records and who may write them
  // ---------------------------------------------------------------------------

  /** The two sides of the region. */
  datatype Side = Host | Guest

  function Other(side: Side): (o: Side)
    ensures o != side
  {
    if side == Host then Guest else Host
  }

  /**
   * Byte offset, from the start of the layout, of `side`'s half of record `i`:
   * host_writable comes first in each record, guest_writable second.
   */
  function FieldOffset(i: nat, side: Side): (off: nat)
    ensures RecordsEnd(i) <= off && off + OwnedFieldSize <= RecordsEnd(i + 1)
  {
    RecordsEnd(i) + (if side == Host then 0 else OwnedFieldSize)
  }

  /**
   * In every record the host's half comes first, at the record's start, and
   * the guest's half follows it directly.
   */
  lemma HostHalfFirst(i: nat)
    ensures FieldOffset(i, Host) == RecordsEnd(i)
    ensures FieldOffset(i, Guest) == FieldOffset(i, Host) + OwnedFieldSize
  {
  }

  /** Distinct owned fields never share a byte, whatever record they are in. */
  lemma OwnedFieldsDisjoint(i: nat, a: Side, j: nat, b: Side)
    requires i != j || a != b
    ensures FieldOffset(i, a) + OwnedFieldSize <= FieldOffset(j, b)
         || FieldOffset(j, b) + OwnedFieldSize <= FieldOffset(i, a)
  {
  }

  /**
   * Every owned field of every counted record lies after both stage registers
   * and inside the region.
   */
  lemma OwnedFieldInRegion(regionSize: SizeT, i: nat, side: Side)
    requires i < NumFillRecords(regionSize)
    ensures 2 * StageRegisterSize <= FieldOffset(i, side)
    ensures FieldOffset(i, side) + OwnedFieldSize <= regionSize
  {
  }

  /** E2EMemoryFill: a host-writable and a guest-writable buffer. */
  datatype FillRecord = FillRecord(hostWritable: seq<Byte>, guestWritable: seq<Byte>)

  /** Both halves have kOwnedFieldSize bytes. */
  predicate WellFormed(rec: FillRecord)
  {
    |rec.hostWritable| == OwnedFieldSize && |rec.guestWritable| == OwnedFieldSize
  }

  /** The half of a record that `side` may write. */
  function Owned(rec: FillRecord, side: Side): seq<Byte>
  {
    if side == Host then rec.hostWritable else rec.guestWritable
  }

  /** `side` writes `pattern` into its own half of one record. */
  function WriteOwned(rec: FillRecord, side: Side, pattern: seq<Byte>): (r: FillRecord)
    ensures Owned(r, side) == pattern
    ensures Owned(r, Other(side)) == Owned(rec, Other(side))
  {
    if side == Host then rec.(hostWritable := pattern) else rec.(guestWritable := pattern)
  }

  /** The records after `side` has written `pattern` into its half of each one. */
  function FilledWith(records: seq<FillRecord>, side: Side, pattern: seq<Byte>): seq<FillRecord>
    decreases |records|
  {
    if records == [] then []
    else FilledWith(records[..|records| - 1], side, pattern) + [WriteOwned(records[|records| - 1], side, pattern)]
  }

  /** Record `k` of a fill is record `k` of the input with `side`'s half written. */
  lemma {:induction false} FilledWithAt(records: seq<FillRecord>, side: Side, pattern: seq<Byte>, k: nat)
    requires k < |records|
    ensures |FilledWith(records, side, pattern)| == |records|
    ensures FilledWith(records, side, pattern)[k] == WriteOwned(records[k], side, pattern)
    decreases |records|
  {
    var init := records[..|records| - 1];
    if k < |init| {
      FilledWithAt(init, side, pattern, k);
    } else if init != [] {
      FilledWithAt(init, side, pattern, 0);
    }
  }

  /**
   * A fill keeps the number of records, puts the pattern in `side`'s half of
   * every record and leaves the other side's half of every record unchanged.
   */
  lemma {:induction false} FillWritesOnlyOwnHalf(records: seq<FillRecord>, side: Side, pattern: seq<Byte>)
    ensures |FilledWith(records, side, pattern)| == |records|
    ensures forall k :: 0 <= k < |records| ==>
      Owned(FilledWith(records, side, pattern)[k], side) == pattern &&
      Owned(FilledWith(records, side, pattern)[k], Other(side)) == Owned(records[k], Other(side))
  {
    if records != [] {
      FilledWithAt(records, side, pattern, 0);
    }
    forall k | 0 <= k < |records|
      ensures Owned(FilledWith(records, side, pattern)[k], side) == pattern
      ensures Owned(FilledWith(records, side, pattern)[k], Other(side)) == Owned(records[k], Other(side))
    {
      FilledWithAt(records, side, pattern, k);
    }
  }

  /** Filling with a pattern of the field's size keeps every record well formed. */
  lemma {:induction false} FillKeepsWellFormed(records: seq<FillRecord>, side: Side, pattern: seq<Byte>)
    requires |pattern| == OwnedFieldSize
    requires forall k :: 0 <= k < |records| ==> WellFormed(records[k])
    ensures forall k :: 0 <= k < |FilledWith(records, side, pattern)| ==> WellFormed(FilledWith(records, side, pattern)[k])
  {
    FillWritesOnlyOwnHalf(records, side, pattern);
  }

  /**
   * Because the halves are disjoint, the host's fill and the guest's fill do
   * not interfere: either order gives the same records.
   */
  lemma {:induction false} FillsCommute(records: seq<FillRecord>, hostPattern: seq<Byte>, guestPattern: seq<Byte>)
    ensures FilledWith(FilledWith(records, Host, hostPattern), Guest, guestPattern)
         == FilledWith(FilledWith(records, Guest, guestPattern), Host, hostPattern)
    decreases |records|
  {
    if records != [] {
      var init := records[..|records| - 1];
      var last := records[|records| - 1];
      FillsCommute(init, hostPattern, guestPattern);
      var h := FilledWith(init, Host, hostPattern) + [WriteOwned(last, Host, hostPattern)];
      var g := FilledWith(init, Guest, guestPattern) + [WriteOwned(last, Guest, guestPattern)];
      assert h[..|h| - 1] == FilledWith(init, Host, hostPattern);
      assert g[..|g| - 1] == FilledWith(init, Guest, guestPattern);
    }
  }

  /** Filling twice with the same pattern is the same as filling once. */
  lemma {:induction false} FillIdempotent(records: seq<FillRecord>, side: Side, pattern: seq<Byte>)
    ensures FilledWith(FilledWith(records, side, pattern), side, pattern) == FilledWith(records, side, pattern)
    decreases |records|
  {
    if records != [] {
      var init := records[..|records| - 1];
      FillIdempotent(init, side, pattern);
      var f := FilledWith(records, side, pattern);
      assert f[..|f| - 1] == FilledWith(init, side, pattern);
    }
  }

  // ---------------------------------------------------------------------------
  // The region
  // ---------------------------------------------------------------------------

  /**
   * E2ETestRegionLayout placed over a region of `regionSize` bytes: the guest's
   * and the host's stage registers, then NumFillRecords(regionSize) records.
   */
  class E2ETestRegion {
    const regionSize: SizeT
    const guestStatus: StageRegister
    const hostStatus: StageRegister
    const data: array<FillRecord>

    ghost predicate Valid()
      reads this, data
    {
      && guestStatus != hostStatus
      && HeaderSize <= regionSize
      && data.Length == NumFillRecords(regionSize)
      && forall k :: 0 <= k < data.Length ==> WellFormed(data[k])
    }

    /** The register that `side` publishes its progress in. */
    function Status(side: Side): (r: StageRegister)
      ensures r == (if side == Host then hostStatus else guestStatus)
    {
      if side == Host then hostStatus else guestStatus
    }

    /**
     * The layout placed over memory that already holds the two register words
     * and the records; the region must hold at least the layout itself.
     */
    constructor Place(regionSize: SizeT, guestRaw: U32, hostRaw: U32, records: seq<FillRecord>)
      requires HeaderSize <= regionSize
      requires |records| == NumFillRecords(regionSize)
      requires forall k :: 0 <= k < |records| ==> WellFormed(records[k])
      ensures Valid() && fresh(data) && fresh(guestStatus) && fresh(hostStatus)
      ensures this.regionSize == regionSize && data[..] == records
      ensures guestStatus.value == guestRaw && hostStatus.value == hostRaw
    {
      this.regionSize := regionSize;
      guestStatus := new StageRegister(guestRaw);
      hostStatus := new StageRegister(hostRaw);
      data := new FillRecord[|records|](k requires 0 <= k < |records| => records[k]);
    }

    /**
     * `side` writes `pattern` into its own half of every record, one record at
     * a time; the peer's halves and both registers are left alone.
     */
    method FillOwnHalf(side: Side, pattern: seq<Byte>)
      requires Valid() && |pattern| == OwnedFieldSize
      modifies data
      ensures Valid()
      ensures data[..] == FilledWith(old(data[..]), side, pattern)
      ensures guestStatus.value == old(guestStatus.value) && hostStatus.value == old(hostStatus.value)
    {
      ghost var before := data[..];
      var i := 0;
      while i < data.Length
        invariant 0 <= i <= data.Length
        invariant data[..i] == FilledWith(before[..i], side, pattern)
        invariant data[i..] == before[i..]
      {
        assert before[..i + 1][..i] == before[..i];
        data[i] := WriteOwned(data[i], side, pattern);
        assert data[..i + 1] == data[..i] + [data[i]];
        i := i + 1;
      }
      assert data[..] == data[..i];
      assert before == before[..i];
      FillKeepsWellFormed(before, side, pattern);
    }

    /** `side` publishes `stage` in its own register; nothing else changes. */
    method SetStatus(side: Side, stage: Stage)
      requires Valid()
      modifies Status(side)
      ensures Valid()
      ensures Status(side).Value() == Some(stage)
      ensures Status(Other(side)).value == old(Status(Other(side)).value)
      ensures data[..] == old(data[..])
    {
      Status(side).SetValue(stage);
    }
  }

  // ---------------------------------------------------------------------------
  // Region variants
  // ---------------------------------------------------------------------------

  /** The concrete layouts; their names and patterns are defined elsewhere. */
  datatype Variant = Primary | Secondary | Unfindable | Managed | Manager

  /** What each variant places in its region after the common base. */
  datatype Payload =
    | FillTest      // E2ETestRegionLayout: registers and fill records
    | ManagedVal    // a single uint32_t val
    | ManagerData   // uint32_t data[4]

  function PayloadOf(v: Variant): (p: Payload)
    ensures p == FillTest <==> v in {Primary, Secondary, Unfindable}
    ensures p == ManagedVal <==> v == Managed
    ensures p == ManagerData <==> v == Manager
  {
    match v
    case Primary => FillTest
    case Secondary => FillTest
    case Unfindable => FillTest
    case Managed => ManagedVal
    case Manager => ManagerData
  }

  /**
   * Bytes of the fixed part of each payload. The fill-test layout is the two
   * registers and exactly one record, the smallest region that gets a record;
   * the managed payload is one 32-bit word and the manager's four.
   */
  function PayloadSize(p: Payload): (size: nat)
    ensures p == FillTest ==> size == RecordsEnd(1) && size < SizeLimit
    ensures p == FillTest ==> NumFillRecords(size) == 1 && NumFillRecords(size - 1) == 0
    ensures p == ManagedVal ==> size == WordSize
    ensures p == ManagerData ==> size == 4 * WordSize
  {
    match p
    case FillTest => HeaderSize
    case ManagedVal => 4
    case ManagerData => 4 * 4
  }

  /** The ManagedRegion type alias: only the manager layout declares one. */
  function ManagedRegion(v: Variant): (r: Option<Variant>)
    ensures r.Some? <==> v == Manager
    ensures r.Some? ==> r.value != v && PayloadOf(r.value) == ManagedVal
  {
    if v == Manager then Some(Managed) else None
  }
}
