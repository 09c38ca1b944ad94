/** virtio-scsi requests: command descriptor blocks, the request header, and the buffers of a
    command. */
module Scsi {
  import opened Bytes
  import opened Virtqueue
  import opened Wrappers

  const CDB_SIZE := 32
  const SENSE_SIZE := 96
  const REQUEST_SIZE := 20 + CDB_SIZE
  const RESPONSE_SIZE := 12 + SENSE_SIZE

  datatype Cdb =
    | Inquiry(evpd: bool, pageCode: u32, allocLen: u32)
    | TestUnitReady
    | ReadCapacity10(lba: u32, pmi: bool)
    | ReadCapacity16(lba64: u64, allocLen: u32, pmi: bool)
    | Read10(dpo: bool, fua: bool, lba: u32, transferLen: u32, group: u32)
    | Write10(dpo: bool, fua: bool, lba: u32, transferLen: u32, group: u32, data: blob)
    | Read16(dpo: bool, fua: bool, lba64: u64, transferLen: u32, group: u32)
    | Write16(dpo: bool, fua: bool, lba64: u64, transferLen: u32, group: u32, data: blob)
    | ModeSense6(dbd: bool, pc: u32, pageCode: u32, subpage: u32, allocLen: u32)
    | ModeSelect6(pf: bool, sp: bool, paramLen: u32, parameters: blob)
    | RequestSense(descFormat: bool, allocLen: u32)
    | ReportLuns(selectReport: u32, allocLen: u32)
    | StartStopUnit(immed: bool, power: u32, loej: bool, start: bool)
    | SyncCache10(immed: bool, lba: u32, numBlocks: u32)
    | RawCdb(cdbBytes: blob, outData: blob, inLen: u32)
    | NoCdb

  datatype ScsiCmd = ScsiCmd(
    vqIdx: u32, target: u32, lun: u32, tag: u64, taskAttr: u32, prio: u32, crn: u32, cdb: Cdb)

  function Bit(b: bool, weight: byte): byte { if b then weight else 0 }

  function DpoFua(dpo: bool, fua: bool): byte { Bit(dpo, 0x10) + Bit(fua, 0x08) }

  /** The bytes a packer writes; the rest of the 32-byte field stays zero. */
  function CdbHead(c: Cdb): (s: seq<byte>)
    ensures |s| <= CDB_SIZE
  {
    match c
    case Inquiry(evpd, page, len) => [0x12, Bit(evpd, 1), page % 0x100] + Be16(len % TWO_16) + [0]
    case TestUnitReady => [0]
    case ReadCapacity10(lba, pmi) => [0x25, 0] + Be32(lba) + [0, 0, Bit(pmi, 1)]
    case ReadCapacity16(lba, len, pmi) => [0x9e, 0x10] + Be64(lba) + Be32(len) + [Bit(pmi, 1)]
    case Read10(dpo, fua, lba, len, group) =>
      [0x28, DpoFua(dpo, fua)] + Be32(lba) + [group % 32] + Be16(len % TWO_16) + [0]
    case Write10(dpo, fua, lba, len, group, _) =>
      [0x2a, DpoFua(dpo, fua)] + Be32(lba) + [group % 32] + Be16(len % TWO_16) + [0]
    case Read16(dpo, fua, lba, len, group) => [0x88, DpoFua(dpo, fua)] + Be64(lba) + Be32(len) + [group % 32, 0]
    case Write16(dpo, fua, lba, len, group, _) => [0x8a, DpoFua(dpo, fua)] + Be64(lba) + Be32(len) + [group % 32, 0]
    case ModeSense6(dbd, pc, page, subpage, len) =>
      [0x1a, Bit(dbd, 0x08), pc % 4 * 64 + page % 64, subpage % 0x100, len % 0x100, 0]
    case ModeSelect6(pf, sp, len, _) => [0x15, Bit(pf, 0x10) + Bit(sp, 1), 0, 0, len % 0x100, 0]
    case RequestSense(desc, len) => [0x03, Bit(desc, 1), 0, 0, len % 0x100, 0]
    case ReportLuns(select, len) => [0xa0, 0, select % 0x100, 0, 0, 0] + Be32(len) + [0, 0]
    case StartStopUnit(immed, power, loej, start) =>
      [0x1b, Bit(immed, 1), 0, 0, power % 16 * 16 + Bit(loej, 2) + Bit(start, 1), 0]
    case SyncCache10(immed, lba, blocks) => [0x35, Bit(immed, 2)] + Be32(lba) + [0] + Be16(blocks % TWO_16) + [0]
    case RawCdb(bytes, _, _) => Truncate(bytes, CDB_SIZE)
    case NoCdb => [0]
  }

  function CdbBytes(c: Cdb): (s: seq<byte>)
    ensures |s| == CDB_SIZE
  {
    Resize(CdbHead(c), CDB_SIZE)
  }

  /** Length of the data the device returns, and of the data it is given, as the packers compute
      them: the multiplications by the block size are 32-bit. */
  function InLength(c: Cdb): u32 {
    match c
    case Inquiry(_, _, len) => len % TWO_16
    case ReadCapacity10(_, _) => 8
    case ReadCapacity16(_, len, _) => len
    case Read10(_, _, _, len, _) => len % TWO_16 * 512
    case Read16(_, _, _, len, _) => Wrap32(len * 512)
    case ModeSense6(_, _, _, _, len) => len % 0x100
    case RequestSense(_, len) => len % 0x100
    case ReportLuns(_, len) => len
    case RawCdb(_, _, len) => Min(len, 4096)
    case _ => 0
  }

  function OutLength(c: Cdb): u32 {
    match c
    case Write10(_, _, _, len, _, _) => len % TWO_16 * 512
    case Write16(_, _, _, len, _, _) => Wrap32(len * 512)
    case ModeSelect6(_, _, len, _) => len % 0x100
    case RawCdb(_, out, _) => Min(|out|, 4096)
    case _ => 0
  }

  function OutData(c: Cdb): blob {
    match c
    case Write10(_, _, _, _, _, data) => data
    case Write16(_, _, _, _, _, data) => data
    case ModeSelect6(_, _, _, parameters) => parameters
    case RawCdb(_, out, _) => out
    case _ => []
  }

  // Reading a CDB back, from the field offsets of the SCSI commands.

  function B16(s: seq<byte>, i: nat): u16
    requires i + 2 <= |s|
  {
    UnBe16([s[i], s[i + 1]])
  }

  function B32(s: seq<byte>, i: nat): u32
    requires i + 4 <= |s|
  {
    UnBe32([s[i], s[i + 1], s[i + 2], s[i + 3]])
  }

  function B64(s: seq<byte>, i: nat): u64
    requires i + 8 <= |s|
  {
    B32(s, i) * TWO_32 + B32(s, i + 4)
  }

  function DecodeCdb(s: seq<byte>): Option<Cdb>
    requires |s| == CDB_SIZE
  {
    if s[0] == 0x28 || s[0] == 0x2a then Some(DecodeTen(s))
    else if s[0] == 0x88 || s[0] == 0x8a then Some(DecodeSixteen(s))
    else if s[0] == 0x9e then Some(ReadCapacity16(B64(s, 2), B32(s, 10), s[14] % 2 == 1))
    else if s[0] == 0x12 then Some(Inquiry(Set(s[1], 1), s[2], B16(s, 3)))
    else if s[0] == 0x25 then Some(ReadCapacity10(B32(s, 2), s[8] % 2 == 1))
    else if s[0] == 0xa0 then Some(ReportLuns(s[2], B32(s, 6)))
    else if s[0] == 0x35 then Some(SyncCache10(Set(s[1], 2), B32(s, 2), B16(s, 7)))
    else DecodeShort(s)
  }

  /** Whether the bit of value `mask` is set. */
  predicate Set(b: byte, mask: nat)
    requires mask > 0
  {
    b / mask % 2 == 1
  }

  function DecodeTen(s: seq<byte>): Cdb
    requires |s| == CDB_SIZE
  {
    var dpo, fua, lba, len := Set(s[1], 0x10), Set(s[1], 0x08), B32(s, 2), B16(s, 7);
    if s[0] == 0x28 then Read10(dpo, fua, lba, len, s[6]) else Write10(dpo, fua, lba, len, s[6], [])
  }

  function DecodeSixteen(s: seq<byte>): Cdb
    requires |s| == CDB_SIZE
  {
    var dpo, fua, lba, len := Set(s[1], 0x10), Set(s[1], 0x08), B64(s, 2), B32(s, 10);
    if s[0] == 0x88 then Read16(dpo, fua, lba, len, s[14]) else Write16(dpo, fua, lba, len, s[14], [])
  }

  function DecodeShort(s: seq<byte>): Option<Cdb>
    requires |s| == CDB_SIZE
  {
    if s[0] == 0x00 then Some(TestUnitReady)
    else if s[0] == 0x1a then Some(ModeSense6(Set(s[1], 0x08), s[2] / 64, s[2] % 64, s[3], s[4]))
    else if s[0] == 0x15 then Some(ModeSelect6(Set(s[1], 0x10), Set(s[1], 1), s[4], []))
    else if s[0] == 0x03 then Some(RequestSense(Set(s[1], 1), s[4]))
    else if s[0] == 0x1b then Some(StartStopUnit(Set(s[1], 1), s[4] / 16, Set(s[4], 2), Set(s[4], 1)))
    else None
  }

  /** The input fields under the packers' masks; the data travels in its own buffer. */
  function Masked(c: Cdb): Cdb {
    match c
    case Inquiry(evpd, page, len) => Inquiry(evpd, page % 0x100, len % TWO_16)
    case Read10(dpo, fua, lba, len, group) => Read10(dpo, fua, lba, len % TWO_16, group % 32)
    case Write10(dpo, fua, lba, len, group, _) => Write10(dpo, fua, lba, len % TWO_16, group % 32, [])
    case Read16(dpo, fua, lba, len, group) => Read16(dpo, fua, lba, len, group % 32)
    case Write16(dpo, fua, lba, len, group, _) => Write16(dpo, fua, lba, len, group % 32, [])
    case ModeSense6(dbd, pc, page, subpage, len) =>
      ModeSense6(dbd, pc % 4, page % 64, subpage % 0x100, len % 0x100)
    case ModeSelect6(pf, sp, len, _) => ModeSelect6(pf, sp, len % 0x100, [])
    case RequestSense(desc, len) => RequestSense(desc, len % 0x100)
    case ReportLuns(select, len) => ReportLuns(select % 0x100, len)
    case StartStopUnit(immed, power, loej, start) => StartStopUnit(immed, power % 16, loej, start)
    case SyncCache10(immed, lba, blocks) => SyncCache10(immed, lba, blocks % TWO_16)
    case NoCdb => TestUnitReady
    case _ => c
  }

  lemma Be16At(s: seq<byte>, i: nat, n: u16)
    requires i + 2 <= |s| && s[i] == Be16(n)[0] && s[i + 1] == Be16(n)[1]
    ensures B16(s, i) == n
  {
  }

  lemma Be32At(s: seq<byte>, i: nat, n: u32)
    requires i + 4 <= |s| && forall k | 0 <= k < 4 :: s[i + k] == Be32(n)[k]
    ensures B32(s, i) == n
  {
    assert s[i + 0] == Be32(n)[0];
    assert [s[i], s[i + 1], s[i + 2], s[i + 3]] == Be32(n);
    Be32RoundTrip(n);
  }

  lemma Be64At(s: seq<byte>, i: nat, n: u64)
    requires i + 8 <= |s| && forall k | 0 <= k < 8 :: s[i + k] == Be64(n)[k]
    ensures B64(s, i) == n
  {
    forall k | 0 <= k < 4
      ensures s[i + k] == Be32(n / TWO_32)[k]
      ensures s[i + 4 + k] == Be32(n % TWO_32)[k]
    {
      assert s[i + k] == Be64(n)[k] && s[i + (4 + k)] == Be64(n)[4 + k];
    }
    Be32At(s, i, n / TWO_32);
    Be32At(s, i + 4, n % TWO_32);
  }

  lemma CdbHeadBytes(c: Cdb)
    ensures forall i | 0 <= i < |CdbHead(c)| :: CdbBytes(c)[i] == CdbHead(c)[i]
    ensures forall i | |CdbHead(c)| <= i < CDB_SIZE :: CdbBytes(c)[i] == 0
  {
  }

  lemma ModeRoundTrip(c: Cdb)
    requires c.ModeSense6? || c.ModeSelect6?
    ensures DecodeCdb(CdbBytes(c)) == Some(Masked(c))
  {
    CdbHeadBytes(c);
  }

  lemma ShortRoundTrip(c: Cdb)
    requires c.TestUnitReady? || c.NoCdb? || c.RequestSense? || c.StartStopUnit?
    ensures DecodeCdb(CdbBytes(c)) == Some(Masked(c))
  {
    CdbHeadBytes(c);
  }

  lemma InquiryRoundTrip(c: Cdb)
    requires c.Inquiry?
    ensures DecodeCdb(CdbBytes(c)) == Some(Masked(c))
  {
    CdbHeadBytes(c);
    Be16At(CdbBytes(c), 3, c.allocLen % TWO_16);
  }

  lemma ReportLunsRoundTrip(c: Cdb)
    requires c.ReportLuns?
    ensures DecodeCdb(CdbBytes(c)) == Some(Masked(c))
  {
    CdbHeadBytes(c);
    assert forall k | 0 <= k < 4 :: CdbHead(c)[6 + k] == Be32(c.allocLen)[k];
    Be32At(CdbBytes(c), 6, c.allocLen);
  }

  lemma Capacity10RoundTrip(c: Cdb)
    requires c.ReadCapacity10?
    ensures DecodeCdb(CdbBytes(c)) == Some(Masked(c))
  {
    CdbHeadBytes(c);
    assert forall k | 0 <= k < 4 :: CdbHead(c)[2 + k] == Be32(c.lba)[k];
    Be32At(CdbBytes(c), 2, c.lba);
  }

  lemma SyncCacheRoundTrip(c: Cdb)
    requires c.SyncCache10?
    ensures DecodeCdb(CdbBytes(c)) == Some(Masked(c))
  {
    CdbHeadBytes(c);
    assert forall k | 0 <= k < 4 :: CdbHead(c)[2 + k] == Be32(c.lba)[k];
    Be32At(CdbBytes(c), 2, c.lba);
    Be16At(CdbBytes(c), 7, c.numBlocks % TWO_16);
  }

  lemma Flags(dpo: bool, fua: bool)
    ensures Set(DpoFua(dpo, fua), 0x10) <==> dpo
    ensures Set(DpoFua(dpo, fua), 0x08) <==> fua
  {
  }

  lemma TenRoundTrip(c: Cdb)
    requires c.Read10? || c.Write10?
    ensures DecodeCdb(CdbBytes(c)) == Some(Masked(c))
  {
    var s := CdbBytes(c);
    CdbHeadBytes(c);
    Flags(c.dpo, c.fua);
    assert forall k | 0 <= k < 4 :: CdbHead(c)[2 + k] == Be32(c.lba)[k];
    Be32At(s, 2, c.lba);
    Be16At(s, 7, c.transferLen % TWO_16);
  }

  lemma SixteenFields(c: Cdb)
    requires c.Read16? || c.Write16?
    ensures var s := CdbBytes(c);
            && s[0] == (if c.Read16? then 0x88 else 0x8a) && s[1] == DpoFua(c.dpo, c.fua) && s[14] == c.group % 32
            && B64(s, 2) == c.lba64 && B32(s, 10) == c.transferLen
  {
    CdbHeadBytes(c);
    SixteenNumbers(c);
  }

  lemma SixteenNumbers(c: Cdb)
    requires c.Read16? || c.Write16?
    ensures B64(CdbBytes(c), 2) == c.lba64 && B32(CdbBytes(c), 10) == c.transferLen
  {
    var s := CdbBytes(c);
    CdbHeadBytes(c);
    assert forall k | 0 <= k < 8 :: CdbHead(c)[2 + k] == Be64(c.lba64)[k];
    assert forall k | 0 <= k < 4 :: CdbHead(c)[10 + k] == Be32(c.transferLen)[k];
    Be64At(s, 2, c.lba64);
    Be32At(s, 10, c.transferLen);
  }

  lemma SixteenRoundTrip(c: Cdb)
    requires c.Read16? || c.Write16?
    ensures DecodeCdb(CdbBytes(c)) == Some(Masked(c))
  {
    SixteenFields(c);
    Flags(c.dpo, c.fua);
  }

  lemma Capacity16RoundTrip(c: Cdb)
    requires c.ReadCapacity16?
    ensures DecodeCdb(CdbBytes(c)) == Some(Masked(c))
  {
    var s := CdbBytes(c);
    CdbHeadBytes(c);
    assert forall k | 0 <= k < 8 :: CdbHead(c)[2 + k] == Be64(c.lba64)[k];
    assert forall k | 0 <= k < 4 :: CdbHead(c)[10 + k] == Be32(c.allocLen)[k];
    Be64At(s, 2, c.lba64);
    Be32At(s, 10, c.allocLen);
  }

  /** Every typed CDB decodes to the fields it was built from, under the packers' masks. */
  lemma CdbRoundTrip(c: Cdb)
    requires !c.RawCdb?
    ensures DecodeCdb(CdbBytes(c)) == Some(Masked(c))
  {
    if c.Read10? || c.Write10? {
      TenRoundTrip(c);
    } else if c.Read16? || c.Write16? {
      SixteenRoundTrip(c);
    } else if c.ReadCapacity16? {
      Capacity16RoundTrip(c);
    } else if c.Inquiry? {
      InquiryRoundTrip(c);
    } else if c.ReportLuns? {
      ReportLunsRoundTrip(c);
    } else if c.ReadCapacity10? {
      Capacity10RoundTrip(c);
    } else if c.SyncCache10? {
      SyncCacheRoundTrip(c);
    } else if c.ModeSense6? || c.ModeSelect6? {
      ModeRoundTrip(c);
    } else {
      ShortRoundTrip(c);
    }
  }

  // The bytes between the fields.

  /** Which bytes of a CDB carry something. */
  function FieldBytes(c: Cdb): set<nat> {
    match c
    case Inquiry(_, _, _) => {0, 1, 2, 3, 4}
    case ReadCapacity10(_, _) => {0, 2, 3, 4, 5, 8}
    case ReadCapacity16(_, _, _) => {0, 1, 2, 3, 4, 5, 6, 7, 8, 9, 10, 11, 12, 13, 14}
    case Read10(_, _, _, _, _) => {0, 1, 2, 3, 4, 5, 6, 7, 8}
    case Write10(_, _, _, _, _, _) => {0, 1, 2, 3, 4, 5, 6, 7, 8}
    case Read16(_, _, _, _, _) => {0, 1, 2, 3, 4, 5, 6, 7, 8, 9, 10, 11, 12, 13, 14}
    case Write16(_, _, _, _, _, _) => {0, 1, 2, 3, 4, 5, 6, 7, 8, 9, 10, 11, 12, 13, 14}
    case ModeSense6(_, _, _, _, _) => {0, 1, 2, 3, 4}
    case ReportLuns(_, _) => {0, 2, 6, 7, 8, 9}
    case SyncCache10(_, _, _) => {0, 1, 2, 3, 4, 5, 7, 8}
    case _ => {0, 1, 4}
  }

  /** The flags next to the operation code: their weights, and the service action of READ CAPACITY (16). */
  function FlagByte(c: Cdb): nat {
    match c
    case Inquiry(evpd, _, _) => if evpd then 0x01 else 0
    case ReadCapacity16(_, _, _) => 0x10
    case Read10(dpo, fua, _, _, _) => (if dpo then 0x10 else 0) + (if fua then 0x08 else 0)
    case Write10(dpo, fua, _, _, _, _) => (if dpo then 0x10 else 0) + (if fua then 0x08 else 0)
    case Read16(dpo, fua, _, _, _) => (if dpo then 0x10 else 0) + (if fua then 0x08 else 0)
    case Write16(dpo, fua, _, _, _, _) => (if dpo then 0x10 else 0) + (if fua then 0x08 else 0)
    case ModeSense6(dbd, _, _, _, _) => if dbd then 0x08 else 0
    case ModeSelect6(pf, sp, _, _) => (if pf then 0x10 else 0) + (if sp then 0x01 else 0)
    case RequestSense(desc, _) => if desc then 0x01 else 0
    case StartStopUnit(immed, _, _, _) => if immed then 0x01 else 0
    case SyncCache10(immed, _, _) => if immed then 0x02 else 0
    case _ => 0
  }

  /** Nothing but the fields: no other flag, and zeros wherever no field lies. */
  predicate NothingElse(s: seq<byte>, c: Cdb)
    requires |s| == CDB_SIZE
  {
    && s[1] == FlagByte(c) && (forall i | 0 <= i < CDB_SIZE && i !in FieldBytes(c) :: s[i] == 0)
    && (c.ReadCapacity10? ==> s[8] < 2) && (c.ReadCapacity16? ==> s[14] < 2)
    && (c.StartStopUnit? ==> s[4] % 16 < 4)
  }

  lemma CdbHasNothingElse(c: Cdb)
    requires !c.RawCdb?
    ensures NothingElse(CdbBytes(c), c)
  {
    FlagsAre(c);
    forall i | 0 <= i < CDB_SIZE && i !in FieldBytes(c) ensures CdbBytes(c)[i] == 0 {
      SpareByte(c, i);
    }
  }

  lemma FlagsAre(c: Cdb)
    requires !c.RawCdb?
    ensures var s := CdbBytes(c);
            && s[1] == FlagByte(c) && (c.ReadCapacity10? ==> s[8] < 2) && (c.ReadCapacity16? ==> s[14] < 2)
            && (c.StartStopUnit? ==> s[4] % 16 < 4)
  {
    CdbHeadBytes(c);
  }

  lemma SpareByte(c: Cdb, i: nat)
    requires !c.RawCdb? && i < CDB_SIZE && i !in FieldBytes(c)
    ensures CdbBytes(c)[i] == 0
  {
    CdbHeadBytes(c);
  }

  // The request header and the buffers.

  /** Single-level LUN form. Bits 6 and 7 of the LUN are dropped. */
  function Lun(target: u32, lun: u32): (s: seq<byte>)
    ensures |s| == 8
  {
    [1, target % 0x100, 0x40 + lun % 64, lun / 0x100 % 0x100, 0, 0, 0, 0]
  }

  function Request(c: ScsiCmd): (s: blob)
    ensures |s| == REQUEST_SIZE
  {
    Lun(c.target, c.lun) + Le64(c.tag) + [c.taskAttr % 8, c.prio % 0x100, c.crn % 0x100, 0] + CdbBytes(c.cdb)
  }

  function Capped(n: u32): u32 { Min(n, 4096) }

  /** The write data, cut or zero-padded to the length the CDB announces. */
  function OutBuffer(c: Cdb): (s: blob)
    ensures |s| == Capped(OutLength(c))
  {
    Resize(OutData(c), Capped(OutLength(c)))
  }

  function Parts(c: ScsiCmd): seq<Part> {
    [Part(Whole(Request(c)), false)]
    + (if OutLength(c.cdb) > 0 then [Part(Whole(OutBuffer(c.cdb)), false)] else [])
    + [Part(Whole(Zeros(RESPONSE_SIZE)), true)]
    + (if InLength(c.cdb) > 0 then [Part(Whole(Zeros(Capped(InLength(c.cdb)))), true)] else [])
  }

  function CommandSubmission(c: ScsiCmd): Submission {
    Submission(c.vqIdx % 8, 5, Parts(c), |Parts(c)|, true, [])
  }

  lemma BlockMultiple(len: u32)
    ensures Wrap32(len * 512) > 0 <==> len % 0x80_0000 != 0
  {
  }

  /** A command is well formed, and its optional buffers exist exactly when its CDB announces a
      non-zero number of bytes modulo 2^32: a 16-byte READ or WRITE of a multiple of 2^23 blocks
      has no data buffer at all. */
  lemma CommandShape(c: ScsiCmd)
    ensures CommandSubmission(c).Valid(8) && ReadableFirst(Parts(c))
    ensures |Parts(c)| == 2 + (if OutLength(c.cdb) > 0 then 1 else 0) + (if InLength(c.cdb) > 0 then 1 else 0)
    ensures c.cdb.Read16? ==> (|Parts(c)| == 3 <==> c.cdb.transferLen % 0x80_0000 != 0)
    ensures c.cdb.Write16? ==> (|Parts(c)| == 3 <==> c.cdb.transferLen % 0x80_0000 != 0)
  {
    if c.cdb.Read16? || c.cdb.Write16? {
      BlockMultiple(c.cdb.transferLen);
    }
    PartsReadableFirst(c);
  }

  lemma PartsReadableFirst(c: ScsiCmd)
    ensures ReadableFirst(Parts(c))
  {
    var parts := Parts(c);
    var k := if OutLength(c.cdb) > 0 then 2 else 1;
    forall i | 0 <= i < |parts| ensures parts[i].writable <==> i >= k {
    }
  }

  /** The three parts of a request a device picks out of its first descriptor. */
  datatype RequestView = RequestView(
    lun: seq<byte>, tag: u64, taskAttr: byte, prio: byte, crn: byte, spare: byte, cdb: seq<byte>)

  function ParseRequest(s: seq<byte>): RequestView
    requires |s| == REQUEST_SIZE
  {
    RequestView(s[..8], UnLe64(s[8..16]), s[16], s[17], s[18], s[19], s[20..])
  }

  lemma RequestRoundTrip(c: ScsiCmd)
    ensures ParseRequest(Request(c)) ==
            RequestView(Lun(c.target, c.lun), c.tag, c.taskAttr % 8, c.prio % 0x100, c.crn % 0x100, 0, CdbBytes(c.cdb))
  {
    var s := Request(c);
    assert s[..8] == Lun(c.target, c.lun) && s[8..16] == Le64(c.tag) && s[20..] == CdbBytes(c.cdb);
    Le64RoundTrip(c.tag);
  }

  // Task management and asynchronous notification, on the control queue.

  datatype TmfReq = TmfReq(subtype: u32, target: u32, lun: u32, tag: u64)
  datatype AnReq = AnReq(subtype: u32, target: u32, lun: u32, eventRequested: u32)

  function TmfRequest(m: TmfReq): (s: blob)
    ensures |s| == 24
  {
    Le32(0) + Le32(m.subtype) + Lun(m.target, m.lun) + Le64(m.tag)
  }

  function AnRequest(m: AnReq): (s: blob)
    ensures |s| == 16
  {
    Le32(if m.subtype == 1 then 1 else 2) + Lun(m.target, m.lun) + Le32(m.eventRequested)
  }

  lemma TmfRoundTrip(m: TmfReq)
    ensures var s := TmfRequest(m);
            && UnLe32(s[..4]) == 0 && UnLe32(s[4..8]) == m.subtype
            && s[8..16] == Lun(m.target, m.lun) && UnLe64(s[16..]) == m.tag
  {
    var s := TmfRequest(m);
    assert s[..4] == Le32(0) && s[4..8] == Le32(m.subtype) && s[16..] == Le64(m.tag);
    Le32RoundTrip(0);
    Le32RoundTrip(m.subtype);
    Le64RoundTrip(m.tag);
  }

  lemma AnRoundTrip(m: AnReq)
    ensures var s := AnRequest(m);
            && (UnLe32(s[..4]) == 1 <==> m.subtype == 1) && UnLe32(s[..4]) in {1, 2}
            && s[4..12] == Lun(m.target, m.lun) && UnLe32(s[12..]) == m.eventRequested
  {
    var s := AnRequest(m);
    var t := if m.subtype == 1 then 1 else 2;
    assert s[..4] == Le32(t) && s[12..] == Le32(m.eventRequested);
    Le32RoundTrip(t);
    Le32RoundTrip(m.eventRequested);
  }
}
