/** The scsi harness at work: packers that fill the request in place, and the three submit
    functions. */
module ScsiHarness {
  import opened Bytes
  import opened Guest
  import opened Virtqueue
  import opened DriverCore
  import opened Assembly
  import opened Chain
  import opened Confinement
  import opened SubmissionTheorems
  import opened Scsi
  import opened Wrappers

  /** Where the CDB starts in the request. */
  const CDB := 20

  /** `memcpy` into a request. */
  method Poke(a: array<byte>, off: nat, bytes: seq<byte>)
    requires off + |bytes| <= a.Length
    modifies a
    ensures forall i | 0 <= i < a.Length ::
              a[i] == if off <= i < off + |bytes| then bytes[i - off] else old(a[i])
  {
    forall i | 0 <= i < |bytes| {
      a[off + i] := bytes[i];
    }
  }

  method PackBe16(a: array<byte>, off: nat, v: u16)
    requires off + 2 <= a.Length
    modifies a
    ensures forall i | 0 <= i < a.Length :: a[i] == if off <= i < off + 2 then Be16(v)[i - off] else old(a[i])
  {
    a[off] := v / 0x100;
    a[off + 1] := v % 0x100;
  }

  method PackBe32(a: array<byte>, off: nat, v: u32)
    requires off + 4 <= a.Length
    modifies a
    ensures forall i | 0 <= i < a.Length :: a[i] == if off <= i < off + 4 then Be32(v)[i - off] else old(a[i])
  {
    BigEndian(v);
    a[off] := v / 0x100_0000;
    a[off + 1] := v / 0x1_0000 % 0x100;
    a[off + 2] := v / 0x100 % 0x100;
    a[off + 3] := v % 0x100;
  }

  method PackBe64(a: array<byte>, off: nat, v: u64)
    requires off + 8 <= a.Length
    modifies a
    ensures forall i | 0 <= i < a.Length :: a[i] == if off <= i < off + 8 then Be64(v)[i - off] else old(a[i])
  {
    PackBe32(a, off, v / TWO_32);
    PackBe32(a, off + 4, v % TWO_32);
  }

  method EncodeLun(a: array<byte>, off: nat, target: u32, lun: u32)
    requires off + 8 <= a.Length
    modifies a
    ensures forall i | 0 <= i < a.Length ::
              a[i] == if off <= i < off + 8 then Lun(target, lun)[i - off] else old(a[i])
  {
    a[off] := 1;
    a[off + 1] := target % 0x100;
    a[off + 2] := 0x40 + lun % 64;
    a[off + 3] := lun / 0x100 % 0x100;
    a[off + 4], a[off + 5], a[off + 6], a[off + 7] := 0, 0, 0, 0;
  }

  predicate Blank(req: array<byte>)
    reads req
  {
    req.Length == REQUEST_SIZE && forall i | CDB <= i < REQUEST_SIZE :: req[i] == 0
  }

  twostate predicate Packed(req: array<byte>, c: Cdb)
    requires req.Length == REQUEST_SIZE
    reads req
  {
    (forall i | 0 <= i < CDB :: req[i] == old(req[i])) && forall i | 0 <= i < CDB_SIZE :: req[CDB + i] == CdbBytes(c)[i]
  }

  method PackInquiry(req: array<byte>, c: Cdb) returns (inLen: u32, outLen: u32)
    requires Blank(req) && c.Inquiry?
    modifies req
    ensures Packed(req, c) && inLen == InLength(c) && outLen == OutLength(c)
  {
    req[CDB] := 0x12;
    req[CDB + 1] := if c.evpd then 1 else 0;
    req[CDB + 2] := c.pageCode % 0x100;
    PackBe16(req, CDB + 3, c.allocLen % TWO_16);
    req[CDB + 5] := 0;
    inLen, outLen := c.allocLen % TWO_16, 0;
    CdbHeadBytes(c);
  }

  method PackReadCapacity10(req: array<byte>, c: Cdb) returns (inLen: u32, outLen: u32)
    requires Blank(req) && c.ReadCapacity10?
    modifies req
    ensures Packed(req, c) && inLen == InLength(c) && outLen == OutLength(c)
  {
    req[CDB] := 0x25;
    req[CDB + 1] := 0;
    PackBe32(req, CDB + 2, c.lba);
    req[CDB + 6], req[CDB + 7] := 0, 0;
    req[CDB + 8] := if c.pmi then 1 else 0;
    inLen, outLen := 8, 0;
    CdbHeadBytes(c);
  }

  method PackReadCapacity16(req: array<byte>, c: Cdb) returns (inLen: u32, outLen: u32)
    requires Blank(req) && c.ReadCapacity16?
    modifies req
    ensures Packed(req, c) && inLen == InLength(c) && outLen == OutLength(c)
  {
    req[CDB] := 0x9e;
    req[CDB + 1] := 0x10;
    PackBe64(req, CDB + 2, c.lba64);
    PackBe32(req, CDB + 10, c.allocLen);
    req[CDB + 14] := if c.pmi then 1 else 0;
    inLen, outLen := c.allocLen, 0;
    CdbHeadBytes(c);
  }

  /** The layout the 10-byte READ and WRITE share. */
  function TenBytes(code: byte, flags: byte, lba: u32, group: byte, len: u16): (s: seq<byte>)
    ensures |s| == 10
  {
    [code, flags] + Be32(lba) + [group] + Be16(len) + [0]
  }

  method PackFront(req: array<byte>, code: byte, flags: byte, lba: u32)
    requires req.Length == REQUEST_SIZE
    modifies req
    ensures req[CDB] == code && req[CDB + 1] == flags && forall i | 0 <= i < 4 :: req[CDB + 2 + i] == Be32(lba)[i]
    ensures forall i | 0 <= i < CDB || CDB + 6 <= i < REQUEST_SIZE :: req[i] == old(req[i])
  {
    req[CDB] := code;
    req[CDB + 1] := flags;
    PackBe32(req, CDB + 2, lba);
  }

  method PackBack(req: array<byte>, group: byte, len: u16)
    requires req.Length == REQUEST_SIZE
    modifies req
    ensures req[CDB + 6] == group && req[CDB + 7] == Be16(len)[0] && req[CDB + 8] == Be16(len)[1] && req[CDB + 9] == 0
    ensures forall i | 0 <= i < CDB + 6 || CDB + 10 <= i < REQUEST_SIZE :: req[i] == old(req[i])
  {
    req[CDB + 6] := group;
    PackBe16(req, CDB + 7, len);
    req[CDB + 9] := 0;
  }

  method PackTenBytes(req: array<byte>, code: byte, flags: byte, lba: u32, group: byte, len: u16)
    requires req.Length == REQUEST_SIZE
    modifies req
    ensures forall i | 0 <= i < 10 :: req[CDB + i] == TenBytes(code, flags, lba, group, len)[i]
    ensures forall i | 0 <= i < CDB || CDB + 10 <= i < REQUEST_SIZE :: req[i] == old(req[i])
  {
    PackFront(req, code, flags, lba);
    PackBack(req, group, len);
  }

  method PackTen(req: array<byte>, c: Cdb) returns (inLen: u32, outLen: u32)
    requires Blank(req) && (c.Read10? || c.Write10?)
    modifies req
    ensures Packed(req, c) && inLen == InLength(c) && outLen == OutLength(c)
  {
    var code := if c.Read10? then 0x28 else 0x2a;
    var flags := (if c.dpo then 0x10 else 0) + (if c.fua then 0x08 else 0);
    PackTenBytes(req, code, flags, c.lba, c.group % 32, c.transferLen % TWO_16);
    inLen, outLen := 0, 0;
    if c.Read10? {
      inLen := c.transferLen % TWO_16 * 512;
    } else {
      outLen := c.transferLen % TWO_16 * 512;
    }
    CdbHeadBytes(c);
    assert CdbHead(c) == TenBytes(code, flags, c.lba, c.group % 32, c.transferLen % TWO_16);
  }

  /** The layout the 16-byte READ and WRITE share. */
  function SixteenBytes(code: byte, flags: byte, lba: u64, len: u32, group: byte): (s: seq<byte>)
    ensures |s| == 16
  {
    [code, flags] + Be64(lba) + Be32(len) + [group, 0]
  }

  method PackLongFront(req: array<byte>, code: byte, flags: byte, lba: u64)
    requires req.Length == REQUEST_SIZE
    modifies req
    ensures req[CDB] == code && req[CDB + 1] == flags && forall i | 0 <= i < 8 :: req[CDB + 2 + i] == Be64(lba)[i]
    ensures forall i | 0 <= i < CDB || CDB + 10 <= i < REQUEST_SIZE :: req[i] == old(req[i])
  {
    req[CDB] := code;
    req[CDB + 1] := flags;
    PackBe64(req, CDB + 2, lba);
  }

  method PackLongBack(req: array<byte>, len: u32, group: byte)
    requires req.Length == REQUEST_SIZE
    modifies req
    ensures (forall i | 0 <= i < 4 :: req[CDB + 10 + i] == Be32(len)[i]) && req[CDB + 14] == group && req[CDB + 15] == 0
    ensures forall i | 0 <= i < CDB + 10 || CDB + 16 <= i < REQUEST_SIZE :: req[i] == old(req[i])
  {
    PackBe32(req, CDB + 10, len);
    req[CDB + 14] := group;
    req[CDB + 15] := 0;
  }

  method PackSixteenBytes(req: array<byte>, code: byte, flags: byte, lba: u64, len: u32, group: byte)
    requires req.Length == REQUEST_SIZE
    modifies req
    ensures forall i | 0 <= i < 16 :: req[CDB + i] == SixteenBytes(code, flags, lba, len, group)[i]
    ensures forall i | 0 <= i < CDB || CDB + 16 <= i < REQUEST_SIZE :: req[i] == old(req[i])
  {
    PackLongFront(req, code, flags, lba);
    PackLongBack(req, len, group);
  }

  method PackSixteen(req: array<byte>, c: Cdb) returns (inLen: u32, outLen: u32)
    requires Blank(req) && (c.Read16? || c.Write16?)
    modifies req
    ensures Packed(req, c) && inLen == InLength(c) && outLen == OutLength(c)
  {
    var code := if c.Read16? then 0x88 else 0x8a;
    var flags := (if c.dpo then 0x10 else 0) + (if c.fua then 0x08 else 0);
    PackSixteenBytes(req, code, flags, c.lba64, c.transferLen, c.group % 32);
    inLen, outLen := 0, 0;
    if c.Read16? {
      inLen := Wrap32(c.transferLen * 512);
    } else {
      outLen := Wrap32(c.transferLen * 512);
    }
    CdbHeadBytes(c);
    assert CdbHead(c) == SixteenBytes(code, flags, c.lba64, c.transferLen, c.group % 32);
  }

  /** MODE SENSE, MODE SELECT and REQUEST SENSE in their 6-byte forms. */
  method PackSixBytes(req: array<byte>, a: byte, b: byte, c: byte, e: byte, f: byte)
    requires req.Length == REQUEST_SIZE
    modifies req
    ensures forall i | 0 <= i < 6 :: req[CDB + i] == [a, b, c, e, f, 0][i]
    ensures forall i | 0 <= i < CDB || CDB + 6 <= i < REQUEST_SIZE :: req[i] == old(req[i])
  {
    req[CDB] := a;
    req[CDB + 1] := b;
    req[CDB + 2] := c;
    req[CDB + 3] := e;
    req[CDB + 4] := f;
    req[CDB + 5] := 0;
  }

  method PackSix(req: array<byte>, c: Cdb) returns (inLen: u32, outLen: u32)
    requires Blank(req) && (c.ModeSense6? || c.ModeSelect6? || c.RequestSense?)
    modifies req
    ensures Packed(req, c) && inLen == InLength(c) && outLen == OutLength(c)
  {
    match c {
      case ModeSense6(dbd, pc, page, subpage, len) =>
        PackSixBytes(req, 0x1a, if dbd then 0x08 else 0, pc % 4 * 64 + page % 64, subpage % 0x100, len % 0x100);
        inLen, outLen := len % 0x100, 0;
      case ModeSelect6(pf, sp, len, _) =>
        PackSixBytes(req, 0x15, (if pf then 0x10 else 0) + (if sp then 1 else 0), 0, 0, len % 0x100);
        inLen, outLen := 0, len % 0x100;
      case RequestSense(desc, len) =>
        PackSixBytes(req, 0x03, if desc then 1 else 0, 0, 0, len % 0x100);
        inLen, outLen := len % 0x100, 0;
    }
    CdbHeadBytes(c);
  }

  method PackReportHead(req: array<byte>, select: byte)
    requires req.Length == REQUEST_SIZE
    modifies req
    ensures forall i | 0 <= i < REQUEST_SIZE ::
              req[i] == if CDB <= i < CDB + 6 then [0xa0, 0, select, 0, 0, 0][i - CDB] else old(req[i])
  {
    req[CDB] := 0xa0;
    req[CDB + 1] := 0;
    req[CDB + 2] := select;
    req[CDB + 3], req[CDB + 4], req[CDB + 5] := 0, 0, 0;
  }

  method PackReportLuns(req: array<byte>, c: Cdb) returns (inLen: u32, outLen: u32)
    requires Blank(req) && c.ReportLuns?
    modifies req
    ensures Packed(req, c) && inLen == InLength(c) && outLen == OutLength(c)
  {
    PackReportHead(req, c.selectReport % 0x100);
    PackBe32(req, CDB + 6, c.allocLen);
    req[CDB + 10], req[CDB + 11] := 0, 0;
    inLen, outLen := c.allocLen, 0;
    CdbHeadBytes(c);
  }

  method PackStartStopUnit(req: array<byte>, c: Cdb) returns (inLen: u32, outLen: u32)
    requires Blank(req) && c.StartStopUnit?
    modifies req
    ensures Packed(req, c) && inLen == InLength(c) && outLen == OutLength(c)
  {
    req[CDB] := 0x1b;
    req[CDB + 1] := if c.immed then 1 else 0;
    req[CDB + 2], req[CDB + 3] := 0, 0;
    req[CDB + 4] := c.power % 16 * 16 + (if c.loej then 2 else 0) + (if c.start then 1 else 0);
    req[CDB + 5] := 0;
    inLen, outLen := 0, 0;
    CdbHeadBytes(c);
  }

  method PackSyncCache10(req: array<byte>, c: Cdb) returns (inLen: u32, outLen: u32)
    requires Blank(req) && c.SyncCache10?
    modifies req
    ensures Packed(req, c) && inLen == InLength(c) && outLen == OutLength(c)
  {
    req[CDB] := 0x35;
    req[CDB + 1] := if c.immed then 2 else 0;
    PackBe32(req, CDB + 2, c.lba);
    req[CDB + 6] := 0;
    PackBe16(req, CDB + 7, c.numBlocks % TWO_16);
    req[CDB + 9] := 0;
    inLen, outLen := 0, 0;
    CdbHeadBytes(c);
  }

  method PackRaw(req: array<byte>, c: Cdb) returns (inLen: u32, outLen: u32)
    requires Blank(req) && (c.RawCdb? || c.TestUnitReady? || c.NoCdb?)
    modifies req
    ensures Packed(req, c) && inLen == InLength(c) && outLen == OutLength(c)
  {
    if c.RawCdb? {
      Poke(req, CDB, Truncate(c.cdbBytes, CDB_SIZE));
      inLen, outLen := Min(c.inLen, 4096), Min(|c.outData|, 4096);
    } else {
      req[CDB] := 0x00;
      inLen, outLen := 0, 0;
    }
    CdbHeadBytes(c);
  }

  method PackCdb(req: array<byte>, c: Cdb) returns (inLen: u32, outLen: u32)
    requires Blank(req)
    modifies req
    ensures Packed(req, c) && inLen == InLength(c) && outLen == OutLength(c)
  {
    match c
    case Inquiry(_, _, _) => inLen, outLen := PackInquiry(req, c);
    case ReadCapacity10(_, _) => inLen, outLen := PackReadCapacity10(req, c);
    case ReadCapacity16(_, _, _) => inLen, outLen := PackReadCapacity16(req, c);
    case Read10(_, _, _, _, _) => inLen, outLen := PackTen(req, c);
    case Write10(_, _, _, _, _, _) => inLen, outLen := PackTen(req, c);
    case Read16(_, _, _, _, _) => inLen, outLen := PackSixteen(req, c);
    case Write16(_, _, _, _, _, _) => inLen, outLen := PackSixteen(req, c);
    case ModeSense6(_, _, _, _, _) => inLen, outLen := PackSix(req, c);
    case ModeSelect6(_, _, _, _) => inLen, outLen := PackSix(req, c);
    case RequestSense(_, _) => inLen, outLen := PackSix(req, c);
    case ReportLuns(_, _) => inLen, outLen := PackReportLuns(req, c);
    case StartStopUnit(_, _, _, _) => inLen, outLen := PackStartStopUnit(req, c);
    case SyncCache10(_, _, _) => inLen, outLen := PackSyncCache10(req, c);
    case _ => inLen, outLen := PackRaw(req, c);
  }

  function Header(c: ScsiCmd): (s: seq<byte>)
    ensures |s| == CDB
  {
    Lun(c.target, c.lun) + Le64(c.tag) + [c.taskAttr % 8, c.prio % 0x100, c.crn % 0x100, 0]
  }

  method BuildHeader(req: array<byte>, c: ScsiCmd)
    requires Blank(req)
    modifies req
    ensures Blank(req) && forall i | 0 <= i < CDB :: req[i] == Header(c)[i]
  {
    EncodeLun(req, 0, c.target, c.lun);
    Poke(req, 8, Le64(c.tag));
    req[16] := c.taskAttr % 8;
    req[17] := c.prio % 0x100;
    req[18] := c.crn % 0x100;
    req[19] := 0;
  }

  lemma RequestIsHeaderAndCdb(c: ScsiCmd, s: seq<byte>)
    requires |s| == REQUEST_SIZE
    requires forall i | 0 <= i < CDB :: s[i] == Header(c)[i]
    requires forall i | 0 <= i < CDB_SIZE :: s[CDB + i] == CdbBytes(c.cdb)[i]
    ensures s == Request(c)
  {
    assert s[..CDB] == Header(c) && s[CDB..] == CdbBytes(c.cdb);
    assert s == s[..CDB] + s[CDB..];
  }

  method BuildRequest(c: ScsiCmd) returns (req: array<byte>, inLen: u32, outLen: u32)
    ensures fresh(req) && req[..] == Request(c)
    ensures inLen == InLength(c.cdb) && outLen == OutLength(c.cdb)
  {
    req := new byte[REQUEST_SIZE](_ => 0);
    BuildHeader(req, c);
    inLen, outLen := PackCdb(req, c.cdb);
    RequestIsHeaderAndCdb(c, req[..]);
  }

  // The buffers, in chain order. Ids are consecutive, so the map entries read at the end are those
  // just made.

  // Staging: at most four buffers, allocated in the order of the chain.

  function ResponseAt(c: ScsiCmd): nat { if OutLength(c.cdb) > 0 then 2 else 1 }

  lemma PartsAt(c: ScsiCmd)
    ensures var k, parts := ResponseAt(c), Parts(c);
            && |parts| == (if InLength(c.cdb) > 0 then k + 2 else k + 1)
            && parts[0].chunks == Whole(Request(c))
            && (OutLength(c.cdb) > 0 ==> parts[1].chunks == Whole(OutBuffer(c.cdb)))
            && parts[k].chunks == Whole(Zeros(RESPONSE_SIZE))
            && (InLength(c.cdb) > 0 ==> parts[k + 1].chunks == Whole(Zeros(Capped(InLength(c.cdb)))))
  {
  }

  function OutIds(reqId: u32, outId: u32, outLen: u32): seq<u32> {
    [reqId] + if outLen > 0 then [outId] else []
  }

  function InIds(respId: u32, inId: u32, inLen: u32): seq<u32> {
    [respId] + if inLen > 0 then [inId] else []
  }

  method StageOut(d: Driver, c: ScsiCmd, req: blob, outLen: u32, ghost s0: Core)
    returns (reqId: u32, outId: u32, ok: bool)
    requires d.Valid() && d.State() == s0 && req == Request(c) && outLen == Capped(OutLength(c.cdb))
    modifies d
    ensures d.Valid()
    ensures if ok then Holding(d, s0, Parts(c), OutIds(reqId, outId, outLen))
            else AllocAll(s0, Parts(c), true) == (d.State(), None)
  {
    PartsAt(c);
    outId, ok := 0, false;
    HoldingNothing(d, s0, Parts(c));
    reqId := AllocMore(d, req, s0, Parts(c), []);
    if reqId == 0 {
      return;
    }
    assert [] + [reqId] == [reqId] == [reqId] + [];
    if outLen > 0 {
      // The data is cut or padded with zeros to the announced length.
      var data := Resize(OutData(c.cdb), outLen);
      outId := AllocMore(d, data, s0, Parts(c), [reqId]);
      if outId == 0 {
        return;
      }
    }
    ok := true;
  }

  lemma InIdsAppended(ids: seq<u32>, respId: u32, inId: u32, inLen: u32)
    ensures ids + InIds(respId, inId, inLen) == if inLen > 0 then ids + [respId] + [inId] else ids + [respId]
  {
  }

  method StageIn(d: Driver, c: ScsiCmd, inLen: u32, ghost ids: seq<u32>, ghost s0: Core)
    returns (respId: u32, inId: u32, ok: bool)
    requires d.Valid() && Holding(d, s0, Parts(c), ids) && |ids| == ResponseAt(c) && inLen == Capped(InLength(c.cdb))
    modifies d
    ensures d.Valid()
    ensures if ok then Holding(d, s0, Parts(c), ids + InIds(respId, inId, inLen))
            else AllocAll(s0, Parts(c), true) == (d.State(), None)
  {
    PartsAt(c);
    inId, ok := 0, false;
    respId := AllocMore(d, Zeros(RESPONSE_SIZE), s0, Parts(c), ids);
    if respId == 0 {
      return;
    }
    if inLen > 0 {
      inId, ok := StageData(d, c, inLen, ids + [respId], s0);
    } else {
      ok := true;
    }
    InIdsAppended(ids, respId, inId, inLen);
  }

  method StageData(d: Driver, c: ScsiCmd, inLen: u32, ghost ids: seq<u32>, ghost s0: Core)
    returns (inId: u32, ok: bool)
    requires d.Valid() && Holding(d, s0, Parts(c), ids) && |ids| == ResponseAt(c) + 1
    requires inLen == Capped(InLength(c.cdb)) > 0
    modifies d
    ensures d.Valid()
    ensures if ok then Holding(d, s0, Parts(c), ids + [inId]) else AllocAll(s0, Parts(c), true) == (d.State(), None)
  {
    PartsAt(c);
    inId := AllocMore(d, Zeros(inLen), s0, Parts(c), ids);
    ok := inId != 0;
  }

  function Chained(r: Buf, o: Buf, p: Buf, i: Buf, inLen: u32, outLen: u32): seq<Buf> {
    [r] + (if outLen > 0 then [o] else []) + [p] + (if inLen > 0 then [i] else [])
  }

  /** Looks the buffers up by their ids; `o` and `i` mean something only when their length is not 0. */
  method Buffers(
    d: Driver, reqId: u32, outId: u32, respId: u32, inId: u32, inLen: u32, outLen: u32,
    ghost s0: Core, ghost parts: seq<Part>)
    returns (r: Buf, o: Buf, p: Buf, i: Buf)
    requires d.Valid() && Holding(d, s0, parts, OutIds(reqId, outId, outLen) + InIds(respId, inId, inLen))
    ensures Staged(s0, d.State(), parts, Chained(r, o, p, i, inLen, outLen))
  {
    ghost var ids := OutIds(reqId, outId, outLen) + InIds(respId, inId, inLen);
    ghost var k := if outLen > 0 then 2 else 1;
    o, i := Buf(0, 0), Buf(0, 0);
    assert ids[0] == reqId && ids[k] == respId;
    r, p := d.bufs[reqId], d.bufs[respId];
    if outLen > 0 {
      assert ids[1] == outId;
      o := d.bufs[outId];
    }
    if inLen > 0 {
      assert ids[k + 1] == inId;
      i := d.bufs[inId];
    }
    assert Lookup(d.bufs, ids) == Chained(r, o, p, i, inLen, outLen);
  }

  /** All the buffers of a command. */
  method StageCommand(d: Driver, c: ScsiCmd, req: blob, inLen: u32, outLen: u32, ghost s0: Core)
    returns (ok: bool, r: Buf, o: Buf, p: Buf, i: Buf)
    requires d.Valid() && d.State() == s0 && req == Request(c)
    requires inLen == Capped(InLength(c.cdb)) && outLen == Capped(OutLength(c.cdb))
    modifies d
    ensures d.Valid()
    ensures if ok then Staged(s0, d.State(), Parts(c), Chained(r, o, p, i, inLen, outLen))
            else AllocAll(s0, Parts(c), true) == (d.State(), None)
  {
    r, o, p, i := Buf(0, 0), Buf(0, 0), Buf(0, 0), Buf(0, 0);
    var reqId, outId, respId, inId;
    reqId, outId, ok := StageOut(d, c, req, outLen, s0);
    if !ok {
      return;
    }
    respId, inId, ok := StageIn(d, c, inLen, OutIds(reqId, outId, outLen), s0);
    if !ok {
      return;
    }
    r, o, p, i := Buffers(d, reqId, outId, respId, inId, inLen, outLen, s0, Parts(c));
  }

  // Chaining: what the device reads first, then what it writes.

  /** One descriptor, and a second one if it is wanted; `rest` is the chain still to come. */
  method SendUpTo2(
    d: Driver, v: u32, a: Buf, b: Buf, two: bool, writable: bool, more: bool,
    ghost rest: seq<Buf>, ghost parts: seq<Part>)
    requires d.Valid() && CanPlace(d.State(), v)
    requires (if two then 2 else 1) <= |rest| <= |parts| && (more <==> |rest| > if two then 2 else 1)
    requires rest[0] == a && parts[0].writable == writable
    requires two ==> rest[1] == b && parts[1].writable == writable
    modifies d, d.vqs
    ensures d.Valid() && CanPlace(d.State(), v)
    ensures var n := if two then 2 else 1;
            PlaceAll(old(d.State()), v, rest, parts) == PlaceAll(d.State(), v, rest[n..], parts[n..])
  {
    PlaceNext(d, v, a, writable, two || more, rest, parts);
    if two {
      PlaceNext(d, v, b, writable, more, rest[1..], parts[1..]);
      assert rest[1..][1..] == rest[2..] && parts[1..][1..] == parts[2..];
    }
  }

  lemma Directions(c: ScsiCmd)
    ensures var k, parts := ResponseAt(c), Parts(c);
            && |parts| == (if InLength(c.cdb) > 0 then k + 2 else k + 1)
            && !parts[0].writable && (k == 2 ==> !parts[1].writable)
            && parts[k].writable && (InLength(c.cdb) > 0 ==> parts[k + 1].writable)
  {
  }

  lemma ChainedSplit(r: Buf, o: Buf, p: Buf, i: Buf, inLen: u32, outLen: u32)
    ensures var k, bs := if outLen > 0 then 2 else 1, Chained(r, o, p, i, inLen, outLen);
            && |bs| == (if inLen > 0 then k + 2 else k + 1)
            && bs[0] == r && (outLen > 0 ==> bs[1] == o) && bs[k] == p && (inLen > 0 ==> bs[k + 1] == i)
  {
  }

  method SendCommand(d: Driver, v: u32, c: ScsiCmd, r: Buf, o: Buf, p: Buf, i: Buf, inLen: u32, outLen: u32)
    requires d.Valid() && CanPlace(d.State(), v)
    requires inLen == Capped(InLength(c.cdb)) && outLen == Capped(OutLength(c.cdb))
    modifies d, d.vqs
    ensures d.Valid()
    ensures d.State() == Emit(PlaceAll(old(d.State()), v, Chained(r, o, p, i, inLen, outLen), Parts(c)),
                              Registers([RegWrite(R_QUEUE_NOTIFY, v)]))
  {
    Directions(c);
    ChainedSplit(r, o, p, i, inLen, outLen);
    ghost var rest, parts, k := Chained(r, o, p, i, inLen, outLen), Parts(c), ResponseAt(c);
    SendUpTo2(d, v, r, o, outLen > 0, false, true, rest, parts);
    SendUpTo2(d, v, p, i, inLen > 0, true, false, rest[k..], parts[k..]);
    assert rest[k..][if inLen > 0 then 2 else 1..] == [];
    d.Notify(v);
  }

  method SubmitScsiCmd(d: Driver, c: ScsiCmd)
    requires d.Valid() && d.vqs.Length == 8
    modifies d, d.vqs
    ensures d.Valid() && d.State() == Submit(old(d.State()), CommandSubmission(c))
  {
    var v := c.vqIdx % 8;
    var room := Room(d, v, 5);
    if !room {
      return;
    }
    var req, inLen, outLen := BuildRequest(c);
    if inLen > 4096 {
      inLen := 4096;
    }
    if outLen > 4096 {
      outLen := 4096;
    }
    CommandShape(c);
    StageAndSend(d, v, c, req[..], inLen, outLen);
  }

  method StageAndSend(d: Driver, v: u32, c: ScsiCmd, req: blob, inLen: u32, outLen: u32)
    requires d.Valid() && d.vqs.Length == 8 && v == c.vqIdx % 8 && req == Request(c)
    requires CommandSubmission(c).Valid(8) && HasRoom(d.State(), v, 5)
    requires inLen == Capped(InLength(c.cdb)) && outLen == Capped(OutLength(c.cdb))
    modifies d, d.vqs
    ensures d.Valid() && d.State() == Submit(old(d.State()), CommandSubmission(c))
  {
    ghost var s0, sub := d.State(), CommandSubmission(c);
    var ok, r, o, p, i := StageCommand(d, c, req, inLen, outLen, s0);
    if !ok {
      GaveUp(s0, d.State(), sub);
      return;
    }
    StagedCommand(s0, d.State(), c, r, o, p, i, inLen, outLen);
    SendCommand(d, v, c, r, o, p, i, inLen, outLen);
  }

  lemma StagedCommand(s0: Core, s: Core, c: ScsiCmd, r: Buf, o: Buf, p: Buf, i: Buf, inLen: u32, outLen: u32)
    requires Shaped(s0) && |s0.vqs| == 8 && CommandSubmission(c).Valid(8) && HasRoom(s0, c.vqIdx % 8, 5)
    requires inLen == Capped(InLength(c.cdb)) && outLen == Capped(OutLength(c.cdb))
    requires Staged(s0, s, Parts(c), Chained(r, o, p, i, inLen, outLen))
    ensures CanPlace(s, c.vqIdx % 8)
    ensures Submit(s0, CommandSubmission(c)) ==
            Emit(PlaceAll(s, c.vqIdx % 8, Chained(r, o, p, i, inLen, outLen), Parts(c)),
                 Registers([RegWrite(R_QUEUE_NOTIFY, c.vqIdx % 8)]))
  {
    var bs, sub := Chained(r, o, p, i, inLen, outLen), CommandSubmission(c);
    PartsAt(c);
    ChainedSplit(r, o, p, i, inLen, outLen);
    RemainingWhole(s0, s, bs, sub);
  }

  function TmfSubmission(m: TmfReq): Submission { Pair(0, 3, TmfRequest(m), [0]) }

  function AnSubmission(m: AnReq): Submission { Pair(0, 3, AnRequest(m), [0, 0, 0, 0, 0]) }

  method SubmitTmf(d: Driver, m: TmfReq)
    requires d.Valid() && d.vqs.Length == 8
    modifies d, d.vqs
    ensures d.Valid() && d.State() == Submit(old(d.State()), TmfSubmission(m))
  {
    var req := new byte[24](_ => 0);
    Poke(req, 0, Le32(0));
    Poke(req, 4, Le32(m.subtype));
    EncodeLun(req, 8, m.target, m.lun);
    Poke(req, 16, Le64(m.tag));
    assert req[..] == TmfRequest(m);
    SubmitPair(d, 0, 3, req[..], [0]);
  }

  method SubmitAn(d: Driver, m: AnReq)
    requires d.Valid() && d.vqs.Length == 8
    modifies d, d.vqs
    ensures d.Valid() && d.State() == Submit(old(d.State()), AnSubmission(m))
  {
    var req := new byte[16](_ => 0);
    Poke(req, 0, Le32(if m.subtype == 1 then 1 else 2));
    EncodeLun(req, 4, m.target, m.lun);
    Poke(req, 12, Le32(m.eventRequested));
    assert req[..] == AnRequest(m);
    SubmitPair(d, 0, 3, req[..], [0, 0, 0, 0, 0]);
  }

  // The op stream.

  datatype Op = Common(action: Action) | Command(c: ScsiCmd) | Tmf(tmf: TmfReq) | An(an: AnReq)

  predicate ValidOp(op: Op) {
    op.Common? ==> !op.action.DoStage? && !op.action.DoSubmit? && (op.action.DoAddDesc? ==> op.action.floor == 1)
  }

  function ActionOf(op: Op): Action {
    match op
    case Common(a) => a
    case Command(c) => DoSubmit(CommandSubmission(c))
    case Tmf(m) => DoSubmit(TmfSubmission(m))
    case An(m) => DoSubmit(AnSubmission(m))
  }

  lemma ActionsAreValid(op: Op)
    requires ValidOp(op)
    ensures ActionOf(op).Valid(8)
  {
    if op.Command? {
      CommandShape(op.c);
    }
  }

  method RunCommand(d: Driver, c: ScsiCmd)
    requires d.Valid() && d.vqs.Length == 8
    modifies d, d.vqs
    ensures Stepped(old(d.State()), d, Command(c))
  {
    ActionsAreValid(Command(c));
    SubmitScsiCmd(d, c);
  }

  method RunTmf(d: Driver, m: TmfReq)
    requires d.Valid() && d.vqs.Length == 8
    modifies d, d.vqs
    ensures Stepped(old(d.State()), d, Tmf(m))
  {
    SubmitTmf(d, m);
  }

  method RunAn(d: Driver, m: AnReq)
    requires d.Valid() && d.vqs.Length == 8
    modifies d, d.vqs
    ensures Stepped(old(d.State()), d, An(m))
  {
    SubmitAn(d, m);
  }

  method RunCommon(d: Driver, a: Action)
    requires d.Valid() && d.vqs.Length == 8 && ValidOp(Common(a))
    modifies d, d.vqs
    ensures Stepped(old(d.State()), d, Common(a))
  {
    DispatchCommon(d, a);
  }

  ghost predicate Stepped(before: Core, d: Driver, op: Op)
    reads d, d.vqs
  {
    && d.Valid() && Shaped(before) && |before.vqs| == 8
    && ActionOf(op).Valid(8) && d.State() == Step(before, ActionOf(op))
  }

  method Dispatch(d: Driver, op: Op)
    requires d.Valid() && d.vqs.Length == 8 && ValidOp(op)
    modifies d, d.vqs
    ensures Stepped(old(d.State()), d, op)
  {
    if op.Common? {
      RunCommon(d, op.action);
    } else if op.Command? {
      RunCommand(d, op.c);
    } else if op.Tmf? {
      RunTmf(d, op.tmf);
    } else {
      RunAn(d, op.an);
    }
  }

  // What the device finds, from the fields of the op.

  /** `n` bytes: those of `data`, and zeros from where they end. */
  predicate Carries(s: seq<byte>, data: seq<byte>, n: nat) {
    |s| == n && forall j | 0 <= j < n :: s[j] == if j < |data| then data[j] else 0
  }

  /** How many bytes of data a command sends, and how many it asks for. */
  function OutCount(c: Cdb): nat {
    match c
    case Write10(_, _, _, len, _, _) => Min(len % 0x1_0000 * 512, 4096)
    case Write16(_, _, _, len, _, _) => Min(len * 512 % 0x1_0000_0000, 4096)
    case ModeSelect6(_, _, len, _) => len % 256
    case RawCdb(_, out, _) => Min(|out|, 4096)
    case _ => 0
  }

  function InCount(c: Cdb): nat {
    match c
    case Inquiry(_, _, len) => Min(len % 0x1_0000, 4096)
    case ReadCapacity10(_, _) => 8
    case ReadCapacity16(_, len, _) => Min(len, 4096)
    case Read10(_, _, _, len, _) => Min(len % 0x1_0000 * 512, 4096)
    case Read16(_, _, _, len, _) => Min(len * 512 % 0x1_0000_0000, 4096)
    case ModeSense6(_, _, _, _, len) => len % 256
    case RequestSense(_, len) => len % 256
    case ReportLuns(_, len) => Min(len, 4096)
    case RawCdb(_, _, len) => Min(len, 4096)
    case _ => 0
  }

  /** The data that goes out with a command. */
  predicate OutIs(s: seq<byte>, c: Cdb) {
    match c
    case Write10(_, _, _, _, _, data) => Carries(s, data, OutCount(c))
    case Write16(_, _, _, _, _, data) => Carries(s, data, OutCount(c))
    case ModeSelect6(_, _, _, parameters) => Carries(s, parameters, OutCount(c))
    case RawCdb(_, out, _) => Carries(s, out, OutCount(c))
    case _ => s == []
  }

  lemma CountsAre(c: Cdb)
    ensures Capped(OutLength(c)) == OutCount(c) && (OutLength(c) > 0 <==> OutCount(c) > 0)
    ensures Capped(InLength(c)) == InCount(c) && (InLength(c) > 0 <==> InCount(c) > 0)
  {
  }

  lemma OutBufferIs(c: Cdb)
    ensures OutIs(OutBuffer(c), c)
  {
    CountsAre(c);
  }

  /** The single-level form of a LUN: bits 6 and 7 are dropped. */
  predicate LunIs(s: seq<byte>, target: u32, lun: u32) {
    s == [1, target % 256, 0x40 + lun % 64, lun / 256 % 256, 0, 0, 0, 0]
  }

  predicate CarriesCommand(request: seq<byte>, c: ScsiCmd)
    requires |request| == REQUEST_SIZE
  {
    var view := ParseRequest(request);
    && view.tag == c.tag && LunIs(view.lun, c.target, c.lun)
    && view.taskAttr == c.taskAttr % 8 && view.prio == c.prio % 256 && view.crn == c.crn % 256
    && view.spare == 0
    && if c.cdb.RawCdb? then Carries(view.cdb, c.cdb.cdbBytes, 32)
       else DecodeCdb(view.cdb) == Some(Masked(c.cdb)) && NothingElse(view.cdb, c.cdb)
  }

  lemma RequestCarries(c: ScsiCmd)
    ensures CarriesCommand(Request(c), c)
  {
    RequestRoundTrip(c);
    if !c.cdb.RawCdb? {
      CdbRoundTrip(c.cdb);
      CdbHasNothingElse(c.cdb);
    }
  }

  /** The chain of a command: 52 bytes of request, the data if any goes out, and then, writable and
      cleared, 108 bytes for the response and, if data is to come in, as many bytes as it asks for. */
  ghost predicate CommandFound(m: Memory, hops: seq<Hop>, c: ScsiCmd) {
    var k := if OutCount(c.cdb) > 0 then 2 else 1;
    && |hops| == (if InCount(c.cdb) > 0 then k + 2 else k + 1) && ReadableHopsFirst(hops)
    && hops[0].desc.len == 52 && !hops[0].desc.Writable() && CarriesCommand(Peek(m, hops[0].desc.addr, 52), c)
    && (k == 2 ==> OutIs(Peek(m, hops[1].desc.addr, hops[1].desc.len), c.cdb) && !hops[1].desc.Writable())
    && Cleared(m, hops[k].desc, 108)
    && (InCount(c.cdb) > 0 ==> Cleared(m, hops[k + 1].desc, InCount(c.cdb)))
  }

  lemma CommandRead(m: Memory, q: Vq, c: ScsiCmd)
    requires q.size > 0 && CommandSubmission(c).Valid(8) && Readable(m, q, CommandSubmission(c))
    ensures CommandFound(m, Walk(m, c.vqIdx % 8, q.nextDesc % q.size, 256), c)
  {
    CommandShape(c);
    CountsAre(c.cdb);
    var hops, parts, k := Walk(m, c.vqIdx % 8, q.nextDesc % q.size, 256), Parts(c), ResponseAt(c);
    PartsAt(c);
    Directions(c);
    assert SeesPart(m, hops[0].desc, parts[0]);
    RequestCarries(c);
    if k == 2 {
      assert SeesPart(m, hops[1].desc, parts[1]);
      OutBufferIs(c.cdb);
    }
    assert SeesPart(m, hops[k].desc, parts[k]);
    if InLength(c.cdb) > 0 {
      assert SeesPart(m, hops[k + 1].desc, parts[k + 1]);
    }
  }

  /** What a device finds when it follows the chain of a command, in every reachable state and for every
      CDB: the LUN, tag, attributes and CDB of the op, byte for byte the data that goes out, and the
      response and in buffers behind it. */
  lemma CommandSeen(m0: Memory, s: Core, acts: seq<Action>, c: ScsiCmd)
    requires Shaped(s) && |s.vqs| == 8 && ValidActions(8, acts) && SmallDeviceRun(acts)
    requires CommandSubmission(c).Valid(8)
    requires var r := Run(Reset(s), acts); var sub := CommandSubmission(c);
             GoesThrough(r, sub) && Followable(r, |acts|, sub)
    ensures var r := Run(Reset(s), acts);
            var m, v := Image(m0, Submit(r, CommandSubmission(c)).log), c.vqIdx % 8;
            CommandFound(m, Walk(m, v, r.vqs[v].nextDesc % r.vqs[v].size, 256), c)
  {
    CommandShape(c);
    DeviceView(m0, s, acts, CommandSubmission(c));
    var r := Run(Reset(s), acts);
    CommandRead(Image(m0, Submit(r, CommandSubmission(c)).log), r.vqs[c.vqIdx % 8], c);
  }
}
