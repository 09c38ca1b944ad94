/** virtio-gpu commands as a device decodes them, from the bytes alone. */
module GpuDecode {
  import opened Bytes
  import opened Layout
  import opened Virtqueue
  import opened Gpu
  import opened GpuCommands
  import opened Wrappers

  datatype Wire =
    | DisplayInfo
    | NewResource(id: u32, format: u32, width: u32, height: u32)
    | NewBlob(id: u32, mem: u32, flags: u32, entries: u32, blobId: u64, size: u64)
    | Drop(id: u32)
    | Attach(id: u32, entries: u32)
    | Detach(id: u32)
    | ToHost(x: u32, y: u32, width: u32, height: u32, offset: u64, id: u32)
    | Flush(x: u32, y: u32, width: u32, height: u32, id: u32)
    | Scanout(x: u32, y: u32, width: u32, height: u32, scanout: u32, id: u32)
    | Cursor(scanout: u32, x: u32, y: u32, id: u32, hotX: u32, hotY: u32)
    | CursorMove(scanout: u32, x: u32, y: u32)
    | Edid(scanout: u32)

  datatype Fence = NoFence | Fenced(id: u64, ctx: u32)

  /** `ranges`: what the entries behind the fixed part name; `rest`: what follows them. */
  datatype Received = Received(fence: Fence, wire: Wire, ranges: seq<Extent>, rest: seq<byte>)

  const RECT_KINDS := [K32, K32, K32, K32, K32, K32]
  const CURSOR_KINDS := [K32, K32, K32, K32, K32, K32, K32, K32]

  /** The fixed part that follows the header, by command code. */
  function FixedKinds(command: u32): Option<seq<Kind>> {
    if command == 0x0100 then Some([])
    else if command == 0x0101 then Some([K32, K32, K32, K32])
    else if command in {0x0102, 0x0106, 0x0107, 0x010a} then Some([K32, K32])
    else if command in {0x0103, 0x0104} then Some(RECT_KINDS)
    else if command == 0x0105 then Some([K32, K32, K32, K32, K64, K32, K32])
    else if command == 0x010b then Some([K32, K32, K32, K32, K64, K64])
    else if command in {0x0300, 0x0301} then Some(CURSOR_KINDS)
    else None
  }

  function WireOf(command: u32, f: seq<Field>): Wire
    requires FixedKinds(command) == Some(Kinds(f))
  {
    if command == 0x0100 then DisplayInfo else ShortWire(command, f)
  }

  predicate Has(f: seq<Field>, i: nat, k: Kind) { i < |f| && KindOf(f[i]) == k }

  function N32(f: seq<Field>, i: nat): u32 { if Has(f, i, K32) then f[i].l32 else 0 }

  function N64(f: seq<Field>, i: nat): u64 { if Has(f, i, K64) then f[i].l64 else 0 }

  function ShortWire(command: u32, f: seq<Field>): Wire {
    if command == 0x0101 then NewResource(N32(f, 0), N32(f, 1), N32(f, 2), N32(f, 3))
    else if command == 0x0102 then Drop(N32(f, 0))
    else if command == 0x0106 then Attach(N32(f, 0), N32(f, 1))
    else if command == 0x0107 then Detach(N32(f, 0))
    else if command == 0x010a then Edid(N32(f, 0))
    else LongWire(command, f)
  }

  function LongWire(command: u32, f: seq<Field>): Wire {
    if command == 0x0103 then Scanout(N32(f, 0), N32(f, 1), N32(f, 2), N32(f, 3), N32(f, 4), N32(f, 5))
    else if command == 0x0104 then Flush(N32(f, 0), N32(f, 1), N32(f, 2), N32(f, 3), N32(f, 4))
    else if command == 0x0105 then ToHost(N32(f, 0), N32(f, 1), N32(f, 2), N32(f, 3), N64(f, 4), N32(f, 5))
    else if command == 0x010b then NewBlob(N32(f, 0), N32(f, 1), N32(f, 2), N32(f, 3), N64(f, 4), N64(f, 5))
    else if command == 0x0300 then Cursor(N32(f, 0), N32(f, 1), N32(f, 2), N32(f, 4), N32(f, 5), N32(f, 6))
    else CursorMove(N32(f, 0), N32(f, 1), N32(f, 2))
  }

  /** The fence of a header; None if its flags are none that the device knows, if it names a fence
      without the flag, or if its padding is not 0. */
  function FenceOf(h: seq<Field>): Option<Fence> {
    if N32(h, 4) != 0 then None
    else if N32(h, 1) == 1 then Some(Fenced(N64(h, 2), N32(h, 3)))
    else if N32(h, 1) == 0 && N64(h, 2) == 0 && N32(h, 3) == 0 then Some(NoFence)
    else None
  }

  /** Which fields of the fixed part are padding. */
  function PadsOf(command: u32): set<nat> {
    if command in {0x0102, 0x0107, 0x010a} then {1}
    else if command == 0x0104 then {5}
    else if command == 0x0105 then {6}
    else if command == 0x0300 then {3, 7}
    else if command == 0x0301 then {3, 4, 5, 6, 7}
    else {}
  }

  predicate Padded(command: u32, f: seq<Field>) {
    forall i | i in PadsOf(command) :: i < |f| && f[i] == L32(0)
  }

  function Decode(s: seq<byte>): Option<Received> {
    match Parse(HEADER_KINDS, s)
    case TooShort => None
    case Parsed(h, body) =>
      match FixedKinds(N32(h, 0))
      case None => None
      case Some(kinds) =>
        match Parse(kinds, body)
        case TooShort => None
        case Parsed(f, more) =>
          if FenceOf(h).None? || !Padded(N32(h, 0), f) then None
          else WithEntries(FenceOf(h).value, WireOf(N32(h, 0), f), more)
  }

  /** How many entries a command announces in its own bytes. */
  function Announced(w: Wire): nat {
    match w
    case Attach(_, entries) => entries
    case NewBlob(_, _, _, entries, _, _) => entries
    case _ => 0
  }

  /** Reads as many entries as the command announces. */
  function WithEntries(fence: Fence, w: Wire, s: seq<byte>): Option<Received> {
    match Parse(EntryKinds(Announced(w)), s)
    case TooShort => None
    case Parsed(es, rest) => Some(Received(fence, w, Ranges(es), rest))
  }

  /** What an op means to say. */
  function Meaning(st: GpuState, op: Op): Wire
    requires Sends(op) && |st.resources| == SLOTS
  {
    match op
    case GetDisplayInfo => DisplayInfo
    case Create2D(_, format, w, h) => NewResource(st.nextId, format, w, h)
    case CreateBlob(_, mem, flags, id, size, entries, _) =>
      NewBlob(st.nextId, mem, flags, Entries16(entries), id, size)
    case Unref(slot) => Drop(SlotId(st, slot))
    case AttachBacking(slot, _, entries, _, _) => Attach(SlotId(st, slot), Entries16(entries))
    case DetachBacking(slot) => Detach(SlotId(st, slot))
    case Transfer(slot, x, y, w, h, offset) => ToHost(x, y, w, h, offset, SlotId(st, slot))
    case FlushResource(slot, x, y, w, h) => Flush(x, y, w, h, SlotId(st, slot))
    case SetScanout(slot, scanout, x, y, w, h) => Scanout(x, y, w, h, scanout, SlotId(st, slot))
    case UpdateCursor(slot, scanout, x, y, hotX, hotY) => Cursor(scanout, x, y, SlotId(st, slot), hotX, hotY)
    case MoveCursor(scanout, x, y) => CursorMove(scanout, x, y)
    case GetEdid(scanout) => Edid(scanout)
  }

  function FenceFor(st: GpuState): Fence {
    if st.fenceEnabled then Fenced(st.fenceId, st.fenceCtx) else NoFence
  }

  /** The fields between the header and the entries. */
  function FixedFields(st: GpuState, op: Op, base: cursor): seq<Field>
    requires Sends(op) && |st.resources| == SLOTS
  {
    if NeedsBacking(op) then BeforeEntries(st, op) else CommandBody(st, op, base)
  }

  function EntriesOf(op: Op, base: cursor): seq<Field> {
    if NeedsBacking(op) then Entries(base, EntrySize(op), 0, EntryCount(op.entries)) else []
  }

  lemma FixedHasItsKinds(st: GpuState, op: Op, base: cursor)
    requires Sends(op) && |st.resources| == SLOTS
    ensures FixedKinds(Command(op)) == Some(Kinds(FixedFields(st, op, base)))
  {
    if NeedsBacking(op) {
      var fs := BeforeEntries(st, op);
      assert Kinds(fs) == if op.AttachBacking? then [K32, K32] else [K32, K32, K32, K32, K64, K64];
    } else {
      var fs := CommandBody(st, op, base);
      assert Kinds(fs) == BodyKinds(op);
    }
  }

  lemma FixedMeans(st: GpuState, op: Op, base: cursor)
    requires Sends(op) && |st.resources| == SLOTS
    requires FixedKinds(Command(op)) == Some(Kinds(FixedFields(st, op, base)))
    ensures WireOf(Command(op), FixedFields(st, op, base)) == Meaning(st, op)
  {
    if NeedsBacking(op) || Command(op) < 0x0103 || op.DetachBacking? || op.GetEdid? {
      ShortMeans(st, op, base);
    } else {
      LongMeans(st, op, base);
    }
  }

  lemma ShortMeans(st: GpuState, op: Op, base: cursor)
    requires Sends(op) && |st.resources| == SLOTS
    requires FixedKinds(Command(op)) == Some(Kinds(FixedFields(st, op, base)))
    requires NeedsBacking(op) || Command(op) < 0x0103 || op.DetachBacking? || op.GetEdid?
    ensures WireOf(Command(op), FixedFields(st, op, base)) == Meaning(st, op)
  {
  }

  lemma LongMeans(st: GpuState, op: Op, base: cursor)
    requires Sends(op) && |st.resources| == SLOTS
    requires FixedKinds(Command(op)) == Some(Kinds(FixedFields(st, op, base)))
    requires op.Transfer? || op.FlushResource? || op.SetScanout? || op.UpdateCursor? || op.MoveCursor?
    ensures WireOf(Command(op), FixedFields(st, op, base)) == Meaning(st, op)
  {
  }

  lemma FixedPadded(st: GpuState, op: Op, base: cursor)
    requires Sends(op) && |st.resources| == SLOTS
    ensures Padded(Command(op), FixedFields(st, op, base))
  {
  }

  lemma BytesInParts(st: GpuState, op: Op, base: cursor)
    requires Sends(op) && |st.resources| == SLOTS
    ensures CommandBytes(st, op, base) ==
            PutAll(CtrlHeader(st, Command(op))) + (PutAll(FixedFields(st, op, base)) + PutAll(EntriesOf(op, base)))
  {
    var h, f, e := CtrlHeader(st, Command(op)), FixedFields(st, op, base), EntriesOf(op, base);
    if NeedsBacking(op) {
      BodyEntries(st, op, base);
    } else {
      assert f + [] == f;
    }
    PutAppend(h, f + e);
    PutAppend(f, e);
  }

  lemma HeaderMeans(st: GpuState, command: u32)
    ensures N32(CtrlHeader(st, command), 0) == command && FenceOf(CtrlHeader(st, command)) == Some(FenceFor(st))
  {
  }

  lemma EntriesDecode(st: GpuState, op: Op, base: cursor)
    requires Sends(op) && |st.resources| == SLOTS
    ensures WithEntries(FenceFor(st), Meaning(st, op), PutAll(EntriesOf(op, base))) ==
            Some(Received(FenceFor(st), Meaning(st, op), Ranges(EntriesOf(op, base)), []))
  {
    var es := EntriesOf(op, base);
    AnnouncedCount(st, op);
    if NeedsBacking(op) {
      EntriesKinds(base, EntrySize(op), 0, EntryCount(op.entries));
    }
    ParsePut(es, []);
    assert PutAll(es) + [] == PutAll(es);
  }

  lemma AnnouncedCount(st: GpuState, op: Op)
    requires Sends(op) && |st.resources| == SLOTS
    ensures Announced(Meaning(st, op)) == if NeedsBacking(op) then EntryCount(op.entries) else 0
  {
  }

  /** From the bytes alone, a device decodes every command to what the op means: the command, every
      field in its place, the ids of the slots, the fence the harness has set, and the ranges of as
      many entries as the bytes announce, with nothing left over. */
  lemma CommandRoundTrip(st: GpuState, op: Op, base: cursor)
    requires Sends(op) && |st.resources| == SLOTS
    ensures Decode(CommandBytes(st, op, base)) ==
            Some(Received(FenceFor(st), Meaning(st, op), Ranges(EntriesOf(op, base)), []))
  {
    var h, f, e := CtrlHeader(st, Command(op)), FixedFields(st, op, base), PutAll(EntriesOf(op, base));
    BytesInParts(st, op, base);
    HeaderIsHeader(st, Command(op));
    ParsePut(h, PutAll(f) + e);
    FixedHasItsKinds(st, op, base);
    ParsePut(f, e);
    HeaderMeans(st, Command(op));
    FixedMeans(st, op, base);
    FixedPadded(st, op, base);
    EntriesDecode(st, op, base);
  }

  /** The ranges a device decodes are as many as the op asks for after clamping and tile exactly the
      backing region. */
  lemma EntriesTile(st: GpuState, op: Op, base: cursor)
    requires NeedsBacking(op) && |st.resources| == SLOTS
    ensures var r := Decode(CommandBytes(st, op, base));
            && r.Some? && |r.value.ranges| == Entries16(op.entries) == Announced(r.value.wire)
            && EndOf(r.value.ranges, base) == Some(base + RegionSize(op)) && r.value.rest == []
            && forall i | 0 <= i < |r.value.ranges| :: RangeIs(r.value.ranges[i], base, op, i)
  {
    CommandRoundTrip(st, op, base);
    RangesAre(op, base);
    AnnouncedCount(st, op);
    RegionSizeIs(op);
  }

  /** Entry `i` names as many bytes as the op asks for, `i` times as far behind `base`. */
  predicate RangeIs(r: Extent, base: int, op: Op, i: nat)
    requires op.AttachBacking? || op.CreateBlob?
  {
    r.addr == base + i * EntryBytes16(op) && r.len == EntryBytes16(op)
  }

  lemma RangesAre(op: Op, base: cursor)
    requires NeedsBacking(op)
    ensures var rs := Ranges(EntriesOf(op, base));
            && |rs| == Entries16(op.entries) && EndOf(rs, base) == Some(base + RegionSize(op))
            && forall i | 0 <= i < |rs| :: RangeIs(rs[i], base, op, i)
  {
    RegionSizeIs(op);
    AllEntries(op, base);
    RangesAt(base, EntrySize(op), 0, EntryCount(op.entries));
    var rs := Ranges(EntriesOf(op, base));
    forall i | 0 <= i < |rs| ensures RangeIs(rs[i], base, op, i) {
      assert rs[i] == Extent(EntryAddress(base, EntrySize(op), 0 + i), EntrySize(op));
    }
  }

  lemma {:induction false} RangesAt(base: cursor, size: u32, i: nat, n: nat)
    requires i <= n <= 16 && 0 < size <= 4096
    ensures var rs := Ranges(Entries(base, size, i, n));
            && |rs| == n - i
            && forall k | 0 <= k < n - i :: rs[k] == Extent(EntryAddress(base, size, i + k), size)
    decreases n - i
  {
    if i < n {
      RangesAt(base, size, i + 1, n);
      RangesCons(EntryAddress(base, size, i), size, Entries(base, size, i + 1, n));
      var rs, more := Ranges(Entries(base, size, i, n)), Ranges(Entries(base, size, i + 1, n));
      assert rs == [Extent(EntryAddress(base, size, i), size)] + more;
      forall k | 0 <= k < n - i ensures rs[k] == Extent(EntryAddress(base, size, i + k), size) {
        if k > 0 {
          assert rs[k] == more[k - 1];
        }
      }
    }
  }
}
