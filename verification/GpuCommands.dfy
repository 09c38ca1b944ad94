/** What a virtio-gpu command carries, field by field, and where its backing memory lies. */
module GpuCommands {
  import opened Bytes
  import opened Layout
  import opened Guest
  import opened Virtqueue
  import opened Pool
  import opened Confinement
  import opened Refinement
  import opened SubmissionTheorems
  import opened Chain
  import opened Gpu
  import opened Wrappers

  const HEADER_KINDS := [K32, K32, K64, K32, K32]

  /** The layout of each command, from the op alone. */
  function BodyKinds(op: Op): seq<Kind>
    requires Sends(op)
  {
    match op
    case Create2D(_, _, _, _) => [K32, K32, K32, K32]
    case CreateBlob(_, _, _, _, _, entries, _) =>
      [K32, K32, K32, K32, K64, K64] + EntryKinds(EntryCount(entries))
    case AttachBacking(_, _, entries, _, _) => [K32, K32] + EntryKinds(EntryCount(entries))
    case Transfer(_, _, _, _, _, _) => [K32, K32, K32, K32, K64, K32, K32]
    case FlushResource(_, _, _, _, _) => [K32, K32, K32, K32, K32, K32]
    case SetScanout(_, _, _, _, _, _) => [K32, K32, K32, K32, K32, K32]
    case UpdateCursor(_, _, _, _, _, _) => [K32, K32, K32, K32, K32, K32, K32, K32]
    case MoveCursor(_, _, _) => [K32, K32, K32, K32, K32, K32, K32, K32]
    case GetDisplayInfo => []
    case _ => [K32, K32]
  }

  function EntryKinds(n: nat): seq<Kind> {
    if n == 0 then [] else [K64, K32, K32] + EntryKinds(n - 1)
  }

  lemma KindsConcat(a: seq<Field>, b: seq<Field>)
    ensures Kinds(a + b) == Kinds(a) + Kinds(b)
  {
  }

  lemma {:induction false} EntriesKinds(base: cursor, size: u32, i: nat, n: nat)
    requires i <= n <= 16 && size <= 4096
    ensures Kinds(Entries(base, size, i, n)) == EntryKinds(n - i)
    decreases n - i
  {
    if i < n {
      EntriesKinds(base, size, i + 1, n);
      KindsConcat(Entry(base, size, i), Entries(base, size, i + 1, n));
      assert Kinds(Entry(base, size, i)) == [K64, K32, K32];
    }
  }

  lemma CommandBodyKinds(st: GpuState, op: Op, base: cursor)
    requires Sends(op) && |st.resources| == SLOTS
    ensures Kinds(CommandBody(st, op, base)) == BodyKinds(op)
  {
    if NeedsBacking(op) {
      BodyEntries(st, op, base);
      EntriesKinds(base, EntrySize(op), 0, EntryCount(op.entries));
      KindsConcat(BeforeEntries(st, op), Entries(base, EntrySize(op), 0, EntryCount(op.entries)));
    }
  }

  lemma HeaderIsHeader(st: GpuState, command: u32)
    ensures Kinds(CtrlHeader(st, command)) == HEADER_KINDS
  {
  }

  lemma CommandKinds(st: GpuState, op: Op, base: cursor)
    requires Sends(op) && |st.resources| == SLOTS
    ensures Kinds(CommandFields(st, op, base)) == HEADER_KINDS + BodyKinds(op)
  {
    HeaderIsHeader(st, Command(op));
    CommandBodyKinds(st, op, base);
    KindsConcat(CtrlHeader(st, Command(op)), CommandBody(st, op, base));
  }

  /** How a device that knows the op reads the bytes of a command. */
  function ParseCommand(op: Op, s: seq<byte>): Parsed
    requires Sends(op)
  {
    Parse(HEADER_KINDS + BodyKinds(op), s)
  }

  lemma CommandParses(st: GpuState, op: Op, base: cursor)
    requires Sends(op) && |st.resources| == SLOTS
    ensures ParseCommand(op, CommandBytes(st, op, base)) == Parsed(CommandFields(st, op, base), [])
  {
    CommandKinds(st, op, base);
    ParsePut(CommandFields(st, op, base), []);
    assert CommandBytes(st, op, base) + [] == CommandBytes(st, op, base);
  }

  // Resource ids.

  predicate UsesSlot(op: Op) {
    op.Unref? || op.AttachBacking? || op.DetachBacking? || op.Transfer? || op.FlushResource? || op.SetScanout?
    || op.UpdateCursor?
  }

  /** Which field of the command body is the resource id. */
  function IdField(op: Op): nat {
    if op.Transfer? || op.SetScanout? then 5 else if op.FlushResource? || op.UpdateCursor? then 4 else 0
  }

  predicate FieldIs(p: Parsed, i: nat, f: Field) {
    p.Parsed? && i < |p.fields| && p.fields[i] == f
  }

  lemma CarriesId(st: GpuState, op: Op, base: cursor)
    requires UsesSlot(op) && |st.resources| == SLOTS
    ensures var p := Parsed(CommandFields(st, op, base), []);
            FieldIs(p, 0, L32(Command(op))) && FieldIs(p, 5 + IdField(op), L32(SlotId(st, op.slot)))
  {
  }

  /** The bytes of a command that uses a slot parse, under the layout of its op and to the last
      byte, to fields among which the resource id is the one the history of the slot gives. */
  lemma UseCarriesLatestId(core: Core, calls: seq<Call>, op: Op, base: cursor)
    requires ValidCalls(calls) && Sound(ResetGpu(core)) && Unwrapped(calls) && UsesSlot(op)
    ensures LatestId(calls, Fates(ResetGpu(core), calls), op.slot % SLOTS) < TWO_32
    ensures var p := ParseCommand(op, CommandBytes(GpuRun(ResetGpu(core), calls), op, base));
            && FieldIs(p, 0, L32(Command(op)))
            && FieldIs(p, 5 + IdField(op), L32(LatestId(calls, Fates(ResetGpu(core), calls), op.slot % SLOTS)))
            && p.rest == []
  {
    SlotsFollowHistory(core, calls, op.slot);
    CommandParses(GpuRun(ResetGpu(core), calls), op, base);
    CarriesId(GpuRun(ResetGpu(core), calls), op, base);
  }

  // Backing memory.

  /** The address ranges that scatter-gather entries name. */
  function Ranges(fs: seq<Field>): seq<Extent> {
    if |fs| >= 3 && fs[0].L64? && fs[1].L32? && fs[2] == L32(0) then
      [Extent(fs[0].l64, fs[1].l32)] + Ranges(fs[3..])
    else []
  }

  /** The end of ranges that lie one behind the other, the first at `from`; None if there is a gap
      or an overlap anywhere. */
  function EndOf(rs: seq<Extent>, from: int): Option<int> {
    if rs == [] then Some(from)
    else if rs[0].addr != from then None
    else EndOf(rs[1..], from + rs[0].len)
  }

  lemma RangesCons(addr: u64, len: u32, more: seq<Field>)
    ensures Ranges([L64(addr), L32(len), L32(0)] + more) == [Extent(addr, len)] + Ranges(more)
  {
    assert ([L64(addr), L32(len), L32(0)] + more)[3..] == more;
  }

  lemma EndCons(r: Extent, rs: seq<Extent>)
    ensures EndOf([r] + rs, r.addr) == EndOf(rs, r.addr + r.len)
  {
    assert ([r] + rs)[1..] == rs;
  }

  lemma NextAddress(base: cursor, size: u32, i: nat)
    requires i < 16 && size <= 4096
    ensures EntryAddress(base, size, i + 1) == EntryAddress(base, size, i) + size
  {
  }

  lemma {:induction false} EntriesRanges(base: cursor, size: u32, i: nat, n: nat)
    requires i <= n <= 16 && 0 < size <= 4096
    ensures var rs := Ranges(Entries(base, size, i, n));
            |rs| == n - i && EndOf(rs, EntryAddress(base, size, i)) == Some(EntryAddress(base, size, n))
    decreases n - i
  {
    if i < n {
      EntriesRanges(base, size, i + 1, n);
      var more, addr := Entries(base, size, i + 1, n), EntryAddress(base, size, i);
      RangesCons(addr, size, more);
      NextAddress(base, size, i);
      EndCons(Extent(addr, size), Ranges(more));
    }
  }

  function BeforeEntries(st: GpuState, op: Op): seq<Field>
    requires NeedsBacking(op) && |st.resources| == SLOTS
  {
    if op.AttachBacking? then [L32(SlotId(st, op.slot)), L32(EntryCount(op.entries))]
    else
      [L32(st.nextId), L32(op.blobMem), L32(op.blobFlags), L32(EntryCount(op.entries)), L64(op.blobId), L64(op.size64)]
  }

  lemma BodyEntries(st: GpuState, op: Op, base: cursor)
    requires NeedsBacking(op) && |st.resources| == SLOTS
    ensures CommandBody(st, op, base) ==
            BeforeEntries(st, op) + Entries(base, EntrySize(op), 0, EntryCount(op.entries))
  {
  }

  lemma Ends(op: Op, base: cursor)
    requires NeedsBacking(op)
    ensures EntryAddress(base, EntrySize(op), 0) == base
    ensures EntryAddress(base, EntrySize(op), EntryCount(op.entries)) == base + TotalSize(op)
  {
  }

  lemma AllEntries(op: Op, base: cursor)
    requires NeedsBacking(op)
    ensures var rs := Ranges(Entries(base, EntrySize(op), 0, EntryCount(op.entries)));
            |rs| == EntryCount(op.entries) && EndOf(rs, base) == Some(base + TotalSize(op))
  {
    EntriesRanges(base, EntrySize(op), 0, EntryCount(op.entries));
    Ends(op, base);
  }

  /** Byte `j` of the backing region of an op once it is filled: byte j mod |fill| of an attach's
      fill, 0 without one and for every blob. */
  function Expected(op: Op): seq<byte>
    requires NeedsBacking(op)
  {
    Cycle(UnitOf(op), TotalSize(op))
  }

  // The clamps of an attach or a blob, as numbers.

  /** How many entries an op gets for what it asks: between 1 and 16. */
  function Entries16(asked: u32): u32 { if asked < 1 then 1 else if asked > 16 then 16 else asked }

  /** How long each of them is: between 1 and 4096 for an attach, between 16 and 4096 for a blob. */
  function EntryBytes16(op: Op): u32
    requires op.AttachBacking? || op.CreateBlob?
  {
    var least := if op.AttachBacking? then 1 else 16;
    if op.entrySize < least then least else if op.entrySize > 4096 then 4096 else op.entrySize
  }

  function RegionSize(op: Op): nat
    requires op.AttachBacking? || op.CreateBlob?
  {
    Entries16(op.entries) * EntryBytes16(op)
  }

  lemma RegionSizeIs(op: Op)
    requires op.AttachBacking? || op.CreateBlob?
    ensures TotalSize(op) == RegionSize(op) && EntryCount(op.entries) == Entries16(op.entries)
    ensures EntrySize(op) == EntryBytes16(op)
  {
  }

  /** The region at `base` holds the op's fill, over and over and the last time cut short, if the op is
      an attach with a fill, and zeros otherwise. */
  predicate RegionHolds(m: Memory, base: int, op: Op)
    requires op.AttachBacking? || op.CreateBlob?
  {
    forall j | 0 <= j < RegionSize(op) :: RegionByte(m, base, op, j)
  }

  predicate RegionByte(m: Memory, base: int, op: Op, j: nat)
    requires op.AttachBacking? || op.CreateBlob?
  {
    At(m, base + j) == if op.AttachBacking? && op.fill != [] then op.fill[j % |op.fill|] else 0
  }

  lemma ExpectedIs(op: Op, j: nat)
    requires NeedsBacking(op) && j < TotalSize(op)
    ensures Expected(op)[j] == if op.AttachBacking? && op.fill != [] then op.fill[j % |op.fill|] else 0
  {
    var u := UnitOf(op);
    assert Expected(op)[j] == u[j % |u|];
    if op.AttachBacking? && op.fill != [] {
      assert u == op.fill;
    } else {
      assert u == Zeros(64) && 0 <= j % 64 < 64;
    }
  }

  lemma HoldsExpected(m: Memory, base: int, op: Op)
    requires NeedsBacking(op) && Peek(m, base, TotalSize(op)) == Expected(op)
    ensures RegionHolds(m, base, op)
  {
    RegionSizeIs(op);
    forall j | 0 <= j < RegionSize(op) ensures RegionByte(m, base, op, j) {
      ExpectedIs(op, j);
      assert Peek(m, base, TotalSize(op))[j] == At(m, base + j);
    }
  }

  /** Nothing has been sent yet when the region is full. */
  lemma BackingIsFilled(m0: Memory, st: GpuState, op: Op)
    requires NeedsBacking(op) && Backed(st, op)
    ensures RegionHolds(Image(m0, Stage(st.core, Fillable(op)).log), st.core.bufAlloc, op)
  {
    RegionFilled(m0, st, op);
    HoldsExpected(Image(m0, Stage(st.core, Fillable(op)).log), st.core.bufAlloc, op);
  }

  lemma RegionFilled(m0: Memory, st: GpuState, op: Op)
    requires NeedsBacking(op) && Backed(st, op)
    ensures Peek(Image(m0, Stage(st.core, Fillable(op)).log), st.core.bufAlloc, TotalSize(op)) == Expected(op)
  {
    StageHolds(m0, st.core, Fillable(op));
    RepeatIsCycle(UnitOf(op), TotalSize(op));
  }

  lemma StagedFacts(s: Core, chunks: pieces)
    requires QueuesOk(s) && PoolOk(s, BufPoolBase(|s.vqs|)) && Fits(s, TotalLength(chunks))
    ensures var t := Stage(s, chunks);
            && QueuesOk(t) && PoolOk(t, BufPoolBase(|t.vqs|)) && |t.vqs| == |s.vqs|
            && Buf(s.bufAlloc, TotalLength(chunks)) in t.hist.blocks
  {
    var b := Buf(s.bufAlloc, TotalLength(chunks));
    StageOk(s, chunks, BufPoolBase(|s.vqs|));
    QuietConfined(s, Stage(s, chunks), |s.log|);
    assert (s.hist.blocks + [b])[|s.hist.blocks|] == b;
  }

  /** Sending the command changes no byte of the region. */
  lemma SendingKeepsBacking(m0: Memory, st: GpuState, c: Call)
    requires Sound(st) && NeedsBacking(c.op) && Backed(st, c.op)
    requires QueuesOk(st.core) && PoolOk(st.core, BufPoolBase(QUEUES))
    ensures Shaped(Stage(st.core, Fillable(c.op))) && Sending(st, c).Valid(QUEUES)
    ensures var r := Submit(Stage(st.core, Fillable(c.op)), Sending(st, c));
            RegionHolds(Image(m0, r.log), st.core.bufAlloc, c.op)
  {
    RegionUnchanged(m0, st, c);
    HoldsExpected(Image(m0, Submit(Stage(st.core, Fillable(c.op)), Sending(st, c)).log), st.core.bufAlloc, c.op);
  }

  lemma RegionUnchanged(m0: Memory, st: GpuState, c: Call)
    requires Sound(st) && NeedsBacking(c.op) && Backed(st, c.op)
    requires QueuesOk(st.core) && PoolOk(st.core, BufPoolBase(QUEUES))
    ensures Shaped(Stage(st.core, Fillable(c.op))) && Sending(st, c).Valid(QUEUES)
    ensures var r := Submit(Stage(st.core, Fillable(c.op)), Sending(st, c));
            Peek(Image(m0, r.log), st.core.bufAlloc, TotalSize(c.op)) == Expected(c.op)
  {
    StagedFacts(st.core, Fillable(c.op));
    RegionFilled(m0, st, c.op);
    SubmitKeepsBuffers(m0, Stage(st.core, Fillable(c.op)), Sending(st, c), Buf(st.core.bufAlloc, TotalSize(c.op)));
  }

  /** The request and response buffers lie behind the region. */
  lemma BackingApart(st: GpuState, c: Call)
    requires Sound(st) && NeedsBacking(c.op) && Backed(st, c.op) && PoolOk(st.core, BufPoolBase(QUEUES))
    ensures var bufs := AllocAll(Stage(st.core, Fillable(c.op)), Sending(st, c).parts, false).1;
            bufs.Some? ==> forall b | b in bufs.value :: st.core.bufAlloc + TotalSize(c.op) <= b.gpa
  {
    ReservedFacts(st.core.bufAlloc, TotalSize(c.op));
    BuffersIncrease(Stage(st.core, Fillable(c.op)), Sending(st, c).parts, false);
  }

  // The whole of it, in any reachable state.

  /** The core when a command is about to be sent. */
  function Prepared(st: GpuState, op: Op): Core {
    if NeedsBacking(op) then Stage(st.core, Fillable(op)) else st.core
  }

  predicate SmallCalls(calls: seq<Call>) {
    forall c | c in calls && c.op.Common? :: SmallDevice(c.op.action)
  }

  function PrepareActions(op: Op): seq<Action> {
    if NeedsBacking(op) then [DoStage(Fillable(op))] else []
  }

  lemma {:induction false} ActionsSmall(st: GpuState, calls: seq<Call>)
    requires ValidCalls(calls) && Sound(st) && SmallCalls(calls)
    ensures SmallDeviceRun(Actions(st, calls))
  {
    if calls != [] {
      var k := |calls| - 1;
      ActionsSmall(st, calls[..k]);
      var t := GpuRun(st, calls[..k]);
      assert calls[k] in calls;
      assert SmallDeviceRun(Plan(t, calls[k]));
    }
  }

  lemma RunOne(s: Core, a: Action)
    requires Shaped(s) && a.Valid(|s.vqs|)
    ensures Run(s, [a]) == Step(s, a)
  {
    assert [a][..0] == [];
    assert Run(s, []) == s;
  }

  lemma PreparedIsRun(st: GpuState, op: Op)
    requires Sound(st)
    ensures Shaped(Prepared(st, op)) && |Prepared(st, op).vqs| == QUEUES
    ensures ValidActions(QUEUES, PrepareActions(op)) && Run(st.core, PrepareActions(op)) == Prepared(st, op)
    ensures SmallDeviceRun(PrepareActions(op))
  {
    if NeedsBacking(op) {
      RunOne(st.core, DoStage(Fillable(op)));
    }
  }

  lemma SendingStep(st: GpuState, c: Call)
    requires ValidCall(c) && Sound(st) && Sends(c.op) && Backed(st, c.op)
    ensures Shaped(Prepared(st, c.op)) && Sending(st, c).Valid(|Prepared(st, c.op).vqs|)
    ensures GpuStep(st, c).core == Submit(Prepared(st, c.op), Sending(st, c))
  {
    PreparedIsRun(st, c.op);
    GpuStepCore(st, c);
    var a := DoSubmit(Sending(st, c));
    assert Plan(st, c) == PrepareActions(c.op) + [a];
    RunSnoc(st.core, PrepareActions(c.op), a);
  }

  /** Following the chain from where the driver was about to place it, a device reads the command and
      finds room for the response. */
  ghost predicate CommandArrived(m: Memory, v: u32, q: Vq, st: GpuState, op: Op)
    requires q.size > 0 && Sends(op) && |st.resources| == SLOTS
  {
    var hops := Walk(m, v, q.nextDesc % q.size, 256);
    && |hops| == 2 && !hops[0].desc.Writable() && hops[1].desc.Writable()
    && Peek(m, hops[0].desc.addr, hops[0].desc.len) == CommandBytes(st, op, st.core.bufAlloc)
    && Cleared(m, hops[1].desc, AnswerLength(op))
  }

  /** Bytes of room for the response: the header, and what the two queries get behind it. */
  function AnswerLength(op: Op): u32 {
    if op.GetDisplayInfo? then 408 else if op.GetEdid? then 1056 else 24
  }

  lemma {:induction false} ZerosRepeated(n: nat)
    ensures Flatten(Repeat(Zeros(64), n)) == Zeros(n)
  {
    RepeatIsCycle(Zeros(64), n);
  }

  lemma ArrivedFrom(m: Memory, q: Vq, st: GpuState, c: Call)
    requires q.size > 0 && Sends(c.op) && |st.resources| == SLOTS
    requires Readable(m, q, Sending(st, c))
    ensures CommandArrived(m, TargetQueue(c.op), q, st, c.op)
  {
    var sub := Sending(st, c);
    var hops := Walk(m, sub.vq, q.nextDesc % q.size, 256);
    ZerosRepeated(ResponseLength(c.op));
    assert SeesPart(m, hops[0].desc, sub.parts[0]) && SeesPart(m, hops[1].desc, sub.parts[1]);
  }

  /** The command goes out, and after `n` actions its chain can be followed. */
  predicate Sendable(st: GpuState, c: Call, n: nat)
    requires ValidCall(c) && Sound(st) && Sends(c.op)
  {
    && Backed(st, c.op)
    && (SendingStep(st, c);
        GoesThrough(Prepared(st, c.op), Sending(st, c)) && Followable(Prepared(st, c.op), n, Sending(st, c)))
  }

  lemma {:induction false} ActionsCount(st: GpuState, calls: seq<Call>)
    requires ValidCalls(calls) && Sound(st)
    ensures |Actions(st, calls)| <= 2 * |calls|
  {
    if calls != [] {
      var k := |calls| - 1;
      ActionsCount(st, calls[..k]);
      PlanCount(GpuRun(st, calls[..k]), calls[k]);
    }
  }

  lemma PlanCount(st: GpuState, c: Call)
    requires |st.resources| == SLOTS
    ensures |Plan(st, c)| <= 2
  {
  }

  lemma PreparedInRun(s: Core, calls: seq<Call>, op: Op) returns (acts: seq<Action>)
    requires Shaped(s) && ValidCalls(calls) && SmallCalls(calls) && Sound(ResetGpu(Reset(s)))
    ensures |s.vqs| == QUEUES && ValidActions(QUEUES, acts) && SmallDeviceRun(acts)
    ensures Prepared(GpuRun(ResetGpu(Reset(s)), calls), op) == Run(Reset(s), acts)
    ensures |acts| <= 2 * |calls| + 1
  {
    var g := ResetGpu(Reset(s));
    GpuRunIsCoreRun(g, calls);
    ActionsSmall(g, calls);
    PreparedIsRun(GpuRun(g, calls), op);
    RunAppend(Reset(s), Actions(g, calls), PrepareActions(op));
    ActionsCount(g, calls);
    acts := Actions(g, calls) + PrepareActions(op);
  }

  lemma CommandSeenFrom(m0: Memory, s: Core, acts: seq<Action>, st: GpuState, c: Call, n: nat)
    requires Shaped(s) && |s.vqs| == QUEUES && ValidActions(QUEUES, acts) && SmallDeviceRun(acts)
    requires ValidCall(c) && Sound(st) && Sends(c.op) && Sendable(st, c, n) && |acts| <= n
    requires Prepared(st, c.op) == Run(Reset(s), acts)
    ensures CommandArrived(Image(m0, GpuStep(st, c).core.log), TargetQueue(c.op),
                           Prepared(st, c.op).vqs[TargetQueue(c.op)], st, c.op)
  {
    SendingStep(st, c);
    DeviceView(m0, s, acts, Sending(st, c));
    ArrivedFrom(Image(m0, GpuStep(st, c).core.log), Prepared(st, c.op).vqs[TargetQueue(c.op)], st, c);
  }

  /** After any run from a reset, when a command goes out: the device reads exactly its bytes, and its
      backing region, if it has one, still holds what it was filled with. */
  lemma CommandSeen(m0: Memory, s: Core, calls: seq<Call>, c: Call)
    requires Shaped(s) && ValidCalls(calls) && SmallCalls(calls) && Sound(ResetGpu(Reset(s)))
    requires ValidCall(c) && Sends(c.op) && Sendable(GpuRun(ResetGpu(Reset(s)), calls), c, 2 * |calls| + 1)
    ensures var st := GpuRun(ResetGpu(Reset(s)), calls);
            var m, q := Image(m0, GpuStep(st, c).core.log), Prepared(st, c.op).vqs[TargetQueue(c.op)];
            && CommandArrived(m, TargetQueue(c.op), q, st, c.op)
            && (NeedsBacking(c.op) ==> RegionHolds(m, st.core.bufAlloc, c.op))
  {
    var acts := PreparedInRun(s, calls, c.op);
    CommandSeenFrom(m0, s, acts, GpuRun(ResetGpu(Reset(s)), calls), c, 2 * |calls| + 1);
    if NeedsBacking(c.op) {
      RegionKept(m0, s, calls, c);
    }
  }

  lemma RegionKept(m0: Memory, s: Core, calls: seq<Call>, c: Call)
    requires Shaped(s) && ValidCalls(calls) && SmallCalls(calls) && Sound(ResetGpu(Reset(s)))
    requires ValidCall(c) && NeedsBacking(c.op) && Backed(GpuRun(ResetGpu(Reset(s)), calls), c.op)
    ensures var st := GpuRun(ResetGpu(Reset(s)), calls);
            RegionHolds(Image(m0, GpuStep(st, c).core.log), st.core.bufAlloc, c.op)
  {
    var g := ResetGpu(Reset(s));
    var st := GpuRun(g, calls);
    GpuRunIsCoreRun(g, calls);
    ActionsSmall(g, calls);
    ReachableRefines(m0, s, Actions(g, calls));
    SendingStep(st, c);
    SendingKeepsBacking(m0, st, c);
  }
}
