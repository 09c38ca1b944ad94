/** virtio-gpu: commands, resource slots and their ids, and backing memory. */
module Gpu {
  import opened Bytes
  import opened Layout
  import opened Guest
  import opened QueueSize
  import opened Virtqueue
  import opened Refinement

  const QUEUES := 4
  const SLOTS := 16
  const CMD_VQ := 0
  const CURSOR_VQ := 1
  const R_INT_STATUS := 0x060
  const R_INT_ACK := 0x064

  datatype Op =
    | Common(action: Action)
    | Create2D(slot: u32, format: u32, width: u32, height: u32)
    | CreateBlob(slot: u32, blobMem: u32, blobFlags: u32, blobId: u64, size64: u64, entries: u32, entrySize: u32)
    | Unref(slot: u32)
    | AttachBacking(slot: u32, backingSlot: u32, entries: u32, entrySize: u32, fill: blob)
    | DetachBacking(slot: u32)
    | Transfer(slot: u32, x: u32, y: u32, width: u32, height: u32, offset: u64)
    | FlushResource(slot: u32, x: u32, y: u32, width: u32, height: u32)
    | SetScanout(slot: u32, scanout: u32, x: u32, y: u32, width: u32, height: u32)
    | UpdateCursor(slot: u32, scanout: u32, x: u32, y: u32, hotX: u32, hotY: u32)
    | MoveCursor(scanout: u32, x: u32, y: u32)
    | GetDisplayInfo
    | GetEdid(scanout: u32)
    | SetFence(enabled: bool, fenceId: u64, ctxId: u32)

  /** One op as dispatched; `irq` is what the device answers for INT_STATUS after the command. */
  datatype Call = Call(op: Op, irq: u32)

  datatype Resource = Resource(id: u32, width: u32, height: u32, format: u32)
  datatype Backing = Backing(base: cursor, total: u32, slot: u32)

  const EMPTY := Resource(0, 0, 0, 0)

  datatype GpuState = GpuState(
    core: Core, resources: seq<Resource>, backings: seq<Backing>, nextId: u32,
    fenceEnabled: bool, fenceId: u64, fenceCtx: u32)

  ghost predicate Sound(st: GpuState) {
    && Shaped(st.core) && |st.core.vqs| == QUEUES && st.core.bufAlloc > 0
    && |st.resources| == SLOTS && |st.backings| == SLOTS
  }

  function ResetGpu(core: Core): GpuState {
    GpuState(core, NoResources(), NoBackings(), 1, false, 0, 0)
  }

  // Commands.

  function CtrlHeader(st: GpuState, command: u32): seq<Field> {
    if st.fenceEnabled then [L32(command), L32(1), L64(st.fenceId), L32(st.fenceCtx), L32(0)]
    else [L32(command), L32(0), L64(0), L32(0), L32(0)]
  }

  function SlotId(st: GpuState, slot: u32): u32
    requires |st.resources| == SLOTS
  {
    st.resources[slot % SLOTS].id
  }

  function EntryCount(entries: u32): u32 { Clamp(entries, 1, 16) }

  lemma {:induction false} ProductBound(a: nat, b: nat)
    requires b <= 4096
    ensures a * b <= a * 4096 && (a > 0 && b > 0 ==> a * b > 0)
  {
    if a > 0 {
      ProductBound(a - 1, b);
      assert a * b == (a - 1) * b + b;
    }
  }

  /** Total backing size of an attach or a blob; never above 64 KiB. */
  function TotalSize(op: Op): (n: u32)
    requires op.AttachBacking? || op.CreateBlob?
    ensures 0 < n <= 0x1_0000
  {
    ProductBound(EntryCount(op.entries), EntrySize(op));
    EntryCount(op.entries) * EntrySize(op)
  }

  function EntrySize(op: Op): (n: u32)
    requires op.AttachBacking? || op.CreateBlob?
    ensures 0 < n <= 4096
  {
    if op.AttachBacking? then Clamp(op.entrySize, 1, 4096) else Clamp(op.entrySize, 16, 4096)
  }

  /** Scatter-gather entry number `i`. */
  function Entry(base: cursor, size: u32, i: nat): (fs: seq<Field>)
    requires i < 16 && size <= 4096
    ensures |fs| == 3
  {
    [L64(EntryAddress(base, size, i)), L32(size), L32(0)]
  }

  function EntryAddress(base: cursor, size: u32, i: nat): u64
    requires i <= 16 && size <= 4096
  {
    ProductBound(i, size);
    base + i * size
  }

  /** Scatter-gather entries number `i` onwards: `size` bytes each, one after the other from `base`. */
  function Entries(base: cursor, size: u32, i: nat, n: nat): seq<Field>
    requires i <= n <= 16 && size <= 4096
    decreases n - i
  {
    if i == n then [] else Entry(base, size, i) + Entries(base, size, i + 1, n)
  }

  function Command(op: Op): u32 {
    match op
    case GetDisplayInfo => 0x0100
    case Create2D(_, _, _, _) => 0x0101
    case Unref(_) => 0x0102
    case SetScanout(_, _, _, _, _, _) => 0x0103
    case FlushResource(_, _, _, _, _) => 0x0104
    case Transfer(_, _, _, _, _, _) => 0x0105
    case AttachBacking(_, _, _, _, _) => 0x0106
    case DetachBacking(_) => 0x0107
    case GetEdid(_) => 0x010a
    case CreateBlob(_, _, _, _, _, _, _) => 0x010b
    case UpdateCursor(_, _, _, _, _, _) => 0x0300
    case MoveCursor(_, _, _) => 0x0301
    case _ => 0
  }

  predicate Sends(op: Op) { !op.Common? && !op.SetFence? }

  /** The body of a command; `base` is its backing region, if it has one. */
  function CommandBody(st: GpuState, op: Op, base: cursor): seq<Field>
    requires Sends(op) && |st.resources| == SLOTS
  {
    match op
    case Create2D(_, format, width, height) => [L32(st.nextId), L32(format), L32(width), L32(height)]
    case CreateBlob(_, mem, flags, id, size, entries, _) =>
      [L32(st.nextId), L32(mem), L32(flags), L32(EntryCount(entries)), L64(id), L64(size)]
      + Entries(base, EntrySize(op), 0, EntryCount(entries))
    case Unref(slot) => [L32(SlotId(st, slot)), L32(0)]
    case AttachBacking(slot, _, entries, _, _) =>
      [L32(SlotId(st, slot)), L32(EntryCount(entries))] + Entries(base, EntrySize(op), 0, EntryCount(entries))
    case DetachBacking(slot) => [L32(SlotId(st, slot)), L32(0)]
    case Transfer(slot, x, y, w, h, offset) =>
      [L32(x), L32(y), L32(w), L32(h), L64(offset), L32(SlotId(st, slot)), L32(0)]
    case FlushResource(slot, x, y, w, h) => [L32(x), L32(y), L32(w), L32(h), L32(SlotId(st, slot)), L32(0)]
    case SetScanout(slot, scanout, x, y, w, h) =>
      [L32(x), L32(y), L32(w), L32(h), L32(scanout), L32(SlotId(st, slot))]
    case UpdateCursor(slot, scanout, x, y, hotX, hotY) =>
      [L32(scanout), L32(x), L32(y), L32(0), L32(SlotId(st, slot)), L32(hotX), L32(hotY), L32(0)]
    case MoveCursor(scanout, x, y) =>
      [L32(scanout), L32(x), L32(y), L32(0), L32(0), L32(0), L32(0), L32(0)]
    case GetDisplayInfo => []
    case GetEdid(scanout) => [L32(scanout), L32(0)]
  }

  function CommandFields(st: GpuState, op: Op, base: cursor): seq<Field>
    requires Sends(op) && |st.resources| == SLOTS
  {
    CtrlHeader(st, Command(op)) + CommandBody(st, op, base)
  }

  function ResponseLength(op: Op): u32 {
    match op
    case GetDisplayInfo => 24 + 16 * 24
    case GetEdid(_) => 24 + 8 + 1024
    case _ => 24
  }

  function TargetQueue(op: Op): u32 {
    if op.UpdateCursor? || op.MoveCursor? then CURSOR_VQ else CMD_VQ
  }

  lemma {:induction false} EntriesLength(base: cursor, size: u32, i: nat, n: nat)
    requires i <= n <= 16 && size <= 4096
    ensures |Entries(base, size, i, n)| == 3 * (n - i)
    decreases n - i
  {
    if i < n {
      EntriesLength(base, size, i + 1, n);
    }
  }

  lemma {:induction false} WidthBound(fs: seq<Field>)
    ensures |PutAll(fs)| <= 8 * |fs|
    ensures fs != [] ==> PutAll(fs) != []
  {
    if fs != [] {
      WidthBound(fs[1..]);
    }
  }

  lemma CommandSize(st: GpuState, op: Op, base: cursor)
    requires Sends(op) && |st.resources| == SLOTS
    ensures 0 < |PutAll(CommandFields(st, op, base))| < 0x1000
  {
    if op.AttachBacking? || op.CreateBlob? {
      EntriesLength(base, EntrySize(op), 0, EntryCount(op.entries));
    }
    WidthBound(CommandFields(st, op, base));
  }

  function CommandBytes(st: GpuState, op: Op, base: cursor): (s: blob)
    requires Sends(op) && |st.resources| == SLOTS
    ensures s != []
  {
    CommandSize(st, op, base);
    PutAll(CommandFields(st, op, base))
  }

  // Filling memory in pieces.

  /** `n` bytes of `unit` repeated, one repetition (or what is left of it) at a time. */
  function Repeat(unit: seq<byte>, n: nat): (c: seq<seq<byte>>)
    requires unit != []
    ensures TotalLength(c) == n
  {
    if n == 0 then []
    else
      var k := Min(|unit|, n);
      [unit[..k]] + Repeat(unit, n - k)
  }

  /** Byte `j` of `unit` repeated. */
  function Cycle(unit: seq<byte>, n: nat): (s: seq<byte>)
    requires unit != []
    ensures |s| == n && forall j | 0 <= j < n :: s[j] == unit[j % |unit|]
  {
    seq<byte>(n, j requires 0 <= j < n => unit[j % |unit|])
  }

  lemma CycleSplit(unit: seq<byte>, n: nat)
    requires unit != [] && n > 0
    ensures var k := Min(|unit|, n); unit[..k] + Cycle(unit, n - k) == Cycle(unit, n)
  {
    var k := Min(|unit|, n);
    var s := unit[..k] + Cycle(unit, n - k);
    forall j | 0 <= j < n ensures s[j] == Cycle(unit, n)[j] {
      if j < k {
        SmallMod(j, |unit|);
      } else {
        AddMultiple(j - k, |unit|, 1);
      }
    }
  }

  lemma {:induction false} RepeatIsCycle(unit: seq<byte>, n: nat)
    requires unit != []
    ensures Flatten(Repeat(unit, n)) == Cycle(unit, n)
    decreases n
  {
    if n > 0 {
      var k := Min(|unit|, n);
      RepeatIsCycle(unit, n - k);
      CycleSplit(unit, n);
    }
  }

  function Unit(fill: blob): (u: blob)
    ensures u != []
  {
    if fill == [] then Zeros(64) else fill
  }

  /** What the backing region of an op is filled with, over and over. */
  function UnitOf(op: Op): (u: blob)
    requires op.AttachBacking? || op.CreateBlob?
    ensures u != []
  {
    if op.AttachBacking? then Unit(op.fill) else Zeros(64)
  }

  function ZeroPieces(n: u32): pieces { Repeat(Zeros(64), n) }

  // Steps.

  function Tail(irq: u32): seq<Access> {
    [RegRead(R_INT_STATUS)] + if irq != 0 then [RegWrite(R_INT_ACK, irq)] else []
  }

  function CommandSubmission(v: u32, req: blob, respLen: u32, irq: u32): Submission {
    Submission(v, 2, [Part(Whole(req), false), Part(ZeroPieces(respLen), true)], 2, false, Tail(irq))
  }

  /** Whether an op that needs backing memory gets it. */
  predicate Backed(st: GpuState, op: Op) {
    (op.AttachBacking? || op.CreateBlob?) ==> Fits(st.core, TotalSize(op))
  }

  function Fillable(op: Op): (c: pieces)
    requires op.AttachBacking? || op.CreateBlob?
    ensures TotalLength(c) == TotalSize(op)
  {
    Repeat(UnitOf(op), TotalSize(op))
  }

  predicate NeedsBacking(op: Op) { op.AttachBacking? || op.CreateBlob? }

  /** What a call does to the core. */
  function Plan(st: GpuState, c: Call): seq<Action>
    requires |st.resources| == SLOTS
  {
    if c.op.Common? then [c.op.action]
    else if c.op.SetFence? || !Backed(st, c.op) then []
    else
      (if NeedsBacking(c.op) then [DoStage(Fillable(c.op))] else []) + [DoSubmit(Sending(st, c))]
  }

  /** The submission of a command; a backing region, if any, is where the allocator stands. */
  function Sending(st: GpuState, c: Call): Submission
    requires |st.resources| == SLOTS && Sends(c.op)
  {
    CommandSubmission(TargetQueue(c.op), CommandBytes(st, c.op, st.core.bufAlloc), ResponseLength(c.op), c.irq)
  }

  predicate ValidCall(c: Call) {
    c.op.Common? ==>
      !c.op.action.DoStage? && !c.op.action.DoSubmit? && (c.op.action.DoAddDesc? ==> c.op.action.floor == 0)
  }

  lemma PlanIsValid(st: GpuState, c: Call)
    requires ValidCall(c) && |st.resources| == SLOTS
    ensures ValidActions(QUEUES, Plan(st, c))
  {
  }

  predicate Creates(op: Op) { op.Create2D? || op.CreateBlob? }

  predicate IsReset(op: Op) { op.Common? && op.action.DoReset? }

  // The tables, apart from the core. `backed` says whether the op got its backing memory.

  function NoResources(): seq<Resource> { seq(SLOTS, _ => EMPTY) }
  function NoBackings(): seq<Backing> { seq(SLOTS, _ => Backing(0, 0, 0)) }

  function Following(id: u32): u32 { Wrap32(id + 1) }

  function NextId(id: u32, op: Op): u32 {
    if IsReset(op) then 1 else if Creates(op) then Following(id) else id
  }

  /** A plain create is recorded even if its command could not be sent; a blob create only if its
      backing memory was there. */
  function NextResources(res: seq<Resource>, id: u32, op: Op, backed: bool): (r: seq<Resource>)
    requires |res| == SLOTS
    ensures |r| == SLOTS
  {
    if IsReset(op) then NoResources()
    else if op.Create2D? then res[op.slot % SLOTS := Resource(id, op.width, op.height, op.format)]
    else if op.CreateBlob? && backed then res[op.slot % SLOTS := Resource(id, 0, 0, 0)]
    else if op.Unref? then res[op.slot % SLOTS := EMPTY]
    else res
  }

  function NextBackings(bs: seq<Backing>, base: cursor, op: Op, backed: bool): (r: seq<Backing>)
    requires |bs| == SLOTS
    ensures |r| == SLOTS
  {
    if IsReset(op) then NoBackings()
    else if op.AttachBacking? && backed then
      bs[op.backingSlot % SLOTS := Backing(base, TotalSize(op), op.slot % SLOTS)]
    else bs
  }

  function GpuStep(st: GpuState, c: Call): GpuState
    requires ValidCall(c) && Sound(st)
  {
    PlanIsValid(st, c);
    var core := Run(st.core, Plan(st, c));
    var op := c.op;
    var backed := Backed(st, op);
    var next := GpuState(core, NextResources(st.resources, st.nextId, op, backed),
                         NextBackings(st.backings, st.core.bufAlloc, op, backed), NextId(st.nextId, op),
                         st.fenceEnabled, st.fenceId, st.fenceCtx);
    if IsReset(op) then next.(fenceEnabled := false, fenceId := 0, fenceCtx := 0)
    else if op.SetFence? then next.(fenceEnabled := op.enabled, fenceId := op.fenceId, fenceCtx := op.ctxId)
    else next
  }

  // Runs.

  lemma {:induction false} AllocAllGrows(s: Core, parts: seq<Part>, named: bool)
    ensures s.bufAlloc <= AllocAll(s, parts, named).0.bufAlloc
    decreases |parts|
  {
    if parts != [] {
      AllocAllGrows(AllocPart(s, parts[0].chunks, named).0, parts[1..], named);
    }
  }

  lemma CursorStaysPositive(s: Core, a: Action)
    requires Shaped(s) && a.Valid(|s.vqs|) && s.bufAlloc > 0
    ensures Step(s, a).bufAlloc > 0
  {
    if a.DoSubmit? && HasRoom(s, a.sub.vq, a.sub.slack) {
      AllocAllGrows(s, a.sub.parts, a.sub.named);
      AllocAllKeepsQueues(s, a.sub.parts, a.sub.named);
      var (s1, bs) := AllocAll(s, a.sub.parts, a.sub.named);
      if bs.Some? {
        PlaceAllFrame(s1, a.sub.vq, bs.value[..a.sub.placed], a.sub.parts);
      }
    }
  }

  lemma {:induction false} CursorStaysPositiveRun(s: Core, acts: seq<Action>)
    requires Shaped(s) && ValidActions(|s.vqs|, acts) && s.bufAlloc > 0
    ensures Run(s, acts).bufAlloc > 0
  {
    if acts != [] {
      var k := |acts| - 1;
      CursorStaysPositiveRun(s, acts[..k]);
      CursorStaysPositive(Run(s, acts[..k]), acts[k]);
    }
  }

  lemma StepSound(st: GpuState, c: Call)
    requires ValidCall(c) && Sound(st)
    ensures Sound(GpuStep(st, c))
  {
    PlanIsValid(st, c);
    CursorStaysPositiveRun(st.core, Plan(st, c));
  }

  predicate ValidCalls(calls: seq<Call>) {
    forall c | c in calls :: ValidCall(c)
  }

  function GpuRun(st: GpuState, calls: seq<Call>): (r: GpuState)
    requires ValidCalls(calls) && Sound(st)
    ensures Sound(r)
  {
    if calls == [] then st
    else
      var k := |calls| - 1;
      var t := GpuRun(st, calls[..k]);
      StepSound(t, calls[k]);
      GpuStep(t, calls[k])
  }

  function Actions(st: GpuState, calls: seq<Call>): seq<Action>
    requires ValidCalls(calls) && Sound(st)
  {
    if calls == [] then []
    else
      var k := |calls| - 1;
      Actions(st, calls[..k]) + Plan(GpuRun(st, calls[..k]), calls[k])
  }

  /** A gpu run is a run of the core, so everything proved of core runs holds of it. */
  lemma {:induction false} GpuRunIsCoreRun(st: GpuState, calls: seq<Call>)
    requires ValidCalls(calls) && Sound(st)
    ensures ValidActions(QUEUES, Actions(st, calls))
    ensures GpuRun(st, calls).core == Run(st.core, Actions(st, calls))
  {
    if calls != [] {
      var k := |calls| - 1;
      GpuRunIsCoreRun(st, calls[..k]);
      var t := GpuRun(st, calls[..k]);
      PlanIsValid(t, calls[k]);
      RunAppend(st.core, Actions(st, calls[..k]), Plan(t, calls[k]));
      GpuStepCore(t, calls[k]);
    }
  }

  lemma GpuStepCore(st: GpuState, c: Call)
    requires ValidCall(c) && Sound(st)
    ensures ValidActions(QUEUES, Plan(st, c)) && GpuStep(st, c).core == Run(st.core, Plan(st, c))
  {
    PlanIsValid(st, c);
  }

  // Resource ids against the history of ops.

  /** Creates since the last reset, whether or not they were sent or recorded. */
  function CreateCount(calls: seq<Call>): nat {
    if calls == [] then 0
    else
      var k := |calls| - 1;
      if IsReset(calls[k].op) then 0
      else CreateCount(calls[..k]) + if Creates(calls[k].op) then 1 else 0
  }

  /** Which calls of a run got the backing memory they needed. */
  function Fates(st: GpuState, calls: seq<Call>): (fs: seq<bool>)
    requires ValidCalls(calls) && Sound(st)
    ensures |fs| == |calls|
  {
    if calls == [] then []
    else
      var k := |calls| - 1;
      Fates(st, calls[..k]) + [Backed(GpuRun(st, calls[..k]), calls[k].op)]
  }

  /** The id of the latest create recorded in `slot` and not since unreferenced; 0 if none. The n-th
      create since a reset has id n, recorded or not. */
  function LatestId(calls: seq<Call>, fates: seq<bool>, slot: u32): nat
    requires |fates| == |calls|
  {
    if calls == [] then 0
    else
      var k := |calls| - 1;
      var op := calls[k].op;
      if IsReset(op) then 0
      else if op.Unref? && op.slot % SLOTS == slot then 0
      else if (op.Create2D? || (op.CreateBlob? && fates[k])) && op.slot % SLOTS == slot then CreateCount(calls[..k]) + 1
      else LatestId(calls[..k], fates[..k], slot)
  }

  // The tables alone, over a run.

  datatype Tables = Tables(resources: seq<Resource>, nextId: u32)

  function TableRun(calls: seq<Call>, fates: seq<bool>): (t: Tables)
    requires |fates| == |calls|
    ensures |t.resources| == SLOTS
  {
    if calls == [] then Tables(NoResources(), 1)
    else
      var k := |calls| - 1;
      var t := TableRun(calls[..k], fates[..k]);
      Tables(NextResources(t.resources, t.nextId, calls[k].op, fates[k]), NextId(t.nextId, calls[k].op))
  }

  lemma TablesStep(st: GpuState, c: Call)
    requires ValidCall(c) && Sound(st)
    ensures GpuStep(st, c).resources == NextResources(st.resources, st.nextId, c.op, Backed(st, c.op))
    ensures GpuStep(st, c).nextId == NextId(st.nextId, c.op)
  {
  }

  lemma {:induction false} TablesOfRun(core: Core, calls: seq<Call>)
    requires ValidCalls(calls) && Sound(ResetGpu(core))
    ensures var st := GpuRun(ResetGpu(core), calls);
            TableRun(calls, Fates(ResetGpu(core), calls)) == Tables(st.resources, st.nextId)
  {
    if calls != [] {
      var k := |calls| - 1;
      var t := GpuRun(ResetGpu(core), calls[..k]);
      TablesOfRun(core, calls[..k]);
      TablesStep(t, calls[k]);
      assert Fates(ResetGpu(core), calls)[..k] == Fates(ResetGpu(core), calls[..k]);
    }
  }

  lemma {:induction false} NextIdCounts(calls: seq<Call>, fates: seq<bool>)
    requires |fates| == |calls|
    ensures TableRun(calls, fates).nextId == Wrap32(CreateCount(calls) + 1)
  {
    if calls != [] {
      var k := |calls| - 1;
      NextIdCounts(calls[..k], fates[..k]);
      WrapFacts(CreateCount(calls[..k]) + 1);
    }
  }

  /** The id counter did not reach its wrap at any point of the run. */
  predicate Unwrapped(calls: seq<Call>) {
    CreateCount(calls) < TWO_32 - 1 && (calls == [] || Unwrapped(calls[..|calls| - 1]))
  }

  lemma {:induction false} SlotsHoldLatest(calls: seq<Call>, fates: seq<bool>, slot: u32)
    requires |fates| == |calls| && Unwrapped(calls) && slot < SLOTS
    ensures TableRun(calls, fates).resources[slot].id == LatestId(calls, fates, slot)
  {
    if calls != [] {
      var k := |calls| - 1;
      SlotsHoldLatest(calls[..k], fates[..k], slot);
      NextIdCounts(calls[..k], fates[..k]);
    }
  }

  /** Non-empty slots hold different ids, all below the next one. */
  predicate Distinct(res: seq<Resource>, next: u32)
    requires |res| == SLOTS
  {
    && (forall i | 0 <= i < SLOTS :: res[i].id < next)
    && (forall i, j | 0 <= i < j < SLOTS && res[i].id != 0 :: res[i].id != res[j].id)
  }

  lemma FillDistinct(res: seq<Resource>, id: u32, slot: nat, r: Resource)
    requires |res| == SLOTS && Distinct(res, id) && id < TWO_32 - 1 && slot < SLOTS && r.id == id
    ensures Following(id) == id + 1 && Distinct(res[slot := r], id + 1) && Distinct(res, id + 1)
  {
  }

  lemma ClearDistinct(res: seq<Resource>, id: u32, slot: nat)
    requires |res| == SLOTS && Distinct(res, id) && slot < SLOTS
    ensures Distinct(res[slot := EMPTY], id)
  {
    assert res[slot].id < id;
  }

  lemma DistinctStep(res: seq<Resource>, id: u32, op: Op, backed: bool)
    requires |res| == SLOTS && Distinct(res, id) && (Creates(op) ==> id < TWO_32 - 1)
    ensures Distinct(NextResources(res, id, op, backed), NextId(id, op))
  {
    if op.Create2D? {
      FillDistinct(res, id, op.slot % SLOTS, Resource(id, op.width, op.height, op.format));
    } else if op.CreateBlob? {
      FillDistinct(res, id, op.slot % SLOTS, Resource(id, 0, 0, 0));
    } else if op.Unref? {
      ClearDistinct(res, id, op.slot % SLOTS);
    }
  }

  lemma {:induction false} TablesStayDistinct(calls: seq<Call>, fates: seq<bool>)
    requires |fates| == |calls| && Unwrapped(calls)
    ensures var t := TableRun(calls, fates);
            Distinct(t.resources, t.nextId) && t.nextId == CreateCount(calls) + 1
  {
    NextIdExact(calls, fates);
    if calls != [] {
      var k := |calls| - 1;
      TablesStayDistinct(calls[..k], fates[..k]);
      CreateBound(calls);
      var t := TableRun(calls[..k], fates[..k]);
      DistinctStep(t.resources, t.nextId, calls[k].op, fates[k]);
    }
  }

  lemma NextIdExact(calls: seq<Call>, fates: seq<bool>)
    requires |fates| == |calls| && Unwrapped(calls)
    ensures TableRun(calls, fates).nextId == CreateCount(calls) + 1
  {
    NextIdCounts(calls, fates);
    SmallMod(CreateCount(calls) + 1, TWO_32);
  }

  lemma CreateBound(calls: seq<Call>)
    requires calls != [] && Unwrapped(calls)
    ensures Creates(calls[|calls| - 1].op) ==> CreateCount(calls[..|calls| - 1]) + 1 < TWO_32 - 1
  {
  }

  /** Over any run in which the id counter does not wrap: a command that refers to a slot carries the
      id of the latest create recorded there and not since unreferenced (0 if none), and the live
      ids are pairwise distinct and below the next id, which is one more than the number of creates
      since the reset, so no id is given out twice even when a create's command or backing fails. */
  lemma SlotsFollowHistory(core: Core, calls: seq<Call>, slot: u32)
    requires ValidCalls(calls) && Sound(ResetGpu(core)) && Unwrapped(calls)
    ensures var st := GpuRun(ResetGpu(core), calls);
            && SlotId(st, slot) == LatestId(calls, Fates(ResetGpu(core), calls), slot % SLOTS)
            && Distinct(st.resources, st.nextId) && st.nextId == CreateCount(calls) + 1
  {
    var fates := Fates(ResetGpu(core), calls);
    TablesOfRun(core, calls);
    SlotsHoldLatest(calls, fates, slot % SLOTS);
    TablesStayDistinct(calls, fates);
  }
}
