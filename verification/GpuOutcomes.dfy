/** What each gpu command does in any run that is not astronomically long: which queue it goes to and
    when, what the device decodes, and what its backing memory holds. */
module GpuOutcomes {
  import opened Bytes
  import opened Guest
  import opened Virtqueue
  import opened Pool
  import opened Confinement
  import opened Refinement
  import opened Chain
  import opened Counting
  import opened Guards
  import opened Gpu
  import opened GpuCommands
  import opened GpuDecode
  import opened Wrappers

  // The fence in force.

  /** What the latest SetFence since the last reset says; no fence if there was none. */
  function LatestFence(calls: seq<Call>): Fence {
    if calls == [] then NoFence
    else
      var k := |calls| - 1;
      match calls[k].op
      case Common(a) => if a.DoReset? then NoFence else LatestFence(calls[..k])
      case SetFence(enabled, id, ctx) => if enabled then Fenced(id, ctx) else NoFence
      case _ => LatestFence(calls[..k])
  }

  lemma FenceAfter(st: GpuState, c: Call)
    requires Sound(st) && ValidCall(c)
    ensures FenceFor(GpuStep(st, c)) ==
            match c.op
            case Common(a) => if a.DoReset? then NoFence else FenceFor(st)
            case SetFence(enabled, id, ctx) => if enabled then Fenced(id, ctx) else NoFence
            case _ => FenceFor(st)
  {
  }

  /** Every command carries the fence that the latest SetFence set, and none after one that clears it. */
  lemma {:induction false} FencesFollowHistory(core: Core, calls: seq<Call>)
    requires ValidCalls(calls) && Sound(ResetGpu(core))
    ensures FenceFor(GpuRun(ResetGpu(core), calls)) == LatestFence(calls)
  {
    if calls != [] {
      var k := |calls| - 1;
      FencesFollowHistory(core, calls[..k]);
      FenceAfter(GpuRun(ResetGpu(core), calls[..k]), calls[k]);
    }
  }

  // The tables.

  /** Width, height and format that the latest create recorded in `slot`, zeros for a blob and after an
      unref. */
  function LatestShape(calls: seq<Call>, fates: seq<bool>, slot: u32): (u32, u32, u32)
    requires |fates| == |calls|
  {
    if calls == [] then (0, 0, 0)
    else
      var k := |calls| - 1;
      match calls[k].op
      case Common(a) => if a.DoReset? then (0, 0, 0) else LatestShape(calls[..k], fates[..k], slot)
      case Create2D(other, format, width, height) =>
        if other % 16 == slot then (width, height, format) else LatestShape(calls[..k], fates[..k], slot)
      case CreateBlob(other, _, _, _, _, _, _) =>
        if other % 16 == slot && fates[k] then (0, 0, 0) else LatestShape(calls[..k], fates[..k], slot)
      case Unref(other) => if other % 16 == slot then (0, 0, 0) else LatestShape(calls[..k], fates[..k], slot)
      case _ => LatestShape(calls[..k], fates[..k], slot)
  }

  /** What a slot remembers besides the id. */
  function ShapeOf(r: Resource): (u32, u32, u32) { (r.width, r.height, r.format) }

  lemma {:induction false} ShapesFollowTables(calls: seq<Call>, fates: seq<bool>, slot: u32)
    requires |fates| == |calls| && slot < SLOTS
    ensures ShapeOf(TableRun(calls, fates).resources[slot]) == LatestShape(calls, fates, slot)
  {
    if calls != [] {
      var k := |calls| - 1;
      ShapesFollowTables(calls[..k], fates[..k], slot);
    }
  }

  /** A slot remembers the shape of the latest create recorded there. */
  lemma ShapesFollowHistory(core: Core, calls: seq<Call>, slot: u32)
    requires ValidCalls(calls) && Sound(ResetGpu(core)) && slot < SLOTS
    ensures ShapeOf(GpuRun(ResetGpu(core), calls).resources[slot]) ==
            LatestShape(calls, Fates(ResetGpu(core), calls), slot)
  {
    TablesOfRun(core, calls);
    ShapesFollowTables(calls, Fates(ResetGpu(core), calls), slot);
  }

  /** The backing that the latest attach recorded in `slot`: where its region is, its size, and the
      resource slot. */
  function LatestBacking(core: Core, calls: seq<Call>, slot: u32): (int, nat, u32)
    requires ValidCalls(calls) && Sound(ResetGpu(core))
  {
    if calls == [] then (0, 0, 0)
    else
      var k := |calls| - 1;
      var at := GpuRun(ResetGpu(core), calls[..k]).core.bufAlloc;
      match calls[k].op
      case Common(a) => if a.DoReset? then (0, 0, 0) else LatestBacking(core, calls[..k], slot)
      case AttachBacking(r, other, _, _, _) =>
        if other % 16 == slot && at + RegionSize(calls[k].op) + 16 <= 0x47F0_0000 then
          (at, RegionSize(calls[k].op), r % 16)
        else LatestBacking(core, calls[..k], slot)
      case _ => LatestBacking(core, calls[..k], slot)
  }

  function BackingOf(b: Backing): (int, nat, u32) { (b.base, b.total, b.slot) }

  lemma BackingAfter(st: GpuState, c: Call, slot: u32)
    requires Sound(st) && ValidCall(c) && slot < SLOTS
    ensures Sound(GpuStep(st, c))
    ensures BackingOf(GpuStep(st, c).backings[slot]) ==
            match c.op
            case Common(a) => if a.DoReset? then (0, 0, 0) else BackingOf(st.backings[slot])
            case AttachBacking(r, other, _, _, _) =>
              if other % 16 == slot && st.core.bufAlloc + RegionSize(c.op) + 16 <= 0x47F0_0000 then
                (st.core.bufAlloc, RegionSize(c.op), r % 16)
              else BackingOf(st.backings[slot])
            case _ => BackingOf(st.backings[slot])
  {
    StepSound(st, c);
    if c.op.AttachBacking? {
      RegionSizeIs(c.op);
    }
  }

  /** The backing table follows the attaches that got their memory. */
  lemma {:induction false} BackingsFollowHistory(core: Core, calls: seq<Call>, slot: u32)
    requires ValidCalls(calls) && Sound(ResetGpu(core)) && slot < SLOTS
    ensures BackingOf(GpuRun(ResetGpu(core), calls).backings[slot]) == LatestBacking(core, calls, slot)
  {
    if calls != [] {
      var k := |calls| - 1;
      BackingsFollowHistory(core, calls[..k], slot);
      BackingAfter(GpuRun(ResetGpu(core), calls[..k]), calls[k], slot);
    }
  }

  /** Which calls of a run got the backing memory they needed: the pool before each call says so. */
  lemma FatesFollowPool(st: GpuState, calls: seq<Call>)
    requires ValidCalls(calls) && Sound(st)
    ensures Fates(st, calls) ==
            if calls == [] then []
            else
              var n := |calls| - 1;
              Fates(st, calls[..n]) + [GetsMemory(GpuRun(st, calls[..n]), calls[n].op)]
  {
    if calls != [] {
      MemoryIs(GpuRun(st, calls[..|calls| - 1]), calls[|calls| - 1].op);
    }
  }

  /** The pool has room for the region of an op, if it has one. */
  predicate GetsMemory(st: GpuState, op: Op) {
    op.AttachBacking? || op.CreateBlob? ==> st.core.bufAlloc + RegionSize(op) + 16 <= 0x47F0_0000
  }

  lemma MemoryIs(st: GpuState, op: Op)
    ensures Backed(st, op) <==> GetsMemory(st, op)
  {
    if NeedsBacking(op) {
      RegionSizeIs(op);
    }
  }

  // Commands.

  predicate Commands(op: Op) { !op.Common? && !op.SetFence? }

  /** The cursor ops go to queue 1, all others to queue 0. */
  function QueueOf(op: Op): u32 { if op.UpdateCursor? || op.MoveCursor? then 1 else 0 }

  /** The interrupt status is read after every command, and acknowledged if it is not 0. */
  function Ending(v: u32, irq: u32): seq<Event> {
    [Mmio(RegWrite(0x050, v)), Mmio(RegRead(0x060))] + if irq != 0 then [Mmio(RegWrite(0x064, irq))] else []
  }

  lemma SendingPieces(st: GpuState, c: Call)
    requires Sound(st) && ValidCall(c) && Commands(c.op)
    ensures var sub := Sending(st, c);
            && sub.Valid(4) && ReadableFirst(sub.parts) && !sub.named
            && Lengths(sub.parts) == [|CommandBytes(st, c.op, st.core.bufAlloc)|, AnswerLength(c.op)]
            && sub.vq == QueueOf(c.op) && sub.slack == 2 && sub.placed == 2
            && Registers([RegWrite(0x050, sub.vq)] + sub.tail) == Ending(QueueOf(c.op), c.irq)
  {
    assert Lengths(Sending(st, c).parts) == [|CommandBytes(st, c.op, st.core.bufAlloc)|, AnswerLength(c.op)];
  }

  /** The lengths of all the buffers of a command, its region first. */
  function CommandLengths(st: GpuState, op: Op): seq<nat>
    requires Sound(st) && Commands(op)
  {
    (if op.AttachBacking? || op.CreateBlob? then [RegionSize(op)] else [])
    + [|CommandBytes(st, op, st.core.bufAlloc)|, AnswerLength(op)]
  }

  lemma FittingBehind(r: Core, p: Core, region: nat, a: nat, b: nat)
    requires p.bufAlloc == r.bufAlloc + (region + 16) / 16 * 16
    ensures Fitting(p, [a, b]) <==> Fitting(r, [region] + [a, b])
  {
    assert ([region] + [a, b])[1..] == [a, b] && [a, b][1..] == [b];
  }

  lemma RegionFirst(r: Core, region: nat, a: nat, b: nat)
    requires Fitting(r, [region] + [a, b])
    ensures r.bufAlloc + region + 16 <= 0x47F0_0000
  {
    assert ([region] + [a, b])[1..] == [a, b] && [a, b][1..] == [b];
    assert Needs([a, b]) == (a + 16) / 16 * 16 + Needs([b]);
    PadBounds(region);
    PadBounds(a);
  }

  lemma PadBounds(len: nat)
    ensures len < (len + 16) / 16 * 16 && 16 <= (len + 16) / 16 * 16
  {
  }

  lemma PreparedFacts(st: GpuState, op: Op)
    requires Sound(st) && Commands(op) && Backed(st, op) && st.core.bufAlloc % 16 == 0
    ensures var r, p := st.core, Prepared(st, op);
            && p.vqs == r.vqs && p.hist.queues == r.hist.queues
            && (Fitting(p, [|CommandBytes(st, op, r.bufAlloc)|, AnswerLength(op)]) <==>
                Fitting(r, CommandLengths(st, op)))
  {
    if NeedsBacking(op) {
      RegionSizeIs(op);
      ReservedFacts(st.core.bufAlloc, RegionSize(op));
      PaddedTo16(RegionSize(op));
      FittingBehind(st.core, Prepared(st, op), RegionSize(op), |CommandBytes(st, op, st.core.bufAlloc)|,
                    AnswerLength(op));
    } else {
      assert CommandLengths(st, op) == [|CommandBytes(st, op, st.core.bufAlloc)|, AnswerLength(op)];
    }
  }

  /** The chain of a command: what a device decodes from it, and cleared room for the response. */
  ghost predicate CommandFound(m: Memory, hops: seq<Hop>, st: GpuState, op: Op, fence: Fence)
    requires Sound(st) && Commands(op)
  {
    && |hops| == 2 && !hops[0].desc.Writable()
    && Told(Decode(Peek(m, hops[0].desc.addr, hops[0].desc.len)), st, op, fence)
    && Cleared(m, hops[1].desc, AnswerLength(op))
  }

  /** The fence, the command with its fields, and as many ranges as the op asks for, each of them in its
      place in the region. */
  ghost predicate Told(d: Option<Received>, st: GpuState, op: Op, fence: Fence)
    requires Sound(st) && Commands(op)
  {
    && d.Some? && d.value.fence == fence && d.value.wire == Meaning(st, op) && d.value.rest == []
    && if op.AttachBacking? || op.CreateBlob? then
         && |d.value.ranges| == Entries16(op.entries)
         && forall i | 0 <= i < |d.value.ranges| :: RangeIs(d.value.ranges[i], st.core.bufAlloc, op, i)
       else d.value.ranges == []
  }

  lemma ItTells(st: GpuState, op: Op)
    requires Sound(st) && Commands(op)
    ensures Told(Decode(CommandBytes(st, op, st.core.bufAlloc)), st, op, FenceFor(st))
  {
    CommandRoundTrip(st, op, st.core.bufAlloc);
    if NeedsBacking(op) {
      EntriesTile(st, op, st.core.bufAlloc);
    }
  }

  /** What a command does to its queue: sent with two slots to spare, or not at all. */
  ghost predicate CommandSent(m0: Memory, st: GpuState, t: Core, c: Call, fence: Fence)
    requires Sound(st) && Commands(c.op)
  {
    var r, v := st.core, QueueOf(c.op);
    if Free(r, v, 2) && Fitting(r, CommandLengths(st, c.op)) then
      && Gained(r, t, v, 2) && EndsWith(t.log, Ending(v, c.irq))
      && CommandFound(Image(m0, t.log), ChainFrom(Image(m0, t.log), r, v), st, c.op, fence)
    else Unmoved(r, t)
  }

  /** What becomes of the region of an attach or a blob: filled, or, without room for it, nothing. */
  ghost predicate RegionLeft(m0: Memory, r: Core, t: Core, op: Op)
    requires op.AttachBacking? || op.CreateBlob?
  {
    if r.bufAlloc + RegionSize(op) + 16 <= 0x47F0_0000 then RegionHolds(Image(m0, t.log), r.bufAlloc, op)
    else t == r
  }

  lemma UnbackedStep(st: GpuState, c: Call)
    requires Sound(st) && ValidCall(c) && Commands(c.op) && !Backed(st, c.op)
    ensures GpuStep(st, c).core == st.core && !Fitting(st.core, CommandLengths(st, c.op))
  {
    GpuStepCore(st, c);
    RegionSizeIs(c.op);
    if Fitting(st.core, CommandLengths(st, c.op)) {
      RegionFirst(st.core, RegionSize(c.op), |CommandBytes(st, c.op, st.core.bufAlloc)|, AnswerLength(c.op));
    }
  }

  lemma CommandSentAt(m0: Memory, st: GpuState, c: Call)
    requires Sound(st) && ValidCall(c) && Commands(c.op) && Backed(st, c.op) && st.core.bufAlloc % 16 == 0
    requires Shaped(Prepared(st, c.op)) && Sending(st, c).Valid(|Prepared(st, c.op).vqs|)
    requires LeftBehind(m0, Prepared(st, c.op), Submit(Prepared(st, c.op), Sending(st, c)), Sending(st, c))
    ensures CommandSent(m0, st, Submit(Prepared(st, c.op), Sending(st, c)), c, FenceFor(st))
  {
    var p, sub := Prepared(st, c.op), Sending(st, c);
    SendingPieces(st, c);
    AdmitsPrepared(st, c);
    SameQueues(st.core, p, Submit(p, sub), QueueOf(c.op), 2);
    if Admits(p, sub) {
      CommandRead(Image(m0, Submit(p, sub).log), p.vqs[sub.vq], st, c);
    }
  }

  lemma AdmitsPrepared(st: GpuState, c: Call)
    requires Sound(st) && ValidCall(c) && Commands(c.op) && Backed(st, c.op) && st.core.bufAlloc % 16 == 0
    ensures var r, p := st.core, Prepared(st, c.op);
            && p.vqs == r.vqs && p.hist.queues == r.hist.queues && Sending(st, c).Valid(|p.vqs|)
            && (Admits(p, Sending(st, c)) <==>
                Free(r, QueueOf(c.op), 2) && Fitting(r, CommandLengths(st, c.op)))
  {
    SendingPieces(st, c);
    PreparedFacts(st, c.op);
  }

  lemma SameQueues(r: Core, p: Core, t: Core, v: nat, n: nat)
    requires p.vqs == r.vqs && p.hist.queues == r.hist.queues && v < |r.hist.queues|
    ensures (Gained(p, t, v, n) <==> Gained(r, t, v, n)) && (Unmoved(p, t) <==> Unmoved(r, t))
  {
  }

  lemma CommandRead(m: Memory, q: Vq, st: GpuState, c: Call)
    requires q.size > 0 && Sound(st) && ValidCall(c) && Commands(c.op) && Sending(st, c).Valid(4)
    requires Readable(m, q, Sending(st, c))
    ensures CommandFound(m, Walk(m, QueueOf(c.op), q.nextDesc % q.size, 256), st, c.op, FenceFor(st))
  {
    ArrivedFrom(m, q, st, c);
    ItTells(st, c.op);
  }

  lemma CommandSentFrom(m0: Memory, s: Core, acts: seq<Action>, st: GpuState, c: Call)
    requires Shaped(s) && |s.vqs| == 4 && ValidActions(4, acts) && SmallDeviceRun(acts) && Short(|acts|)
    requires Sound(st) && ValidCall(c) && Commands(c.op) && Backed(st, c.op) && st.core.bufAlloc % 16 == 0
    requires Prepared(st, c.op) == Run(Reset(s), acts)
    ensures CommandSent(m0, st, GpuStep(st, c).core, c, FenceFor(st))
  {
    SendingStep(st, c);
    SendingPieces(st, c);
    SubmissionTheorem(m0, s, acts, Sending(st, c));
    CommandSentAt(m0, st, c);
  }

  lemma AlignedRun(s: Core, calls: seq<Call>)
    requires Shaped(s) && ValidCalls(calls) && SmallCalls(calls) && Sound(ResetGpu(Reset(s)))
    ensures GpuRun(ResetGpu(Reset(s)), calls).core.bufAlloc % 16 == 0
  {
    var g := ResetGpu(Reset(s));
    GpuRunIsCoreRun(g, calls);
    ActionsSmall(g, calls);
    ReachableRefines(map[], s, Actions(g, calls));
  }

  /** After any gpu run of fewer than 429 million ops, a command goes out on its queue exactly if the
      queue has a size, the descriptors so far and two more stay below it, and the pool has room for
      the region, the command and the response. The device then decodes the fence in force, the command
      with its fields and the ranges of the region; otherwise no queue changes. The region is filled as
      soon as there is room for it, and stays filled. */
  lemma CommandOutcome(m0: Memory, s: Core, calls: seq<Call>, c: Call)
    requires Shaped(s) && |s.vqs| == 4 && ValidCalls(calls) && SmallCalls(calls) && Brief(|calls|)
    requires ValidCall(c) && Commands(c.op)
    ensures Sound(ResetGpu(Reset(s)))
    ensures var st := GpuRun(ResetGpu(Reset(s)), calls);
            && CommandSent(m0, st, GpuStep(st, c).core, c, LatestFence(calls))
            && (c.op.AttachBacking? || c.op.CreateBlob? ==> RegionLeft(m0, st.core, GpuStep(st, c).core, c.op))
  {
    var st := GpuRun(ResetGpu(Reset(s)), calls);
    FencesFollowHistory(Reset(s), calls);
    AlignedRun(s, calls);
    if Backed(st, c.op) {
      var acts := PreparedInRun(s, calls, c.op);
      CommandSentFrom(m0, s, acts, st, c);
    } else {
      UnbackedStep(st, c);
    }
    if c.op.AttachBacking? || c.op.CreateBlob? {
      RegionLeftAt(m0, s, calls, c);
    }
  }

  lemma RegionLeftAt(m0: Memory, s: Core, calls: seq<Call>, c: Call)
    requires Shaped(s) && |s.vqs| == 4 && ValidCalls(calls) && SmallCalls(calls) && Sound(ResetGpu(Reset(s)))
    requires ValidCall(c) && (c.op.AttachBacking? || c.op.CreateBlob?)
    ensures var st := GpuRun(ResetGpu(Reset(s)), calls);
            RegionLeft(m0, st.core, GpuStep(st, c).core, c.op)
  {
    var st := GpuRun(ResetGpu(Reset(s)), calls);
    RegionSizeIs(c.op);
    if Backed(st, c.op) {
      RegionKept(m0, s, calls, c);
    } else {
      UnbackedStep(st, c);
    }
  }
}
