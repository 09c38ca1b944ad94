/** virtio-blk: the sequential loop, and the two-thread mode in which two op lists run against the
    same guest memory, each with its own bookkeeping. */
module Blk {
  import opened Bytes
  import opened Guest
  import opened QueueSize
  import opened Virtqueue
  import opened Pool
  import opened Confinement
  import opened Refinement
  import opened DriverCore
  import opened Assembly

  const QUEUES := 4
  const MAX_OPS := 256
  const BASE := BufPoolBase(QUEUES)
  const MID := BASE + (POOL_END - BASE) / 2

  /** The ops of the blk schema; everything that only touches device registers is
      `TouchRegisters`. */
  predicate BlkOp(a: Action) {
    !a.DoStage? && !a.DoSubmit? && (a.DoAddDesc? ==> a.floor == 0)
  }

  predicate BlkOps(ops: seq<Action>) {
    forall a | a in ops :: BlkOp(a)
  }

  lemma RunNext(s: Core, ops: seq<Action>, n: nat)
    requires Shaped(s) && n < |ops| && BlkOps(ops)
    ensures ValidActions(|s.vqs|, ops[..n]) && ValidActions(|s.vqs|, ops[..n + 1])
    ensures Run(s, ops[..n + 1]) == Step(Run(s, ops[..n]), ops[n])
  {
    BlkValid(|s.vqs|, ops);
    PrefixGrows(ops, n);
    RunSnoc(s, ops[..n], ops[n]);
  }

  lemma PrefixGrows(ops: seq<Action>, n: nat)
    requires n < |ops|
    ensures ops[..n + 1] == ops[..n] + [ops[n]]
  {
  }

  lemma BlkValid(queues: nat, ops: seq<Action>)
    requires BlkOps(ops)
    ensures ValidActions(queues, ops)
  {
    forall a | a in ops ensures a.Valid(queues) {
      assert BlkOp(a);
    }
  }

  /** The single-list mode: a reset, then at most 256 ops. */
  method RunSequential(d: Driver, ops: seq<Action>)
    requires d.Valid() && d.vqs.Length == QUEUES && BlkOps(ops)
    modifies d, d.vqs
    ensures d.Valid() && BlkOps(Truncated(ops))
    ensures d.State() == Run(Reset(old(d.State())), Truncated(ops))
  {
    d.ResetIteration();
    ghost var start := d.State();
    var n := 0;
    while n < |ops|
      invariant 0 <= n <= |ops| && n <= MAX_OPS && BlkOps(ops[..n])
      invariant d.Valid() && d.State() == Run(start, ops[..n])
    {
      if n >= MAX_OPS {
        break;
      }
      assert BlkOp(ops[n]);
      RunNext(start, ops, n);
      DispatchCommon(d, ops[n]);
      n := n + 1;
    }
    assert ops[..n] == Truncated(ops);
  }

  function Truncated(ops: seq<Action>): (r: seq<Action>)
    ensures r <= ops && |r| == Min(|ops|, 256)
  {
    if |ops| <= MAX_OPS then ops else ops[..MAX_OPS]
  }

  // What the two threads execute.

  /** Thread B starts with no queue addresses and the upper half of the pool. */
  function ThreadB(log: seq<Event>): Core { Unset(QUEUES, MID, 0, log) }

  /** Thread B starts in the middle of the pool, with four queues that have no address, no size and no
      descriptors. */
  lemma ThreadBStarts(log: seq<Event>)
    ensures var b := ThreadB(log);
            && b.bufAlloc == 0x4778_6000 && b.bufs == map[] && b.log == log && |b.vqs| == |b.hist.queues| == 4
            && forall v | 0 <= v < 4 :: b.vqs[v] == Vq(0, 0, 0, 0, 0, 0)
  {
  }

  /** `done` is what thread B executes of its list: some number of full passes, at most `iter`
      clamped to 1..100; the device may answer differently each time. */
  predicate Passes(list: seq<Action>, iter: u32, done: seq<Action>) {
    exists k: nat :: k <= Clamp(iter, 1, 100) && Cycled(list, k, done)
  }

  predicate Cycled(list: seq<Action>, k: nat, done: seq<Action>) {
    && |done| == k * |list|
    && forall i | 0 <= i < |done| :: list != [] && SameOp(list[i % |list|], done[i])
  }

  predicate SameOp(a: Action, b: Action) {
    match a
    case TouchRegisters(_) => b.TouchRegisters?
    case DoVqSetup(v, requested, _) => b.DoVqSetup? && b.vq == v && b.requested == requested
    case _ => a == b
  }

  predicate NoReset(ops: seq<Action>) {
    forall a | a in ops :: !a.DoReset?
  }

  lemma PassesKeepNoReset(list: seq<Action>, iter: u32, done: seq<Action>)
    requires NoReset(list) && Passes(list, iter, done)
    ensures NoReset(done)
  {
    var k: nat :| k <= Clamp(iter, 1, 100) && Cycled(list, k, done);
    forall a | a in done ensures !a.DoReset? {
      var i :| 0 <= i < |done| && done[i] == a;
      assert list[i % |list|] in list;
    }
  }

  // Separation of the two allocators.

  ghost predicate Within(blocks: seq<Buf>, lo: int, hi: int) {
    forall b | b in blocks :: lo <= b.gpa && b.gpa + Reserved(b.len) <= hi
  }

  ghost predicate Separate(a: seq<Buf>, b: seq<Buf>) {
    forall x, y | x in a && y in b :: !Overlap(x, y)
  }

  predicate Allocates(ops: seq<Action>) {
    exists i | 0 <= i < |ops| :: ops[i].DoGuestMemWrite?
  }

  predicate AllocatesAfterReset(ops: seq<Action>) {
    exists i, j | 0 <= i < j < |ops| :: ops[i].DoReset? && ops[j].DoGuestMemWrite?
  }

  /** One op advances the allocator by at most 4112 bytes, and records exactly what it took. */
  lemma OpAdvance(s: Core, a: Action)
    requires Shaped(s) && BlkOp(a) && s.bufAlloc % 16 == 0
    ensures var r := Step(s, a);
            && r.bufAlloc % 16 == 0
            && (a.DoReset? ==> r.bufAlloc == BufPoolBase(|s.vqs|) && r.hist.all == s.hist.all)
            && (!a.DoReset? ==> s.bufAlloc <= r.bufAlloc <= s.bufAlloc + 4112)
            && (!a.DoReset? && !a.DoGuestMemWrite? ==> r.bufAlloc == s.bufAlloc && r.hist.all == s.hist.all)
    ensures a.DoGuestMemWrite? ==>
              var r := Step(s, a); var b := Buf(s.bufAlloc, Min(|a.data|, MAX_DATA));
              if Fits(s, b.len) then r.hist.all == s.hist.all + [b] && r.bufAlloc == s.bufAlloc + Reserved(b.len)
              else r.bufAlloc == s.bufAlloc && r.hist.all == s.hist.all
  {
    if a.DoGuestMemWrite? {
      ReservedFacts(s.bufAlloc, Min(|a.data|, MAX_DATA));
    }
  }

  /** Thread A: at most 256 ops cannot reach the middle of the pool, whatever resets it does. */
  lemma {:induction false} ThreadABelow(s: Core, ops: seq<Action>)
    requires Shaped(s) && |s.vqs| == QUEUES && BlkOps(ops) && s.bufAlloc == BASE && |ops| <= MAX_OPS
    ensures BlkOps(ops) && ValidActions(|s.vqs|, ops)
    ensures var r := Run(s, ops);
            && BASE <= r.bufAlloc <= BASE + 4112 * |ops| && r.bufAlloc % 16 == 0
            && s.hist.all <= r.hist.all
            && Within(r.hist.all[|s.hist.all|..], BASE, BASE + 4112 * |ops|)
  {
    if ops != [] {
      var k := |ops| - 1;
      ThreadABelow(s, ops[..k]);
      var t := Run(s, ops[..k]);
      OpAdvance(t, ops[k]);
      var r := Run(s, ops);
      var old_all, new_all := t.hist.all[|s.hist.all|..], r.hist.all[|s.hist.all|..];
      if r.hist.all == t.hist.all {
      } else {
        assert new_all == old_all + [r.hist.all[|t.hist.all|]];
      }
    }
  }

  predicate HasReset(ops: seq<Action>) { !NoReset(ops) }

  lemma SplitLast(ops: seq<Action>)
    requires ops != []
    ensures var k := |ops| - 1;
            && (NoReset(ops) <==> NoReset(ops[..k]) && !ops[k].DoReset?)
            && (Allocates(ops) <==> Allocates(ops[..k]) || ops[k].DoGuestMemWrite?)
            && (AllocatesAfterReset(ops) <==>
                AllocatesAfterReset(ops[..k]) || (HasReset(ops[..k]) && ops[k].DoGuestMemWrite?))
  {
    var k := |ops| - 1;
    var front := ops[..k];
    assert ops == front + [ops[k]];
    if Allocates(front) {
      var i :| 0 <= i < |front| && front[i].DoGuestMemWrite?;
      assert ops[i].DoGuestMemWrite?;
    }
    if AllocatesAfterReset(front) {
      var i, j :| 0 <= i < j < |front| && front[i].DoReset? && front[j].DoGuestMemWrite?;
      assert ops[i].DoReset? && ops[j].DoGuestMemWrite?;
    }
    if HasReset(front) && ops[k].DoGuestMemWrite? {
      var a :| a in front && a.DoReset?;
      var i :| 0 <= i < |front| && front[i] == a;
      assert ops[i].DoReset? && ops[k].DoGuestMemWrite?;
    }
    if AllocatesAfterReset(ops) {
      var i, j :| 0 <= i < j < |ops| && ops[i].DoReset? && ops[j].DoGuestMemWrite?;
      assert front[i] == ops[i] && front[i] in front;
      if j < k {
        assert front[j] == ops[j];
      }
    }
    if Allocates(ops) {
      var i :| 0 <= i < |ops| && ops[i].DoGuestMemWrite?;
      if i < k {
        assert front[i] == ops[i];
      }
    }
  }

  /** Thread B: until it allocates after a reset, everything it allocates is in the upper half. */
  lemma {:induction false} ThreadBAbove(s: Core, ops: seq<Action>)
    requires Shaped(s) && BlkOps(ops) && !AllocatesAfterReset(ops) && s.bufAlloc == MID && s.hist.all == []
    ensures ValidActions(|s.vqs|, ops)
    ensures Run(s, ops).bufAlloc % 16 == 0 && (NoReset(ops) ==> Run(s, ops).bufAlloc >= MID)
    ensures Within(Run(s, ops).hist.all, MID, POOL_END)
  {
    if ops != [] {
      var k := |ops| - 1;
      SplitLast(ops);
      ThreadBAbove(s, ops[..k]);
      OpAdvance(Run(s, ops[..k]), ops[k]);
    }
  }

  ghost predicate HasBase(blocks: seq<Buf>) {
    exists b | b in blocks :: b.gpa == BASE
  }

  lemma FirstBlock(s: Core, a: Action)
    requires Shaped(s) && BlkOp(a) && s.bufAlloc == BASE && a.DoGuestMemWrite?
    ensures HasBase(Step(s, a).hist.all)
  {
    OpAdvance(s, a);
    var b := Buf(s.bufAlloc, Min(|a.data|, MAX_DATA));
    assert b in s.hist.all + [b];
  }

  lemma KeepsBlocks(s: Core, a: Action)
    requires Shaped(s) && BlkOp(a) && s.bufAlloc % 16 == 0 && HasBase(s.hist.all)
    ensures HasBase(Step(s, a).hist.all)
  {
    OpAdvance(s, a);
    var b :| b in s.hist.all && b.gpa == BASE;
    assert b in Step(s, a).hist.all;
  }

  /** After a reset, thread B's first buffer is at the very bottom of the pool. */
  lemma {:induction false} ThreadBDrops(s: Core, ops: seq<Action>)
    requires Shaped(s) && |s.vqs| == QUEUES && BlkOps(ops) && s.bufAlloc % 16 == 0
    ensures ValidActions(|s.vqs|, ops) && Run(s, ops).bufAlloc % 16 == 0
    ensures AllocatesAfterReset(ops) ==> HasBase(Run(s, ops).hist.all)
    ensures HasReset(ops) ==> HasBase(Run(s, ops).hist.all) || Run(s, ops).bufAlloc == BASE
  {
    if ops != [] {
      var k := |ops| - 1;
      SplitLast(ops);
      ThreadBDrops(s, ops[..k]);
      var t := Run(s, ops[..k]);
      OpAdvance(t, ops[k]);
      if HasBase(t.hist.all) {
        KeepsBlocks(t, ops[k]);
      } else if HasReset(ops[..k]) && ops[k].DoGuestMemWrite? {
        FirstBlock(t, ops[k]);
      }
    }
  }

  /** Thread A's first buffer after its own reset is at the bottom of the pool too. */
  lemma {:induction false} ThreadAStarts(s: Core, ops: seq<Action>)
    requires Shaped(s) && |s.vqs| == QUEUES && BlkOps(ops) && s.bufAlloc == BASE && s.hist.all == []
    ensures ValidActions(|s.vqs|, ops) && Run(s, ops).bufAlloc % 16 == 0
    ensures if Allocates(ops) then HasBase(Run(s, ops).hist.all)
            else Run(s, ops).hist.all == [] && Run(s, ops).bufAlloc == BASE
  {
    if ops != [] {
      var k := |ops| - 1;
      SplitLast(ops);
      ThreadAStarts(s, ops[..k]);
      var t := Run(s, ops[..k]);
      OpAdvance(t, ops[k]);
      if Allocates(ops[..k]) {
        KeepsBlocks(t, ops[k]);
      } else if ops[k].DoGuestMemWrite? {
        FirstBlock(t, ops[k]);
      }
    }
  }

  lemma BothAtBottom(s: Core, logB: seq<Event>, opsA: seq<Action>, opsB: seq<Action>)
    requires Shaped(s) && |s.vqs| == QUEUES && s.hist.all == []
    requires BlkOps(opsA) && BlkOps(opsB) && Allocates(opsA) && AllocatesAfterReset(opsB)
    ensures ValidActions(QUEUES, opsA) && ValidActions(QUEUES, opsB)
    ensures !Separate(Run(Reset(s), opsA).hist.all, Run(ThreadB(logB), opsB).hist.all)
  {
    ThreadAStarts(Reset(s), opsA);
    ThreadBDrops(ThreadB(logB), opsB);
    BasesCollide(Run(Reset(s), opsA).hist.all, Run(ThreadB(logB), opsB).hist.all);
  }

  lemma OneEach(s: Core, logB: seq<Event>, opsA: seq<Action>, opsB: seq<Action>)
    requires Shaped(s) && |s.vqs| == QUEUES && s.hist.all == []
    requires BlkOps(opsA) && BlkOps(opsB) && |opsA| <= MAX_OPS && !AllocatesAfterReset(opsB)
    ensures ValidActions(QUEUES, opsA) && ValidActions(QUEUES, opsB)
    ensures Separate(Run(Reset(s), opsA).hist.all, Run(ThreadB(logB), opsB).hist.all)
  {
    ThreadABelow(Reset(s), opsA);
    ThreadBAbove(ThreadB(logB), opsB);
    var a := Run(Reset(s), opsA).hist.all;
    assert a[|Reset(s).hist.all|..] == a;
    HalfIsEnough(|opsA|);
    HalvesApart(a, Run(ThreadB(logB), opsB).hist.all, BASE + 4112 * |opsA|);
  }

  /** Every buffer the two threads ever allocate in one input stays apart, for every schedule,
      exactly unless thread A allocates something and thread B allocates after a reset of its own. */
  lemma SeparationTheorem(s: Core, logB: seq<Event>, opsA: seq<Action>, opsB: seq<Action>)
    requires Shaped(s) && |s.vqs| == QUEUES && s.hist.all == []
    requires BlkOps(opsA) && BlkOps(opsB) && |opsA| <= MAX_OPS
    ensures ValidActions(QUEUES, opsA) && ValidActions(QUEUES, opsB)
    ensures Separate(Run(Reset(s), opsA).hist.all, Run(ThreadB(logB), opsB).hist.all)
            <==> !(Allocates(opsA) && AllocatesAfterReset(opsB))
  {
    if !AllocatesAfterReset(opsB) {
      OneEach(s, logB, opsA, opsB);
    } else if Allocates(opsA) {
      BothAtBottom(s, logB, opsA, opsB);
    } else {
      ThreadAStarts(Reset(s), opsA);
    }
  }

  lemma HalfIsEnough(n: nat)
    requires n <= MAX_OPS
    ensures BASE + 4112 * n <= MID
  {
  }

  lemma BasesCollide(a: seq<Buf>, b: seq<Buf>)
    requires HasBase(a) && HasBase(b)
    ensures !Separate(a, b)
  {
    var x :| x in a && x.gpa == BASE;
    var y :| y in b && y.gpa == BASE;
    ReservedFacts(BASE, x.len);
    ReservedFacts(BASE, y.len);
    assert Overlap(x, y);
  }

  lemma HalvesApart(a: seq<Buf>, b: seq<Buf>, top: int)
    requires Within(a, BASE, top) && Within(b, MID, POOL_END) && top <= MID
    ensures Separate(a, b)
  {
    forall x, y | x in a && y in b ensures !Overlap(x, y) {
      assert x.gpa + Reserved(x.len) <= MID <= y.gpa;
    }
  }

  lemma NoResetNoDrop(ops: seq<Action>)
    requires NoReset(ops)
    ensures !AllocatesAfterReset(ops)
  {
  }

  /** As the harness runs it: thread A's list cut at 256 ops, thread B's repeated in full passes.
      Without a Reset in B's list the buffers of the two threads never meet. */
  lemma TwoThreadBuffersApart(
    s: Core, logB: seq<Event>, listA: seq<Action>, listB: seq<Action>, iter: u32, doneB: seq<Action>)
    requires Shaped(s) && |s.vqs| == QUEUES && s.hist.all == []
    requires BlkOps(listA) && BlkOps(doneB) && NoReset(listB) && Passes(listB, iter, doneB)
    ensures BlkOps(Truncated(listA)) && ValidActions(QUEUES, Truncated(listA)) && ValidActions(QUEUES, doneB)
    ensures Separate(Run(Reset(s), Truncated(listA)).hist.all, Run(ThreadB(logB), doneB).hist.all)
  {
    PassesKeepNoReset(listB, iter, doneB);
    NoResetNoDrop(doneB);
    SeparationTheorem(s, logB, Truncated(listA), doneB);
  }

  // Shared memory under every interleaving of single writes.

  /** `all` is some interleaving of the calls `a` and `b`. */
  ghost predicate Interleaved(all: seq<Event>, a: seq<Event>, b: seq<Event>)
    decreases |all|
  {
    if all == [] then a == [] && b == []
    else
      var k := |all| - 1;
      || (a != [] && a[|a| - 1] == all[k] && Interleaved(all[..k], a[..|a| - 1], b))
      || (b != [] && b[|b| - 1] == all[k] && Interleaved(all[..k], a, b[..|b| - 1]))
  }

  predicate AllMiss(es: seq<Event>, lo: nat, n: nat) {
    forall i | 0 <= i < |es| :: Misses(es[i], lo, n)
  }

  /** Two memories that agree on `n` bytes from `lo`. */
  ghost predicate Agree(m: Memory, m': Memory, lo: nat, n: nat) {
    forall x | lo <= x < lo + n :: At(m, x) == At(m', x)
  }

  lemma {:induction false} InterleavingHidesB(m: Memory, all: seq<Event>, a: seq<Event>, b: seq<Event>, lo: nat, n: nat)
    requires Interleaved(all, a, b) && AllMiss(b, lo, n)
    ensures Agree(Image(m, all), Image(m, a), lo, n)
    decreases |all|
  {
    if all != [] {
      var k := |all| - 1;
      if a != [] && a[|a| - 1] == all[k] && Interleaved(all[..k], a[..|a| - 1], b) {
        InterleavingHidesB(m, all[..k], a[..|a| - 1], b, lo, n);
        SameCall(Image(m, all[..k]), Image(m, a[..|a| - 1]), all[k], lo, n);
      } else {
        InterleavingHidesB(m, all[..k], a, b[..|b| - 1], lo, n);
        MissedCall(Image(m, all[..k]), b[|b| - 1], lo, n);
      }
    }
  }

  lemma SameCall(m: Memory, m': Memory, e: Event, lo: nat, n: nat)
    requires Agree(m, m', lo, n)
    ensures Agree(Apply(m, e), Apply(m', e), lo, n)
  {
    forall x | lo <= x < lo + n ensures At(Apply(m, e), x) == At(Apply(m', e), x) {
      assert At(m, x) == At(m', x);
    }
  }

  lemma MissedCall(m: Memory, e: Event, lo: nat, n: nat)
    requires Misses(e, lo, n)
    ensures Agree(Apply(m, e), m, lo, n)
  {
  }

  /** Thread B before any reset: no addresses, sizes a table could hold, upper half of the pool. */
  ghost predicate Unplaced(s: Core) {
    && Shaped(s) && |s.vqs| == QUEUES && s.bufAlloc >= MID && s.bufAlloc % 16 == 0
    && forall v | 0 <= v < QUEUES :: NoAddress(s.vqs[v])
  }

  predicate NoAddress(q: Vq) {
    q.desc == q.avail == 0 && q.size <= 256
  }

  /** Without addresses, descriptors go to the bottom of memory, far below every queue. */
  lemma UnplacedPlacement(q: Vq, d: Desc)
    requires NoAddress(q) && q.size > 0
    ensures DescEvent(q, d).gpa + 16 <= 4096 && RingEvent(q).gpa + 2 <= 4096 && IndexEvent(q).gpa + 2 <= 4096
  {
    SmallProducts(q.nextDesc % q.size);
    SmallProducts(q.nextAvail % q.size);
  }

  lemma UnplacedKept(s: Core, a: Action)
    requires Unplaced(s) && BlkOp(a) && !a.DoReset? && SmallDevice(a)
    ensures Unplaced(Step(s, a))
  {
    OpAdvance(s, a);
  }

  // Which of thread B's calls can touch a range of memory.

  function RawWrite(gpa: u64, data: seq<byte>): Event
    requires data != []
  {
    MemWrite(AbsoluteTarget(QUEUES, gpa, |Truncate(data, MAX_DATA)|), Truncate(data, MAX_DATA))
  }

  /** No raw write in the list is aimed at the `n` bytes from `lo`. */
  predicate RawWritesMiss(ops: seq<Action>, lo: nat, n: nat) {
    forall a | a in ops :: RawMisses(a, lo, n)
  }

  predicate RawMisses(a: Action, lo: nat, n: nat) {
    a.DoMemwriteAbsolute? && a.data != [] ==> Misses(RawWrite(a.gpa, a.data), lo, n)
  }

  lemma AllMissAppend(es: seq<Event>, fs: seq<Event>, lo: nat, n: nat)
    requires AllMiss(es, lo, n) && AllMiss(fs, lo, n)
    ensures AllMiss(es + fs, lo, n)
  {
  }

  lemma BlockMisses(s: Core, id: u32, data: seq<byte>, lo: nat, n: nat)
    requires AllMiss(s.log, lo, n) && lo + n <= s.bufAlloc
    ensures AllMiss(GuestMemWrite(s, id, data).log, lo, n)
  {
    var d: blob := Truncate(data, MAX_DATA);
    if Fits(s, |d|) && |d| > 0 {
      assert Whole(d)[1..] == [];
      assert Fill(s.bufAlloc, Whole(d)) == [MemWrite(s.bufAlloc, d)] + Fill(s.bufAlloc + |d|, []);
      AllMissAppend(s.log, [MemWrite(s.bufAlloc, d)], lo, n);
    }
  }

  lemma LowPlacementMisses(q: Vq, d: Desc, more: bool, lo: nat, n: nat)
    requires NoAddress(q) && q.size > 0 && lo >= 4096
    ensures AllMiss(PlacementLog(q, d, more), lo, n)
  {
    UnplacedPlacement(q, d);
  }

  lemma LowDescMisses(s: Core, a: Action, lo: nat, n: nat)
    requires Shaped(s) && a.DoAddDesc? && BlkOp(a) && lo >= 4096 && AllMiss(s.log, lo, n)
    requires a.vq < |s.vqs| ==> NoAddress(s.vqs[a.vq])
    ensures AllMiss(Step(s, a).log, lo, n)
  {
    var e := Resolve(s, a.floor, a.id, a.len, a.exotic);
    if CanPlace(s, a.vq) && e.Some? {
      var d := DescFor(s.vqs[a.vq], e.value.addr, e.value.len, a.writable, a.more);
      LowPlacementMisses(s.vqs[a.vq], d, a.more, lo, n);
      AllMissAppend(s.log, PlacementLog(s.vqs[a.vq], d, a.more), lo, n);
    }
  }

  lemma SetupMisses(s: Core, v: u32, requested: u32, max: u32, lo: nat, n: nat)
    requires AllMiss(s.log, lo, n)
    ensures AllMiss(VqSetup(s, v, requested, max).log, lo, n)
  {
    if v < |s.vqs| {
      var first := Registers([RegWrite(R_QUEUE_SEL, v), RegRead(R_QUEUE_NUM_MAX)]);
      AllMissAppend(s.log, first, lo, n);
      if max != 0 {
        var size := QueueSizeFor(requested, max);
        AllMissAppend(s.log + first, Registers(SetupAccesses(v, size, s.vqs[v].(size := size))), lo, n);
      }
    }
  }

  /** An op leaves a range above the bottom page and below the allocator alone, if it places nothing
      there and aims no raw write at it. */
  lemma StepMisses(s: Core, a: Action, lo: nat, n: nat)
    requires Shaped(s) && |s.vqs| == QUEUES && BlkOp(a) && 4096 <= lo && lo + n <= s.bufAlloc
    requires AllMiss(s.log, lo, n) && RawMisses(a, lo, n)
    requires a.DoAddDesc? && a.vq < QUEUES ==> NoAddress(s.vqs[a.vq])
    ensures AllMiss(Step(s, a).log, lo, n)
  {
    if a.DoGuestMemWrite? {
      BlockMisses(s, a.id, a.data, lo, n);
    } else if a.DoAddDesc? {
      LowDescMisses(s, a, lo, n);
    } else if a.DoVqSetup? {
      SetupMisses(s, a.vq, a.requested, a.max, lo, n);
    } else if a.DoMemwriteAbsolute? {
      if a.data != [] {
        AllMissAppend(s.log, [RawWrite(a.gpa, a.data)], lo, n);
      }
    } else {
      AllMissAppend(s.log, Registers(if a.DoReset? then RESET_ACCESSES else a.accesses), lo, n);
    }
  }

  lemma {:induction false} UnplacedRun(ops: seq<Action>, lo: nat, n: nat)
    requires BlkOps(ops) && NoReset(ops) && SmallDeviceRun(ops)
    requires 4096 <= lo && lo + n <= MID && RawWritesMiss(ops, lo, n)
    ensures ValidActions(QUEUES, ops)
    ensures Unplaced(Run(ThreadB([]), ops)) && AllMiss(Run(ThreadB([]), ops).log, lo, n)
  {
    if ops != [] {
      var k := |ops| - 1;
      UnplacedRun(ops[..k], lo, n);
      UnplacedKept(Run(ThreadB([]), ops[..k]), ops[k]);
      StepMisses(Run(ThreadB([]), ops[..k]), ops[k], lo, n);
    }
  }

  /** If thread B's list has no Reset and aims no raw write at a range of the queue area or of the
      lower half of the pool, then under every interleaving of the two threads' writes that range
      holds exactly what it would hold had thread A run alone. */
  lemma TwoThreadIsolation(
    m0: Memory, s: Core, opsA: seq<Action>, opsB: seq<Action>, all: seq<Event>, lo: nat, n: nat)
    requires Shaped(s) && |s.vqs| == QUEUES && BlkOps(opsA) && BlkOps(opsB)
    requires NoReset(opsB) && SmallDeviceRun(opsB)
    requires POOL_BASE <= lo && lo + n <= MID && RawWritesMiss(opsB, lo, n)
    requires Interleaved(all, Run(Reset(s), opsA).log, Run(ThreadB([]), opsB).log)
    ensures Agree(Image(m0, all), Image(m0, Run(Reset(s), opsA).log), lo, n)
  {
    UnplacedRun(opsB, lo, n);
    InterleavingHidesB(m0, all, Run(Reset(s), opsA).log, Run(ThreadB([]), opsB).log, lo, n);
  }

  // The queue area, which raw writes never reach.

  const QUEUE_AREA := BASE - POOL_BASE

  predicate PlacesNothingAfterReset(ops: seq<Action>) {
    forall i, j | 0 <= i < j < |ops| && ops[i].DoReset? :: !ops[j].DoAddDesc?
  }

  /** Thread B before its reset has no addresses; the allocator is never in the queue area. */
  ghost predicate OffQueues(s: Core, reset: bool) {
    && Shaped(s) && |s.vqs| == QUEUES && s.bufAlloc >= BASE && s.bufAlloc % 16 == 0
    && (reset || Unplaced(s)) && AllMiss(s.log, POOL_BASE, QUEUE_AREA)
  }

  lemma OffQueuesStep(s: Core, a: Action, reset: bool)
    requires OffQueues(s, reset) && BlkOp(a) && SmallDevice(a) && (reset ==> !a.DoAddDesc?)
    ensures OffQueues(Step(s, a), reset || a.DoReset?)
  {
    OpAdvance(s, a);
    StepMisses(s, a, POOL_BASE, QUEUE_AREA);
    if !reset && !a.DoReset? {
      UnplacedKept(s, a);
    }
  }

  lemma {:induction false} OffQueuesRun(ops: seq<Action>)
    requires BlkOps(ops) && SmallDeviceRun(ops) && PlacesNothingAfterReset(ops)
    ensures ValidActions(QUEUES, ops) && OffQueues(Run(ThreadB([]), ops), HasReset(ops))
  {
    if ops != [] {
      var k := |ops| - 1;
      SplitLast(ops);
      OffQueuesRun(ops[..k]);
      OffQueuesStep(Run(ThreadB([]), ops[..k]), ops[k], HasReset(ops[..k]));
    }
  }

  /** If thread B places no descriptor after a Reset, then, whatever raw writes it makes, the queue
      area holds under every interleaving exactly what thread A alone would leave there. */
  lemma QueueIsolation(m0: Memory, s: Core, opsA: seq<Action>, opsB: seq<Action>, all: seq<Event>)
    requires Shaped(s) && |s.vqs| == QUEUES && BlkOps(opsA) && BlkOps(opsB)
    requires PlacesNothingAfterReset(opsB) && SmallDeviceRun(opsB)
    requires Interleaved(all, Run(Reset(s), opsA).log, Run(ThreadB([]), opsB).log)
    ensures Agree(Image(m0, all), Image(m0, Run(Reset(s), opsA).log), POOL_BASE, QUEUE_AREA)
  {
    OffQueuesRun(opsB);
    InterleavingHidesB(m0, all, Run(Reset(s), opsA).log, Run(ThreadB([]), opsB).log, POOL_BASE, QUEUE_AREA);
  }

  lemma AgreePeek(m: Memory, m': Memory, lo: nat, n: nat, a: nat, k: nat)
    requires Agree(m, m', lo, n) && lo <= a && a + k <= lo + n
    ensures Peek(m, a, k) == Peek(m', a, k)
  {
    forall i | 0 <= i < k ensures Peek(m, a, k)[i] == Peek(m', a, k)[i] {
      assert At(m, a + i) == At(m', a + i);
    }
  }

  /** So thread A's queues still decode from the shared memory as in the sequential mode. */
  lemma TwoThreadRefinement(m0: Memory, s: Core, opsA: seq<Action>, opsB: seq<Action>, all: seq<Event>, v: nat)
    requires Shaped(s) && |s.vqs| == QUEUES && BlkOps(opsA) && BlkOps(opsB) && v < QUEUES
    requires PlacesNothingAfterReset(opsB) && SmallDeviceRun(opsA) && SmallDeviceRun(opsB)
    requires Interleaved(all, Run(Reset(s), opsA).log, Run(ThreadB([]), opsB).log)
    ensures var r, m := Run(Reset(s), opsA), Image(m0, all);
            QueueRefines(m, v, r.vqs[v], r.hist.queues[v])
  {
    QueueIsolation(m0, s, opsA, opsB, all);
    ReachableRefines(m0, s, opsA);
    var r := Run(Reset(s), opsA);
    AgreementRefines(Image(m0, all), Image(m0, r.log), v, r.vqs[v], r.hist.queues[v]);
  }

  lemma AgreeDesc(m: Memory, m': Memory, v: nat, k: nat)
    requires v < QUEUES && k < 256 && Agree(m, m', POOL_BASE, QUEUE_AREA)
    ensures DescAt(m, v, k) == DescAt(m', v, k)
  {
    AgreePeek(m, m', POOL_BASE, QUEUE_AREA, DescAddr(v, k), 16);
  }

  lemma AgreeTable(m: Memory, m': Memory, v: nat, table: map<nat, Desc>)
    requires v < QUEUES && Agree(m, m', POOL_BASE, QUEUE_AREA) && TableOk(m', v, table)
    ensures TableOk(m, v, table)
  {
    forall k | k in table ensures k < 256 && DescAt(m, v, k) == table[k] {
      AgreeDesc(m, m', v, k);
    }
  }

  lemma AgreeRing(m: Memory, m': Memory, v: nat, ring: map<nat, u16>)
    requires v < QUEUES && Agree(m, m', POOL_BASE, QUEUE_AREA) && RingOk(m', v, ring)
    ensures RingOk(m, v, ring)
  {
    forall k | k in ring ensures k < 256 && RingAt(m, v, k) == ring[k] {
      AgreePeek(m, m', POOL_BASE, QUEUE_AREA, RingAddr(v, k), 2);
    }
  }

  lemma AgreementRefines(m: Memory, m': Memory, v: nat, q: Vq, a: AbstractQueue)
    requires v < QUEUES && Agree(m, m', POOL_BASE, QUEUE_AREA) && QueueRefines(m', v, q, a)
    ensures QueueRefines(m, v, q, a)
  {
    AgreeTable(m, m', v, a.table);
    AgreeRing(m, m', v, a.ring);
    AgreePeek(m, m', POOL_BASE, QUEUE_AREA, IdxAddr(v), 2);
    assert QueueBytes(m, v, a);
  }

  // Confinement of thread B.

  predicate PlacesAt(s: Core, a: Action)
    requires Shaped(s)
  {
    a.DoAddDesc? && a.floor <= 1 && CanPlace(s, a.vq) && Resolve(s, a.floor, a.id, a.len, a.exotic).Some?
  }

  // The same, read off the list of ops.

  /** The list sets up queue `v` with a device that has it. */
  predicate SetsUp(ops: seq<Action>, v: u32) {
    ops != [] &&
    var k := |ops| - 1;
    (ops[k].DoVqSetup? && ops[k].vq == v && ops[k].max != 0) || SetsUp(ops[..k], v)
  }

  /** Bytes of the pool that the buffers written by the list take: a buffer that no longer fits
      between thread B's base and the end of the pool is dropped. */
  function Taken(ops: seq<Action>): nat {
    if ops == [] then 0
    else
      var k := |ops| - 1;
      if Accepted(Taken(ops[..k]), ops[k]) then Taken(ops[..k]) + Reserved(Min(|ops[k].data|, MAX_DATA))
      else Taken(ops[..k])
  }

  predicate Accepted(taken: nat, a: Action) {
    a.DoGuestMemWrite? && MID + taken + Min(|a.data|, MAX_DATA) + 16 <= POOL_END
  }

  /** The list writes a buffer named `id` while it still fits. */
  predicate Names(ops: seq<Action>, id: u32) {
    ops != [] &&
    var k := |ops| - 1;
    (Accepted(Taken(ops[..k]), ops[k]) && ops[k].id == id) || Names(ops[..k], id)
  }

  /** Op `k` names a queue that was set up before it, and a register block or a buffer written before
      it, all without a reset. */
  predicate PlacesUnsetAt(ops: seq<Action>, k: nat)
    requires k < |ops|
  {
    && NoReset(ops[..k]) && ops[k].DoAddDesc? && ops[k].vq < QUEUES && SetsUp(ops[..k], ops[k].vq)
    && (ops[k].exotic != 0 || Names(ops[..k], ops[k].id))
  }

  /** Some descriptor is placed before thread B's first reset. */
  predicate PlacesUnset(ops: seq<Action>) {
    exists k | 0 <= k < |ops| :: PlacesUnsetAt(ops, k)
  }

  /** What thread B's state says, the list says. */
  ghost predicate Mirrors(s: Core, ops: seq<Action>) {
    && Shaped(s) && |s.vqs| == QUEUES && s.bufAlloc == MID + Taken(ops) && s.bufAlloc % 16 == 0
    && (forall v: u32 | v < QUEUES :: s.vqs[v].size != 0 <==> SetsUp(ops, v))
    && (forall id: u32 :: id in s.bufs <==> Names(ops, id))
  }

  lemma MirrorsWrite(s: Core, ops: seq<Action>, a: Action)
    requires Mirrors(s, ops) && BlkOp(a) && a.DoGuestMemWrite?
    ensures Mirrors(Step(s, a), ops + [a])
  {
    assert (ops + [a])[..|ops|] == ops;
    OpAdvance(s, a);
  }

  lemma MirrorsSetup(s: Core, ops: seq<Action>, a: Action)
    requires Mirrors(s, ops) && a.DoVqSetup?
    ensures Mirrors(Step(s, a), ops + [a])
  {
    assert (ops + [a])[..|ops|] == ops;
  }

  lemma MirrorsRest(s: Core, ops: seq<Action>, a: Action)
    requires Mirrors(s, ops) && BlkOp(a) && !a.DoReset? && !a.DoGuestMemWrite? && !a.DoVqSetup?
    ensures Mirrors(Step(s, a), ops + [a])
  {
    assert (ops + [a])[..|ops|] == ops;
  }

  lemma {:induction false} RunMirrors(ops: seq<Action>)
    requires BlkOps(ops) && NoReset(ops)
    ensures ValidActions(QUEUES, ops) && Mirrors(Run(ThreadB([]), ops), ops)
  {
    if ops != [] {
      var k := |ops| - 1;
      RunMirrors(ops[..k]);
      var t, a := Run(ThreadB([]), ops[..k]), ops[k];
      assert ops == ops[..k] + [a];
      if a.DoGuestMemWrite? {
        MirrorsWrite(t, ops[..k], a);
      } else if a.DoVqSetup? {
        MirrorsSetup(t, ops[..k], a);
      } else {
        MirrorsRest(t, ops[..k], a);
      }
    }
  }

  /** So the list tells whether its next op places a descriptor. */
  lemma PlacesReadOff(ops: seq<Action>)
    requires BlkOps(ops) && ops != [] && NoReset(ops[..|ops| - 1])
    ensures var n := |ops| - 1;
            && BlkOps(ops[..n]) && ValidActions(QUEUES, ops[..n])
            && (PlacesUnsetAt(ops, n) <==> PlacesAt(Run(ThreadB([]), ops[..n]), ops[n]))
  {
    var n := |ops| - 1;
    RunMirrors(ops[..n]);
    var t := Run(ThreadB([]), ops[..n]);
    assert Mirrors(t, ops[..n]) && BlkOp(ops[n]);
  }

  lemma PlacesUnsetSnoc(ops: seq<Action>)
    requires ops != []
    ensures var n := |ops| - 1;
            (PlacesUnset(ops) <==> PlacesUnset(ops[..n]) || PlacesUnsetAt(ops, n))
  {
    var n := |ops| - 1;
    forall k | 0 <= k < n ensures PlacesUnsetAt(ops, k) <==> PlacesUnsetAt(ops[..n], k) {
      assert ops[..n][..k] == ops[..k];
    }
    if PlacesUnset(ops) {
      var k :| 0 <= k < |ops| && PlacesUnsetAt(ops, k);
      assert k < n ==> PlacesUnsetAt(ops[..n], k);
    }
    if PlacesUnset(ops[..n]) {
      var k :| 0 <= k < n && PlacesUnsetAt(ops[..n], k);
      assert PlacesUnsetAt(ops, k);
    }
  }

  lemma UnplacedEscapes(s: Core, a: Action)
    requires Unplaced(s) && BlkOp(a) && PlacesAt(s, a)
    ensures !ConfinedFrom(QUEUES, Step(s, a).log, 0)
  {
    var e := Resolve(s, a.floor, a.id, a.len, a.exotic).value;
    var q := s.vqs[a.vq];
    var d := DescFor(q, e.addr, e.len, a.writable, a.more);
    UnplacedPlacement(q, d);
    var f := Step(s, a).log[|s.log|];
    assert f == DescEvent(q, d) && f == PlacementLog(q, d, a.more)[0];
    LowWriteEscapes(f);
  }

  lemma LowWriteEscapes(e: Event)
    requires e.MemWrite? && e.gpa < POOL_BASE
    ensures !ConfinedEvent(QUEUES, e)
  {
    forall r: Region | RegionOf(QUEUES, r) ensures !Inside(QUEUES, e, r) {
      InQueueArea(QUEUES, r);
    }
  }

  lemma UnplacedConfined(s: Core, a: Action)
    requires Unplaced(s) && PoolOk(s, MID) && BlkOp(a) && !a.DoReset? && !PlacesAt(s, a)
    requires ConfinedFrom(QUEUES, s.log, 0)
    ensures ConfinedFrom(QUEUES, Step(s, a).log, 0)
  {
    match a
    case DoGuestMemWrite(id, data) =>
      GuestMemWriteOk(s, id, data, MID);
      QuietLogConfined(s, Step(s, a));
    case DoMemwriteAbsolute(gpa, data) =>
      if data != [] {
        var d := Truncate(data, MAX_DATA);
        QuietEmit(s, [MemWrite(AbsoluteTarget(|s.vqs|, gpa, |d|), d)]);
        QuietLogConfined(s, Step(s, a));
      }
    case TouchRegisters(accesses) =>
      QuietEmit(s, Registers(accesses));
      QuietLogConfined(s, Step(s, a));
    case DoVqSetup(v, requested, max) =>
      var r := Step(s, a);
      forall i | 0 <= i < |r.log| ensures ConfinedEvent(QUEUES, r.log[i]) {
        if i >= |s.log| {
          PoolEventConfined(QUEUES, r.log[i]);
        }
      }
    case DoAddDesc(_, _, _, _, _, _, _) =>
  }

  lemma QuietLogConfined(s: Core, r: Core)
    requires |s.vqs| == QUEUES && Quiet(s, r) && ConfinedFrom(QUEUES, s.log, 0)
    ensures ConfinedFrom(QUEUES, r.log, 0)
  {
    forall i | 0 <= i < |r.log| ensures ConfinedEvent(QUEUES, r.log[i]) {
      if i >= |s.log| {
        assert r.log[i] == r.log[|s.log|..][i - |s.log|];
        PoolEventConfined(QUEUES, r.log[i]);
      }
    }
  }

  lemma StepExtendsLog(s: Core, a: Action)
    requires Shaped(s) && BlkOp(a)
    ensures s.log <= Step(s, a).log
  {
  }

  lemma EscapesStay(s: Core, a: Action)
    requires Shaped(s) && BlkOp(a) && !ConfinedFrom(QUEUES, s.log, 0)
    ensures !ConfinedFrom(QUEUES, Step(s, a).log, 0)
  {
    StepExtendsLog(s, a);
    var i :| 0 <= i < |s.log| && !ConfinedEvent(QUEUES, s.log[i]);
    assert Step(s, a).log[i] == s.log[i];
  }

  /** The thread B invariant: which half of its life it is in. */
  ghost predicate PhaseOk(s: Core, reset: bool) {
    && Shaped(s) && |s.vqs| == QUEUES && DescsOk(s)
    && if reset then QueuesOk(s) && PoolOk(s, BASE) else Unplaced(s) && PoolOk(s, MID)
  }

  lemma PhaseStep(s: Core, a: Action, reset: bool)
    requires PhaseOk(s, reset) && BlkOp(a) && SmallDevice(a)
    ensures PhaseOk(Step(s, a), reset || a.DoReset?)
  {
    StepOk(s, a, if reset then BASE else MID);
    if a.DoReset? {
      ResetConfined(s);
    } else if reset {
      StepConfined(s, a, |s.log|);
    } else {
      UnplacedKept(s, a);
    }
  }

  lemma PhaseConfined(s: Core, a: Action, reset: bool)
    requires PhaseOk(s, reset) && BlkOp(a) && SmallDevice(a)
    ensures ConfinedFrom(QUEUES, Step(s, a).log, 0) <==>
            ConfinedFrom(QUEUES, s.log, 0) && (reset || !PlacesAt(s, a))
  {
    if !ConfinedFrom(QUEUES, s.log, 0) {
      EscapesStay(s, a);
    } else if reset {
      StepConfined(s, a, 0);
    } else if PlacesAt(s, a) {
      UnplacedEscapes(s, a);
    } else if a.DoReset? {
      QuietEmit(s, Registers(RESET_ACCESSES));
      QuietLogConfined(s, Emit(s, Registers(RESET_ACCESSES)));
    } else {
      UnplacedConfined(s, a);
    }
  }

  /** Thread B keeps to the harness's regions exactly when its list places no descriptor before its
      first reset: until then its queues have address 0. */
  lemma {:induction false} ThreadBConfinement(ops: seq<Action>)
    requires BlkOps(ops) && SmallDeviceRun(ops)
    ensures ValidActions(QUEUES, ops) && PhaseOk(Run(ThreadB([]), ops), HasReset(ops))
    ensures ConfinedFrom(QUEUES, Run(ThreadB([]), ops).log, 0) <==> !PlacesUnset(ops)
  {
    if ops != [] {
      var k := |ops| - 1;
      ThreadBConfinement(ops[..k]);
      var t := Run(ThreadB([]), ops[..k]);
      SplitLast(ops);
      PlacesUnsetSnoc(ops);
      PhaseStep(t, ops[k], HasReset(ops[..k]));
      PhaseConfined(t, ops[k], HasReset(ops[..k]));
      if HasReset(ops[..k]) {
        ResetBefore(ops, k);
      } else {
        PlacesReadOff(ops);
      }
    }
  }

  lemma ResetBefore(ops: seq<Action>, k: nat)
    requires k < |ops| && HasReset(ops[..k])
    ensures !PlacesUnsetAt(ops, k)
  {
  }

  // Inputs on which the two-thread mode does not keep apart.

  /** Two ops with which thread B leaves the harness's regions: set up a queue, add a descriptor. */
  lemma ThreadBEscapes()
    ensures var ops := [DoVqSetup(0, 4, 4), DoAddDesc(0, 0, 0, 4, false, false, 1)];
            BlkOps(ops) && ValidActions(QUEUES, ops) && !ConfinedFrom(QUEUES, Run(ThreadB([]), ops).log, 0)
  {
    var ops := [DoVqSetup(0, 4, 4), DoAddDesc(0, 0, 0, 4, false, false, 1)];
    assert ops[..1] == [DoVqSetup(0, 4, 4)];
    assert SetsUp(ops[..1], 0);
    assert PlacesUnsetAt(ops, 1);
    ThreadBConfinement(ops);
  }

  /** One buffer of thread A and one of thread B that overlap: thread B resets first. */
  lemma ThreadsCollide(s: Core)
    requires Shaped(s) && |s.vqs| == QUEUES && s.hist.all == []
    ensures var opsA, opsB := [DoGuestMemWrite(1, [7])], [DoReset, DoGuestMemWrite(1, [7])];
            && BlkOps(opsA) && BlkOps(opsB) && ValidActions(QUEUES, opsA) && ValidActions(QUEUES, opsB)
            && !Separate(Run(Reset(s), opsA).hist.all, Run(ThreadB([]), opsB).hist.all)
  {
    var opsA, opsB := [DoGuestMemWrite(1, [7])], [DoReset, DoGuestMemWrite(1, [7])];
    assert opsA[0].DoGuestMemWrite? && opsB[0].DoReset? && opsB[1].DoGuestMemWrite?;
    SeparationTheorem(s, [], opsA, opsB);
  }
}
