/** The buffer pool over whole runs: blocks are aligned, inside the pool and disjoint, and
    descriptors stay inside the blocks they were made for. */
module Pool {
  import opened Bytes
  import opened Guest
  import opened Virtqueue

  /** The blocks lie one after the other between `lo` and `hi`, 16-byte aligned. */
  predicate Packed(blocks: seq<Buf>, lo: int, hi: int) {
    && (forall i | 0 <= i < |blocks| :: InPool(blocks[i], lo, hi))
    && (forall i, j | 0 <= i < j < |blocks| :: Before(blocks[i], blocks[j]))
  }

  predicate InPool(b: Buf, lo: int, hi: int) {
    b.gpa % 16 == 0 && lo <= b.gpa && b.gpa + Reserved(b.len) <= hi
  }

  predicate Before(b: Buf, c: Buf) { b.gpa + Reserved(b.len) <= c.gpa }

  predicate Overlap(b: Buf, c: Buf) {
    b.gpa < c.gpa + Reserved(c.len) && c.gpa < b.gpa + Reserved(b.len)
  }

  ghost predicate PoolOk(s: Core, lo: int) {
    && lo <= s.bufAlloc && s.bufAlloc % 16 == 0
    && Packed(s.hist.blocks, lo, s.bufAlloc)
    && forall id | id in s.bufs :: s.bufs[id] in s.hist.blocks
  }

  /** A register access, or a guest-memory write inside the buffer pool. */
  predicate PoolEvent(n: nat, e: Event) {
    e.MemWrite? ==> BufPoolBase(n) <= e.gpa && e.gpa + |e.data| <= POOL_END
  }

  predicate PoolEvents(n: nat, es: seq<Event>) {
    forall i | 0 <= i < |es| :: PoolEvent(n, es[i])
  }

  /** From `s` to `r` only pool space was spent and only pool bytes were written. */
  ghost predicate Quiet(s: Core, r: Core) {
    && r.vqs == s.vqs && r.hist.queues == s.hist.queues && r.hist.start == s.hist.start
    && s.log <= r.log && PoolEvents(|s.vqs|, r.log[|s.log|..])
    && s.hist.blocks <= r.hist.blocks
  }

  lemma ReservedFacts(gpa: nat, len: nat)
    requires gpa % 16 == 0
    ensures AlignDown(gpa + len + 16) == gpa + Reserved(len)
    ensures Reserved(len) % 16 == 0 && len < Reserved(len) <= len + 16
  {
  }

  lemma QuietTrans(s: Core, t: Core, r: Core)
    requires Quiet(s, t) && Quiet(t, r)
    ensures Quiet(s, r)
  {
    var es, fs := t.log[|s.log|..], r.log[|t.log|..];
    assert r.log[|s.log|..] == es + fs;
  }

  lemma QuietEmit(s: Core, es: seq<Event>)
    requires PoolEvents(|s.vqs|, es)
    ensures Quiet(s, Emit(s, es))
  {
    assert (s.log + es)[|s.log|..] == es;
  }

  lemma {:induction false} FillInPool(n: nat, gpa: nat, chunks: seq<seq<byte>>)
    requires BufPoolBase(n) <= gpa && gpa + TotalLength(chunks) <= POOL_END
    ensures PoolEvents(n, Fill(gpa, chunks))
    decreases |chunks|
  {
    if chunks != [] {
      FillInPool(n, gpa + |chunks[0]|, chunks[1..]);
      var rest := Fill(gpa + |chunks[0]|, chunks[1..]);
      assert Fill(gpa, chunks) == [MemWrite(gpa, chunks[0])] + rest;
    }
  }

  lemma ReserveOk(s: Core, len: u32, lo: int)
    requires PoolOk(s, lo) && Fits(s, len)
    ensures PoolOk(Reserve(s, len), lo)
    ensures Reserve(s, len).hist.blocks == s.hist.blocks + [Buf(s.bufAlloc, len)]
  {
    ReservedFacts(s.bufAlloc, len);
    var b := Buf(s.bufAlloc, len);
    var blocks := s.hist.blocks + [b];
    assert blocks[|s.hist.blocks|] == b;
    assert forall id | id in s.bufs :: s.bufs[id] in blocks;
  }

  lemma StageOk(s: Core, chunks: pieces, lo: int)
    requires PoolOk(s, lo) && BufPoolBase(|s.vqs|) <= lo
    ensures PoolOk(Stage(s, chunks), lo) && Quiet(s, Stage(s, chunks))
    ensures Fits(s, TotalLength(chunks)) ==>
              Stage(s, chunks).hist.blocks == s.hist.blocks + [Buf(s.bufAlloc, TotalLength(chunks))]
  {
    var len := TotalLength(chunks);
    if Fits(s, len) {
      ReserveOk(s, len, lo);
      FillInPool(|s.vqs|, s.bufAlloc, chunks);
      QuietEmit(Reserve(s, len), Fill(s.bufAlloc, chunks));
    }
  }

  lemma GuestMemWriteOk(s: Core, id: u32, data: seq<byte>, lo: int)
    requires PoolOk(s, lo) && BufPoolBase(|s.vqs|) <= lo
    ensures PoolOk(GuestMemWrite(s, id, data), lo) && Quiet(s, GuestMemWrite(s, id, data))
  {
    var d: blob := Truncate(data, MAX_DATA);
    if Fits(s, |d|) {
      StageOk(s, Whole(d), lo);
      var b := Buf(s.bufAlloc, |d|);
      assert (s.hist.blocks + [b])[|s.hist.blocks|] == b;
    }
  }

  lemma AllocPartOk(s: Core, chunks: pieces, named: bool, lo: int)
    requires PoolOk(s, lo) && BufPoolBase(|s.vqs|) <= lo
    ensures var (r, b) := AllocPart(s, chunks, named);
            PoolOk(r, lo) && Quiet(s, r) && (b.Some? ==> b.value in r.hist.blocks)
  {
    StageOk(s, chunks, lo);
    var b := Buf(s.bufAlloc, TotalLength(chunks));
    if Fits(s, TotalLength(chunks)) {
      assert (s.hist.blocks + [b])[|s.hist.blocks|] == b;
    }
  }

  predicate InBlocks(bs: seq<Buf>, parts: seq<Part>, blocks: seq<Buf>) {
    |bs| == |parts| && forall i | 0 <= i < |bs| :: bs[i] in blocks && bs[i].len == TotalLength(parts[i].chunks)
  }

  lemma InBlocksCons(b: Buf, bs: seq<Buf>, parts: seq<Part>, blocks: seq<Buf>)
    requires parts != [] && InBlocks(bs, parts[1..], blocks) && b in blocks && b.len == TotalLength(parts[0].chunks)
    ensures InBlocks([b] + bs, parts, blocks)
  {
    forall i | 0 <= i < |parts|
      ensures ([b] + bs)[i] in blocks && ([b] + bs)[i].len == TotalLength(parts[i].chunks)
    {
      if i > 0 {
        assert parts[i] == parts[1..][i - 1];
      }
    }
  }

  lemma {:induction false} AllocAllOk(s: Core, parts: seq<Part>, named: bool, lo: int)
    requires PoolOk(s, lo) && BufPoolBase(|s.vqs|) <= lo
    ensures var (r, bs) := AllocAll(s, parts, named);
            PoolOk(r, lo) && Quiet(s, r) && (bs.Some? ==> InBlocks(bs.value, parts, r.hist.blocks))
    decreases |parts|
  {
    if parts != [] {
      AllocPartOk(s, parts[0].chunks, named, lo);
      var (s1, b) := AllocPart(s, parts[0].chunks, named);
      if b.Some? {
        AllocAllOk(s1, parts[1..], named, lo);
        var (r, bs) := AllocAll(s1, parts[1..], named);
        QuietTrans(s, s1, r);
        if bs.Some? {
          BlockStays(s1, r, b.value);
          InBlocksCons(b.value, bs.value, parts, r.hist.blocks);
        }
      }
    }
  }

  lemma BlockStays(s: Core, r: Core, b: Buf)
    requires Quiet(s, r) && b in s.hist.blocks
    ensures b in r.hist.blocks
  {
  }

  // Descriptors stay inside their buffers.

  predicate InRegisters(d: Desc) {
    exists r | 0 <= r < 4 ::
      EXOTIC_BASES[r] <= d.addr && d.addr + d.len <= EXOTIC_BASES[r] + EXOTIC_SIZES[r]
  }

  /** `d` starts where block `b` starts and covers only bytes reserved for it. */
  predicate Covers(b: Buf, d: Desc) {
    d.addr == b.gpa && d.len <= Max(b.len, 1) && d.addr + d.len <= b.gpa + Reserved(b.len)
  }

  ghost predicate Grounded(blocks: seq<Buf>, d: Desc) {
    InRegisters(d) || exists b | b in blocks :: Covers(b, d)
  }

  ghost predicate DescsOk(s: Core) {
    forall v, k | 0 <= v < |s.hist.queues| && k in s.hist.queues[v].table ::
      Grounded(s.hist.blocks, s.hist.queues[v].table[k])
  }

  lemma MoreBlocks(blocks: seq<Buf>, more: seq<Buf>, d: Desc)
    requires Grounded(blocks, d) && blocks <= more
    ensures Grounded(more, d)
  {
    if !InRegisters(d) {
      var b :| b in blocks && Covers(b, d);
      assert b in more;
    }
  }

  lemma QuietKeepsDescs(s: Core, r: Core)
    requires Quiet(s, r) && DescsOk(s)
    ensures DescsOk(r)
  {
    forall v, k | 0 <= v < |r.hist.queues| && k in r.hist.queues[v].table
      ensures Grounded(r.hist.blocks, r.hist.queues[v].table[k])
    {
      MoreBlocks(s.hist.blocks, r.hist.blocks, s.hist.queues[v].table[k]);
    }
  }

  lemma PlaceDescKeepsDescs(s: Core, v: nat, addr: u64, len: u32, writable: bool, more: bool, b: Buf)
    requires CanPlace(s, v) && DescsOk(s)
    requires InRegisters(Desc(addr, len, 0, 0)) || (b in s.hist.blocks && addr == b.gpa && len <= Max(b.len, 1))
    ensures DescsOk(PlaceDesc(s, v, addr, len, writable, more))
  {
    var q := s.vqs[v];
    var d := DescFor(q, addr, len, writable, more);
    assert Grounded(s.hist.blocks, d) by {
      if InRegisters(Desc(addr, len, 0, 0)) {
        assert InRegisters(d);
      } else {
        assert Covers(b, d);
      }
    }
  }

  lemma ResolveGrounds(s: Core, floor: u32, id: u32, len: u32, exotic: u32)
    requires floor <= 1
    ensures var e := Resolve(s, floor, id, len, exotic);
            e.Some? ==>
              if exotic != 0 then InRegisters(Desc(e.value.addr, e.value.len, 0, 0))
              else id in s.bufs && e.value.addr == s.bufs[id].gpa && e.value.len <= Max(s.bufs[id].len, 1)
  {
    if exotic != 0 {
      var e := Resolve(s, floor, id, len, exotic).value;
      var r := (exotic - 1) % 4;
      assert EXOTIC_BASES[r] <= e.addr && e.addr + e.len <= EXOTIC_BASES[r] + EXOTIC_SIZES[r];
    }
  }

  lemma {:induction false} PlaceAllDescs(s: Core, v: nat, bufs: seq<Buf>, parts: seq<Part>, lo: int)
    requires CanPlace(s, v) && |bufs| <= |parts| && DescsOk(s) && PoolOk(s, lo)
    requires forall i | 0 <= i < |bufs| :: bufs[i] in s.hist.blocks
    ensures var r := PlaceAll(s, v, bufs, parts);
            DescsOk(r) && PoolOk(r, lo) && r.hist.blocks == s.hist.blocks && r.bufAlloc == s.bufAlloc
    decreases |bufs|
  {
    if bufs != [] {
      PlaceDescKeepsDescs(s, v, bufs[0].gpa, bufs[0].len, parts[0].writable, |bufs| > 1, bufs[0]);
      var s1 := PlaceDesc(s, v, bufs[0].gpa, bufs[0].len, parts[0].writable, |bufs| > 1);
      PlaceAllDescs(s1, v, bufs[1..], parts[1..], lo);
    }
  }

  lemma SubmitOk(s: Core, sub: Submission, lo: int)
    requires Shaped(s) && sub.Valid(|s.vqs|) && PoolOk(s, lo) && DescsOk(s) && BufPoolBase(|s.vqs|) <= lo
    ensures PoolOk(Submit(s, sub), lo) && DescsOk(Submit(s, sub))
  {
    AllocAllOk(s, sub.parts, sub.named, lo);
    var (s1, bs) := AllocAll(s, sub.parts, sub.named);
    QuietKeepsDescs(s, s1);
    if HasRoom(s, sub.vq, sub.slack) && bs.Some? {
      PlaceAllDescs(s1, sub.vq, bs.value[..sub.placed], sub.parts, lo);
    }
  }

  lemma AddDescOk(s: Core, floor: u32, v: u32, id: u32, len: u32, writable: bool, more: bool, exotic: u32, lo: int)
    requires Shaped(s) && floor <= 1 && PoolOk(s, lo) && DescsOk(s)
    ensures var r := AddDesc(s, floor, v, id, len, writable, more, exotic); PoolOk(r, lo) && DescsOk(r)
  {
    var e := Resolve(s, floor, id, len, exotic);
    if CanPlace(s, v) && e.Some? {
      ResolveGrounds(s, floor, id, len, exotic);
      var b := if id in s.bufs then s.bufs[id] else Buf(0, 0);
      PlaceDescKeepsDescs(s, v, e.value.addr, e.value.len, writable, more, b);
    }
  }

  lemma StepOk(s: Core, a: Action, lo: int)
    requires Shaped(s) && a.Valid(|s.vqs|) && PoolOk(s, lo) && DescsOk(s) && BufPoolBase(|s.vqs|) <= lo
    ensures var lo' := if a.DoReset? then BufPoolBase(|s.vqs|) else lo;
            PoolOk(Step(s, a), lo') && DescsOk(Step(s, a))
  {
    match a
    case DoGuestMemWrite(id, data) =>
      GuestMemWriteOk(s, id, data, lo);
      QuietKeepsDescs(s, Step(s, a));
    case DoStage(chunks) =>
      StageOk(s, chunks, lo);
      QuietKeepsDescs(s, Step(s, a));
    case DoSubmit(sub) =>
      SubmitOk(s, sub, lo);
    case DoAddDesc(floor, v, id, len, writable, more, exotic) =>
      AddDescOk(s, floor, v, id, len, writable, more, exotic, lo);
    case _ =>
  }

  lemma ResetOk(s: Core)
    requires Shaped(s)
    ensures PoolOk(Reset(s), BufPoolBase(|s.vqs|)) && DescsOk(Reset(s))
  {
  }

  lemma {:induction false} RunOk(s: Core, acts: seq<Action>)
    requires Shaped(s) && ValidActions(|s.vqs|, acts)
    requires PoolOk(s, BufPoolBase(|s.vqs|)) && DescsOk(s)
    ensures PoolOk(Run(s, acts), BufPoolBase(|s.vqs|)) && DescsOk(Run(s, acts))
  {
    if acts != [] {
      var k := |acts| - 1;
      RunOk(s, acts[..k]);
      StepOk(Run(s, acts[..k]), acts[k], BufPoolBase(|s.vqs|));
    }
  }

  /** In every run from a reset, whatever ids the buffers were given: all buffers allocated since
      the last reset are aligned, inside the pool and pairwise disjoint, and every descriptor in
      every queue lies in device registers or inside exactly one of those buffers. */
  lemma AllocatorTheorem(s: Core, acts: seq<Action>)
    requires Shaped(s) && ValidActions(|s.vqs|, acts)
    ensures var r := Run(Reset(s), acts); var blocks := r.hist.blocks;
            && (forall i | 0 <= i < |blocks| ::
                  blocks[i].gpa % 16 == 0 && BufPoolBase(|s.vqs|) <= blocks[i].gpa
                  && blocks[i].gpa + blocks[i].len < POOL_END)
            && (forall i, j | 0 <= i < |blocks| && 0 <= j < |blocks| && i != j :: !Overlap(blocks[i], blocks[j]))
            && (forall id | id in r.bufs :: r.bufs[id] in blocks)
            && (forall v, k | 0 <= v < |r.vqs| && k in r.hist.queues[v].table ::
                  Grounded(blocks, r.hist.queues[v].table[k]))
  {
    ResetOk(s);
    RunOk(Reset(s), acts);
    var r := Run(Reset(s), acts);
    var blocks := r.hist.blocks;
    forall i, j | 0 <= i < |blocks| && 0 <= j < |blocks| && i != j
      ensures !Overlap(blocks[i], blocks[j])
    {
      assert Before(blocks[i], blocks[j]) || Before(blocks[j], blocks[i]);
    }
    forall i | 0 <= i < |blocks|
      ensures blocks[i].gpa % 16 == 0 && BufPoolBase(|s.vqs|) <= blocks[i].gpa
      ensures blocks[i].gpa + blocks[i].len < POOL_END
    {
      assert InPool(blocks[i], BufPoolBase(|s.vqs|), r.bufAlloc);
      ReservedFacts(blocks[i].gpa, blocks[i].len);
    }
  }
}
