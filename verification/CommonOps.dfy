/** What the ops that all harnesses share leave behind, in the fields of the op and in numbers. */
module CommonOps {
  import opened Bytes
  import opened Guest
  import opened QueueSize
  import opened Virtqueue
  import opened Pool
  import opened Confinement
  import opened Refinement
  import opened SubmissionTheorems
  import opened Chain

  // Reset.

  /** A queue as a reset leaves it: three areas in a stride of 12 KiB, no size, counters at 0. */
  predicate Fresh(q: Vq, v: nat) {
    var at := 0x4700_0000 + v * 0x3000;
    && q.desc == at && q.avail == at + 0x1000 && q.used == at + 0x2000
    && q.size == 0 && q.nextDesc == 0 && q.nextAvail == 0
  }

  /** A reset writes 0 and then ACKNOWLEDGE and DRIVER to the status register, and leaves no queue, no
      buffer and no id behind. */
  lemma ResetSeen(s: Core)
    requires Shaped(s)
    ensures var r := Reset(s);
            && r.log == s.log + [Mmio(RegWrite(0x070, 0)), Mmio(RegWrite(0x070, 3))]
            && |r.vqs| == |s.vqs| == |r.hist.queues| && (forall v | 0 <= v < |r.vqs| :: Fresh(r.vqs[v], v))
            && (forall v | 0 <= v < |r.vqs| :: r.hist.queues[v] == AbstractQueue([], map[], [], map[]))
            && r.bufAlloc == 0x4700_0000 + 0x3000 * |s.vqs| && r.bufs == map[] && r.synthId == 0x8000_0000
            && r.hist.blocks == []
  {
    assert Registers(RESET_ACCESSES) == [Mmio(RegWrite(0x070, 0)), Mmio(RegWrite(0x070, 3))];
  }

  /** A register op makes exactly its accesses, in order, and does nothing else. */
  lemma TouchSeen(s: Core, accesses: seq<Access>)
    requires Shaped(s)
    ensures var t := Step(s, TouchRegisters(accesses));
            && t == s.(log := t.log) && |t.log| == |s.log| + |accesses| && s.log <= t.log
            && forall i | 0 <= i < |accesses| :: t.log[|s.log| + i] == Mmio(accesses[i])
  {
    BehindLog(s.log, Registers(accesses));
  }

  lemma BehindLog(log: seq<Event>, es: seq<Event>)
    ensures forall i | 0 <= i < |es| :: (log + es)[|log| + i] == es[i]
  {
  }

  // Queue sizes.

  /** The size that the latest set-up of queue `v` since the last reset gave it; 0 if there was none. A
      set-up that the device answers with 0 does not count. */
  function LatestSize(acts: seq<Action>, v: nat): nat {
    if acts == [] then 0
    else
      var k := |acts| - 1;
      match acts[k]
      case DoReset => 0
      case DoVqSetup(w, requested, max) =>
        if w == v && max > 0 then QueueSizeFor(requested, max) else LatestSize(acts[..k], v)
      case _ => LatestSize(acts[..k], v)
  }

  lemma {:induction false} PlaceAllSizes(s: Core, v: nat, bufs: seq<Buf>, parts: seq<Part>, w: nat)
    requires CanPlace(s, v) && |bufs| <= |parts| && w < |s.vqs|
    ensures PlaceAll(s, v, bufs, parts).vqs[w].size == s.vqs[w].size
    decreases |bufs|
  {
    if bufs != [] {
      var s1 := PlaceDesc(s, v, bufs[0].gpa, bufs[0].len, parts[0].writable, |bufs| > 1);
      PlaceAllSizes(s1, v, bufs[1..], parts[1..], w);
    }
  }

  lemma SubmitSizes(s: Core, sub: Submission, w: nat)
    requires Shaped(s) && sub.Valid(|s.vqs|) && w < |s.vqs|
    ensures |Submit(s, sub).vqs| == |s.vqs| && Submit(s, sub).vqs[w].size == s.vqs[w].size
  {
    AllocAllKeepsQueues(s, sub.parts, sub.named);
    var (s1, bs) := AllocAll(s, sub.parts, sub.named);
    if HasRoom(s, sub.vq, sub.slack) && bs.Some? {
      PlaceAllSizes(s1, sub.vq, bs.value[..sub.placed], sub.parts, w);
    }
  }

  lemma StepSizes(s: Core, a: Action, v: nat)
    requires Shaped(s) && a.Valid(|s.vqs|) && v < |s.vqs|
    ensures |Step(s, a).vqs| == |s.vqs|
    ensures Step(s, a).vqs[v].size ==
            match a
            case DoReset => 0
            case DoVqSetup(w, requested, max) =>
              if w == v && max > 0 then QueueSizeFor(requested, max) else s.vqs[v].size
            case _ => s.vqs[v].size
  {
    if a.DoSubmit? {
      SubmitSizes(s, a.sub, v);
    }
  }

  /** The size of every queue is the one its latest set-up since the last reset gave it. */
  lemma {:induction false} SizesFollowHistory(s: Core, acts: seq<Action>, v: nat)
    requires Shaped(s) && ValidActions(|s.vqs|, acts) && v < |s.vqs|
    ensures Run(Reset(s), acts).vqs[v].size == LatestSize(acts, v)
  {
    if acts != [] {
      var k := |acts| - 1;
      SizesFollowHistory(s, acts[..k], v);
      StepSizes(Run(Reset(s), acts[..k]), acts[k], v);
    }
  }

  // The pool.

  /** Pool bytes that blocks of these lengths take, each padded as the allocator pads it. */
  function Spent(blocks: seq<Buf>): nat {
    if blocks == [] then 0
    else
      var k := |blocks| - 1;
      Spent(blocks[..k]) + (blocks[k].len + 16) / 16 * 16
  }

  ghost predicate Accounted(s: Core) {
    s.bufAlloc == 0x4700_0000 + 0x3000 * |s.vqs| + Spent(s.hist.blocks)
  }

  lemma ReserveAccounted(s: Core, len: u32)
    requires Accounted(s) && Fits(s, len) && s.bufAlloc % 16 == 0
    ensures Accounted(Reserve(s, len)) && Reserve(s, len).bufAlloc % 16 == 0
  {
    var b := Buf(s.bufAlloc, len);
    ReservedFacts(s.bufAlloc, len);
    assert (s.hist.blocks + [b])[..|s.hist.blocks|] == s.hist.blocks;
  }

  lemma {:induction false} AllocAllAccounted(s: Core, parts: seq<Part>, named: bool)
    requires Accounted(s) && s.bufAlloc % 16 == 0
    ensures Accounted(AllocAll(s, parts, named).0)
    decreases |parts|
  {
    if parts != [] {
      var len := TotalLength(parts[0].chunks);
      if Fits(s, len) {
        ReserveAccounted(s, len);
        AllocAllAccounted(AllocPart(s, parts[0].chunks, named).0, parts[1..], named);
      }
    }
  }

  lemma SubmitAccounted(s: Core, sub: Submission)
    requires Shaped(s) && sub.Valid(|s.vqs|) && Accounted(s) && s.bufAlloc % 16 == 0
    ensures Accounted(Submit(s, sub))
  {
    if HasRoom(s, sub.vq, sub.slack) {
      AllocAllAccounted(s, sub.parts, sub.named);
      AllocAllKeepsQueues(s, sub.parts, sub.named);
      var (s1, bs) := AllocAll(s, sub.parts, sub.named);
      if bs.Some? {
        PlaceAllFrame(s1, sub.vq, bs.value[..sub.placed], sub.parts);
      }
    }
  }

  lemma StepAccounted(s: Core, a: Action)
    requires Shaped(s) && a.Valid(|s.vqs|) && Accounted(s) && s.bufAlloc % 16 == 0
    ensures Accounted(Step(s, a))
  {
    match a
    case DoGuestMemWrite(id, data) =>
      var d: blob := Truncate(data, MAX_DATA);
      if Fits(s, |d|) {
        ReserveAccounted(s, |d|);
      }
    case DoStage(chunks) =>
      if Fits(s, TotalLength(chunks)) {
        ReserveAccounted(s, TotalLength(chunks));
      }
    case DoSubmit(sub) => SubmitAccounted(s, sub);
    case _ =>
  }

  /** In every reachable state the allocator stands behind all buffers taken since the last reset, each
      with its length and 16 more down to a multiple of 16. */
  lemma {:induction false} PoolAccount(s: Core, acts: seq<Action>)
    requires Shaped(s) && ValidActions(|s.vqs|, acts)
    ensures var r := Run(Reset(s), acts);
            Accounted(r) && |r.vqs| == |s.vqs| && PoolOk(r, BufPoolBase(|s.vqs|)) && DescsOk(r)
  {
    if acts == [] {
      ResetOk(s);
    } else {
      var k := |acts| - 1;
      var t := Run(Reset(s), acts[..k]);
      PoolAccount(s, acts[..k]);
      StepAccounted(t, acts[k]);
      StepOk(t, acts[k], BufPoolBase(|s.vqs|));
    }
  }

  // Buffer writes.

  /** After a GuestMemWrite the buffer lies in memory with at most 4096 bytes of the op's data and is
      entered under the op's id, the other ids as they were; with no room nothing changes at all. */
  lemma WriteSeen(m0: Memory, s: Core, id: u32, data: seq<byte>)
    requires Shaped(s)
    ensures var n, t := Min(|data|, 4096), Step(s, DoGuestMemWrite(id, data));
            if s.bufAlloc + n + 16 <= 0x47F0_0000 then
              && Peek(Image(m0, t.log), s.bufAlloc, n) == data[..n]
              && t.bufs == s.bufs[id := Buf(s.bufAlloc, n)] && t.synthId == s.synthId
              && t.vqs == s.vqs && t.hist.queues == s.hist.queues
            else t == s
  {
    var d: blob := Truncate(data, MAX_DATA);
    if Fits(s, |d|) {
      StageHolds(m0, s, Whole(d));
    }
  }

  // Descriptors.

  /** The bytes a VqAddDesc names: those of its buffer, or up to four bytes of a register block. */
  predicate Names(s: Core, id: u32, len: u32, exotic: u32, floor: u32, addr: u64, n: u32) {
    if exotic == 0 then
      id in s.bufs && addr == s.bufs[id].gpa && n == Max(floor, Min(len, s.bufs[id].len))
    else
      && n == Max(floor, Min(len, 4))
      && addr == match exotic % 4
                 case 1 => 0x0900_0000 + id % 0x400 * 4
                 case 2 => 0x0a00_3e00 + id % 0x80 * 4
                 case 3 => 0x0800_0000 + id % 0x4000 * 4
                 case _ => 0x0a00_0000 + id % 0xf80 * 4
  }

  lemma ResolveNames(s: Core, floor: u32, id: u32, len: u32, exotic: u32)
    requires floor <= 1
    ensures var e := Resolve(s, floor, id, len, exotic);
            && (e.Some? <==> exotic != 0 || id in s.bufs)
            && (e.Some? ==> Names(s, id, len, exotic, floor, e.value.addr, e.value.len))
  {
    if exotic != 0 {
      assert exotic % 4 == ((exotic - 1) % 4 + 1) % 4;
    }
  }

  /** The descriptor in the next slot: these bytes, the flags asked for, a link to the slot after. */
  predicate NextDescIs(m: Memory, v: nat, q: Vq, d: Desc, writable: bool, more: bool)
    requires q.size > 0
  {
    && DescAt(m, v, q.nextDesc % q.size) == d
    && d.flags == (if writable then 2 else 0) + (if more then 1 else 0)
    && d.next == (q.nextDesc + 1) % q.size
  }

  lemma NextDescFor(m: Memory, v: nat, q: Vq, addr: u64, len: u32, writable: bool, more: bool)
    requires IsPow2(q.size) && q.size <= 256
    requires DescAt(m, v, q.nextDesc % q.size) == DescFor(q, addr, len, writable, more)
    ensures var d := DescAt(m, v, q.nextDesc % q.size);
            NextDescIs(m, v, q, d, writable, more) && d.addr == addr && d.len == len
  {
    NextIs(q, 0);
    assert Ahead(q, 0) == q;
  }

  /** One descriptor more on queue `v`, and one publication more if the chain ends with it. */
  ghost predicate OneMore(s: Core, t: Core, v: nat, more: bool)
    requires v < |s.hist.queues|
  {
    && |t.hist.queues| == |s.hist.queues|
    && (forall w | 0 <= w < |s.hist.queues| && w != v :: t.hist.queues[w] == s.hist.queues[w])
    && t == s.(log := t.log, vqs := t.vqs, hist := s.hist.(queues := t.hist.queues))
    && |t.hist.queues[v].placed| == |s.hist.queues[v].placed| + 1
    && |t.hist.queues[v].pubs| == |s.hist.queues[v].pubs| + if more then 0 else 1
  }

  /** What a VqAddDesc leaves behind, for a buffer and for a register block. */
  ghost predicate DescLeft(m0: Memory, s: Core, t: Core, a: Action)
    requires a.DoAddDesc? && a.vq < |s.vqs| == |s.hist.queues| && s.vqs[a.vq].size > 0
  {
    var m, q := Image(m0, t.log), s.vqs[a.vq];
    var d := DescAt(m, a.vq, q.nextDesc % q.size);
    && OneMore(s, t, a.vq, a.more)
    && Names(s, a.id, a.len, a.exotic, a.floor, d.addr, d.len)
    && NextDescIs(m, a.vq, q, d, a.writable, a.more)
    && (!a.more ==> Offered(m, a.vq, q))
  }

  lemma PlacedLeft(m0: Memory, s: Core, a: Action, e: Extent)
    requires QueuesOk(s) && Refines(m0, s) && a.DoAddDesc? && a.floor <= 1 && CanPlace(s, a.vq)
    requires Names(s, a.id, a.len, a.exotic, a.floor, e.addr, e.len)
    ensures DescLeft(m0, s, PlaceDesc(s, a.vq, e.addr, e.len, a.writable, a.more), a)
  {
    var t := PlaceDesc(s, a.vq, e.addr, e.len, a.writable, a.more);
    OneMorePlaced(s, a.vq, e.addr, e.len, a.writable, a.more);
    PlacedDescSeen(m0, s, a.vq, e.addr, e.len, a.writable, a.more);
    assert LaidOut(s.vqs[a.vq], a.vq);
    NextDescFor(Image(m0, t.log), a.vq, s.vqs[a.vq], e.addr, e.len, a.writable, a.more);
  }

  lemma OneMorePlaced(s: Core, v: nat, addr: u64, len: u32, writable: bool, more: bool)
    requires CanPlace(s, v)
    ensures OneMore(s, PlaceDesc(s, v, addr, len, writable, more), v, more)
  {
  }

  /** In every reachable state, a VqAddDesc places its descriptor exactly if the queue is there and has
      a size, and the op names a register block or a buffer in the map; otherwise nothing changes. */
  lemma DescOutcome(m0: Memory, s: Core, acts: seq<Action>, a: Action)
    requires Shaped(s) && ValidActions(|s.vqs|, acts) && SmallDeviceRun(acts) && a.DoAddDesc? && a.floor <= 1
    ensures var r := Run(Reset(s), acts); var t := Step(r, a);
            if a.vq < |r.vqs| && r.vqs[a.vq].size != 0 && (a.exotic != 0 || a.id in r.bufs) then DescLeft(m0, r, t, a)
            else t == r
  {
    ReachableRefines(m0, s, acts);
    DescOutcomeAt(m0, Run(Reset(s), acts), a);
  }

  lemma DescOutcomeAt(m0: Memory, r: Core, a: Action)
    requires QueuesOk(r) && Refines(m0, r) && a.DoAddDesc? && a.floor <= 1
    ensures var t := Step(r, a);
            if a.vq < |r.vqs| && r.vqs[a.vq].size != 0 && (a.exotic != 0 || a.id in r.bufs) then DescLeft(m0, r, t, a)
            else t == r
  {
    ResolveNames(r, a.floor, a.id, a.len, a.exotic);
    var e := Resolve(r, a.floor, a.id, a.len, a.exotic);
    if CanPlace(r, a.vq) && e.Some? {
      PlacedLeft(m0, r, a, e.value);
    }
  }

  // Raw writes.

  /** Where a raw write of `n` bytes lands: at its own address if all of it lies in the buffer pool, and
      else at an offset into the pool that the address gives modulo the room there is. */
  function Target(queues: nat, gpa: u64, n: nat): int
    requires queues <= 8 && 0 < n <= 4096
  {
    var lo := 0x4700_0000 + 0x3000 * queues;
    if lo <= gpa && gpa + n <= 0x47F0_0000 then gpa else lo + gpa % (0x47F0_0000 - lo - n)
  }

  /** A raw write makes one write of at most 4096 bytes of its data, there, and changes nothing else. */
  lemma RawSeen(s: Core, gpa: u64, data: seq<byte>)
    requires Shaped(s)
    ensures var t := Step(s, DoMemwriteAbsolute(gpa, data));
            if data == [] then t == s
            else
              var n := Min(|data|, 4096);
              && BufPoolBase(|s.vqs|) <= Target(|s.vqs|, gpa, n) && Target(|s.vqs|, gpa, n) + n <= 0x47F0_0000
              && t == s.(log := s.log + [MemWrite(Target(|s.vqs|, gpa, n), data[..n])])
  {
    if data != [] {
      var d := Truncate(data, MAX_DATA);
      assert d == data[..|d|];
      TargetIs(|s.vqs|, gpa, |d|);
    }
  }

  lemma TargetIs(queues: nat, gpa: u64, n: u32)
    requires queues <= 8 && 0 < n <= 4096
    ensures AbsoluteTarget(queues, gpa, n) == Target(queues, gpa, n)
  {
  }
}
