/** The bytes in guest memory implement the abstract queues: descriptor tables, avail rings and
    `avail.idx` decode to what was placed and published, whatever else the harness did. */
module Refinement {
  import opened Bytes
  import opened Guest
  import opened QueueSize
  import opened Virtqueue
  import opened Pool
  import opened Confinement

  function DescAddr(v: nat, k: nat): nat { DescBase(v) + 16 * k }

  function RingAddr(v: nat, k: nat): nat { AvailBase(v) + 4 + 2 * k }

  function IdxAddr(v: nat): nat { AvailBase(v) + 2 }

  function DescAt(m: Memory, v: nat, k: nat): Desc {
    DecodeDesc(Peek(m, DescAddr(v, k), 16))
  }

  function RingAt(m: Memory, v: nat, k: nat): u16 {
    UnLe16(Peek(m, RingAddr(v, k), 2))
  }

  function IdxAt(m: Memory, v: nat): u16 {
    UnLe16(Peek(m, IdxAddr(v), 2))
  }

  ghost predicate TableOk(m: Memory, v: nat, table: map<nat, Desc>) {
    forall k | k in table :: k < 256 && DescAt(m, v, k) == table[k]
  }

  ghost predicate RingOk(m: Memory, v: nat, ring: map<nat, u16>) {
    forall k | k in ring :: k < 256 && RingAt(m, v, k) == ring[k]
  }

  ghost predicate IndexOk(m: Memory, v: nat, published: nat) {
    published > 0 ==> IdxAt(m, v) == published % TWO_16
  }

  predicate CountersOk(q: Vq, a: AbstractQueue) {
    q.nextDesc == Wrap32(|a.placed|) && q.nextAvail == Wrap32(|a.pubs|)
  }

  // With one queue size throughout, the table and the ring hold a window of the history.

  predicate OneSize(a: AbstractQueue, size: u32) {
    && (forall p | p in a.placed :: p.size == size)
    && (forall p | p in a.pubs :: p.size == size)
  }

  /** The last `size` descriptors placed, and the last `size` indices published, are in the slots
      their numbers give. */
  predicate HoldsLast(a: AbstractQueue, size: u32)
    requires size > 0
  {
    && (forall j | 0 <= j < |a.placed| && |a.placed| - size <= j ::
          j % size in a.table && a.table[j % size] == a.placed[j].desc)
    && (forall j | 0 <= j < |a.pubs| && |a.pubs| - size <= j ::
          j % size in a.ring && a.ring[j % size] == a.pubs[j].index)
  }

  ghost predicate WindowOk(a: AbstractQueue) {
    forall size: u32 | size > 0 && OneSize(a, size) :: HoldsLast(a, size)
  }

  lemma DistinctSlots(i: nat, j: nat, size: nat)
    requires i < j < i + size
    ensures i % size != j % size
  {
    var q, r := DivMod(i, size);
    if j % size == r {
      var p, r' := DivMod(j, size);
      if p <= q {
        if p < q { MulStep(size, p, q); }
      } else {
        MulStep(size, q, p);
      }
    }
  }

  lemma AddWindow(a: AbstractQueue, d: Desc, size: u32)
    requires WindowOk(a) && size > 0
    ensures WindowOk(a.Add(d, size))
  {
    var a' := a.Add(d, size);
    var n := |a.placed|;
    forall s: u32 | s > 0 && OneSize(a', s) ensures HoldsLast(a', s) {
      assert a'.placed[n].size == s;
      assert forall p | p in a.placed :: p in a'.placed;
      assert OneSize(a, s);
      forall j | 0 <= j <= n && n + 1 - s <= j
        ensures j % s in a'.table && a'.table[j % s] == a'.placed[j].desc
      {
        if j < n {
          DistinctSlots(j, n, s);
        }
      }
    }
  }

  lemma PublishWindow(a: AbstractQueue, index: u16, size: u32)
    requires WindowOk(a) && size > 0
    ensures WindowOk(a.Publish(index, size))
  {
    var a' := a.Publish(index, size);
    var n := |a.pubs|;
    forall s: u32 | s > 0 && OneSize(a', s) ensures HoldsLast(a', s) {
      assert a'.pubs[n].size == s;
      assert forall p | p in a.pubs :: p in a'.pubs;
      assert OneSize(a, s);
      forall j | 0 <= j <= n && n + 1 - s <= j
        ensures j % s in a'.ring && a'.ring[j % s] == a'.pubs[j].index
      {
        if j < n {
          DistinctSlots(j, n, s);
        }
      }
    }
  }

  ghost predicate QueueRefines(m: Memory, v: nat, q: Vq, a: AbstractQueue) {
    CountersOk(q, a) && WindowOk(a) && QueueBytes(m, v, a)
  }

  ghost predicate QueueBytes(m: Memory, v: nat, a: AbstractQueue) {
    TableOk(m, v, a.table) && RingOk(m, v, a.ring) && IndexOk(m, v, |a.pubs|)
  }

  ghost predicate Refines(m0: Memory, s: Core) {
    && Shaped(s)
    && forall v | 0 <= v < |s.vqs| :: QueueRefines(Image(m0, s.log), v, s.vqs[v], s.hist.queues[v])
  }

  // A write next to the queue leaves it alone.

  predicate MissesQueue(e: Event, v: nat) {
    Misses(e, DescBase(v), DESC_TABLE + AVAIL_RING)
  }

  lemma MissedQueue(m: Memory, e: Event, v: nat, a: AbstractQueue)
    requires MissesQueue(e, v) && QueueBytes(m, v, a)
    ensures QueueBytes(Apply(m, e), v, a)
  {
    TableMiss(m, e, v, a.table);
    RingMiss(m, e, v, a.ring);
    IndexMiss(m, e, v, |a.pubs|);
  }

  lemma {:induction false} MissedQueueAll(m: Memory, es: seq<Event>, v: nat, a: AbstractQueue)
    requires forall i | 0 <= i < |es| :: MissesQueue(es[i], v)
    requires QueueBytes(m, v, a)
    ensures QueueBytes(Image(m, es), v, a)
  {
    if es != [] {
      var k := |es| - 1;
      MissedQueueAll(m, es[..k], v, a);
      MissedQueue(Image(m, es[..k]), es[k], v, a);
    }
  }

  lemma QuietRefines(m0: Memory, s: Core, r: Core)
    requires Refines(m0, s) && Quiet(s, r)
    ensures Refines(m0, r)
  {
    var es := r.log[|s.log|..];
    assert r.log == s.log + es;
    ImageAppend(m0, s.log, es);
    forall v | 0 <= v < |r.vqs| ensures QueueRefines(Image(m0, r.log), v, r.vqs[v], r.hist.queues[v]) {
      PoolMissesQueue(|s.vqs|, Image(m0, s.log), es, v, s.hist.queues[v]);
    }
  }

  lemma PoolMissesQueue(n: nat, m: Memory, es: seq<Event>, v: nat, a: AbstractQueue)
    requires PoolEvents(n, es) && v < n && QueueBytes(m, v, a)
    ensures QueueBytes(Image(m, es), v, a)
  {
    forall i | 0 <= i < |es| ensures MissesQueue(es[i], v) {
      assert PoolEvent(n, es[i]);
    }
    MissedQueueAll(m, es, v, a);
  }

  // The three writes of a placement, one at a time.

  lemma DescWritten(m: Memory, v: nat, k: nat, d: Desc)
    requires k < 256 && v < 8
    ensures DescAt(Apply(m, MemWrite(DescAddr(v, k), EncodeDesc(d))), v, k) == d
  {
    DescRead(m, DescAddr(v, k), d);
  }

  lemma DescRead(m: Memory, gpa: u64, d: Desc)
    ensures DecodeDesc(Peek(Apply(m, MemWrite(gpa, EncodeDesc(d))), gpa, 16)) == d
  {
    PeekHit(m, gpa, EncodeDesc(d));
    DescRoundTrip(d);
  }

  lemma DescMissed(m: Memory, e: Event, v: nat, k: nat)
    requires Misses(e, DescAddr(v, k), 16)
    ensures DescAt(Apply(m, e), v, k) == DescAt(m, v, k)
  {
    PeekMiss(m, e, DescAddr(v, k), 16);
  }

  lemma TableWrite(m: Memory, v: nat, table: map<nat, Desc>, k: nat, d: Desc)
    requires TableOk(m, v, table) && k < 256 && v < 8
    ensures TableOk(Apply(m, MemWrite(DescAddr(v, k), EncodeDesc(d))), v, table[k := d])
  {
    var after := Apply(m, MemWrite(DescAddr(v, k), EncodeDesc(d)));
    forall j | j in table[k := d] ensures j < 256 && DescAt(after, v, j) == table[k := d][j] {
      if j == k {
        DescWritten(m, v, k, d);
      } else {
        DescKept(m, v, k, j, d);
      }
    }
  }

  lemma DescKept(m: Memory, v: nat, k: nat, j: nat, d: Desc)
    requires k < 256 && j != k && v < 8
    ensures DescAt(Apply(m, MemWrite(DescAddr(v, k), EncodeDesc(d))), v, j) == DescAt(m, v, j)
  {
    DescMissed(m, MemWrite(DescAddr(v, k), EncodeDesc(d)), v, j);
  }

  lemma RingMissed(m: Memory, e: Event, v: nat, k: nat)
    requires Misses(e, RingAddr(v, k), 2)
    ensures RingAt(Apply(m, e), v, k) == RingAt(m, v, k)
  {
    PeekMiss(m, e, RingAddr(v, k), 2);
  }

  lemma RingWrite(m: Memory, v: nat, ring: map<nat, u16>, k: nat, index: u16)
    requires RingOk(m, v, ring) && k < 256 && v < 8
    ensures RingOk(Apply(m, MemWrite(RingAddr(v, k), Le16(index))), v, ring[k := index])
  {
    var e := MemWrite(RingAddr(v, k), Le16(index));
    var after := Apply(m, e);
    RingWritten(m, v, k, index);
    forall j | j in ring[k := index] ensures j < 256 && RingAt(after, v, j) == ring[k := index][j] {
      if j != k {
        RingMissed(m, e, v, j);
      }
    }
  }

  lemma RingWritten(m: Memory, v: nat, k: nat, index: u16)
    requires k < 256 && v < 8
    ensures RingAt(Apply(m, MemWrite(RingAddr(v, k), Le16(index))), v, k) == index
  {
    PeekHit(m, RingAddr(v, k), Le16(index));
  }

  lemma TableMiss(m: Memory, e: Event, v: nat, table: map<nat, Desc>)
    requires TableOk(m, v, table) && Misses(e, DescBase(v), DESC_TABLE)
    ensures TableOk(Apply(m, e), v, table)
  {
    forall k | k in table ensures DescAt(Apply(m, e), v, k) == table[k] {
      PeekMiss(m, e, DescAddr(v, k), 16);
    }
  }

  lemma RingMiss(m: Memory, e: Event, v: nat, ring: map<nat, u16>)
    requires RingOk(m, v, ring) && Misses(e, AvailBase(v) + 4, 512)
    ensures RingOk(Apply(m, e), v, ring)
  {
    forall k | k in ring ensures RingAt(Apply(m, e), v, k) == ring[k] {
      PeekMiss(m, e, RingAddr(v, k), 2);
    }
  }

  lemma IndexMiss(m: Memory, e: Event, v: nat, published: nat)
    requires IndexOk(m, v, published) && Misses(e, IdxAddr(v), 2)
    ensures IndexOk(Apply(m, e), v, published)
  {
    PeekMiss(m, e, IdxAddr(v), 2);
  }

  lemma WrapFacts(n: nat)
    ensures Wrap16(Wrap32(n)) == Wrap16(n)
    ensures Wrap32(Wrap32(n) + 1) == Wrap32(n + 1)
  {
  }

  lemma SmallProducts(k: nat)
    requires k < 256
    ensures Wrap32(k * 16) == 16 * k && Wrap32(k * 2) == 2 * k
  {
  }

  /** Where the events of a placement go, in terms of the abstract counters. */
  lemma PlacementEvents(v: nat, q: Vq, a: AbstractQueue, d: Desc)
    requires v < 8 && LaidOut(q, v) && q.size > 0 && CountersOk(q, a)
    ensures |a.placed| % q.size < 256 && |a.pubs| % q.size < 256
    ensures DescEvent(q, d) == MemWrite(DescAddr(v, |a.placed| % q.size), EncodeDesc(d))
    ensures RingEvent(q) == MemWrite(RingAddr(v, |a.pubs| % q.size), Le16(Wrap16(|a.placed|)))
    ensures IndexEvent(q) == MemWrite(IdxAddr(v), Le16(Wrap16(|a.pubs| + 1)))
  {
    var k, j := |a.placed| % q.size, |a.pubs| % q.size;
    CounterSlot(|a.placed|, q.size);
    CounterSlot(|a.pubs|, q.size);
    SmallProducts(k);
    SmallProducts(j);
    WrapFacts(|a.placed|);
    WrapFacts(|a.pubs|);
    WrapFacts(|a.pubs| + 1);
  }

  lemma DescEventRefines(m: Memory, v: nat, q: Vq, a: AbstractQueue, d: Desc)
    requires v < 8 && LaidOut(q, v) && q.size > 0 && QueueRefines(m, v, q, a)
    ensures var m' := Apply(m, DescEvent(q, d)); var a' := a.Add(d, q.size);
            TableOk(m', v, a'.table) && RingOk(m', v, a.ring) && IndexOk(m', v, |a.pubs|)
  {
    PlacementEvents(v, q, a, d);
    TableWrite(m, v, a.table, |a.placed| % q.size, d);
    RingMiss(m, DescEvent(q, d), v, a.ring);
    IndexMiss(m, DescEvent(q, d), v, |a.pubs|);
  }

  lemma PublishRefines(m: Memory, v: nat, q: Vq, a: AbstractQueue, table: map<nat, Desc>)
    requires v < 8 && LaidOut(q, v) && q.size > 0 && CountersOk(q, a)
    requires TableOk(m, v, table) && RingOk(m, v, a.ring) && IndexOk(m, v, |a.pubs|)
    ensures var m' := Apply(Apply(m, RingEvent(q)), IndexEvent(q)); var a' := a.Publish(Wrap16(|a.placed|), q.size);
            TableOk(m', v, table) && RingOk(m', v, a'.ring) && IndexOk(m', v, |a'.pubs|)
  {
    PlacementEvents(v, q, a, Desc(0, 0, 0, 0));
    var m1 := Apply(m, RingEvent(q));
    RingWrite(m, v, a.ring, |a.pubs| % q.size, Wrap16(|a.placed|));
    TableMiss(m, RingEvent(q), v, table);
    TableMiss(m1, IndexEvent(q), v, table);
    RingMiss(m1, IndexEvent(q), v, a.Publish(Wrap16(|a.placed|), q.size).ring);
    PeekHit(m1, IdxAddr(v), Le16(Wrap16(|a.pubs| + 1)));
  }

  lemma ImageOfPlacement(m: Memory, log: seq<Event>, q: Vq, d: Desc, more: bool)
    requires q.size > 0
    ensures Image(m, log + PlacementLog(q, d, more)) ==
            var m1 := Apply(Image(m, log), DescEvent(q, d));
            if more then m1 else Apply(Apply(m1, RingEvent(q)), IndexEvent(q))
  {
    var l1 := log + [DescEvent(q, d)];
    ImageSnoc(m, log, DescEvent(q, d));
    if !more {
      ImageSnoc(m, l1, RingEvent(q));
      ImageSnoc(m, l1 + [RingEvent(q)], IndexEvent(q));
      assert log + PlacementLog(q, d, more) == l1 + [RingEvent(q)] + [IndexEvent(q)];
    } else {
      assert log + PlacementLog(q, d, more) == l1;
    }
  }

  lemma PlacementMissesOthers(q: Vq, v: nat, w: nat, d: Desc)
    requires v < 8 && w < 8 && v != w && LaidOut(q, v) && q.size > 0
    ensures MissesQueue(DescEvent(q, d), w) && MissesQueue(RingEvent(q), w) && MissesQueue(IndexEvent(q), w)
  {
    if v < w {
      assert DescBase(v) + STRIDE <= DescBase(w);
    } else {
      assert DescBase(w) + STRIDE <= DescBase(v);
    }
  }

  lemma PlacementKeepsOther(m: Memory, q: Vq, v: nat, w: nat, d: Desc, more: bool, p: Vq, a: AbstractQueue)
    requires v < 8 && w < 8 && v != w && LaidOut(q, v) && q.size > 0 && QueueRefines(m, w, p, a)
    ensures QueueRefines(Image(m, PlacementLog(q, d, more)), w, p, a)
  {
    var es := PlacementLog(q, d, more);
    forall i | 0 <= i < |es| ensures MissesQueue(es[i], w) {
      PlacementMissesOthers(q, v, w, d);
    }
    MissedQueueAll(m, es, w, a);
  }

  lemma PlacementBytes(m: Memory, q: Vq, v: nat, d: Desc, more: bool, a: AbstractQueue)
    requires v < 8 && LaidOut(q, v) && q.size > 0 && QueueRefines(m, v, q, a)
    ensures var a' := Record(a, d, q.size, more); var m' := Image(m, PlacementLog(q, d, more));
            QueueBytes(m', v, a')
  {
    ImageOfPlacement(m, [], q, d, more);
    assert [] + PlacementLog(q, d, more) == PlacementLog(q, d, more);
    DescEventRefines(m, v, q, a, d);
    if !more {
      PublishRefines(Apply(m, DescEvent(q, d)), v, q, a, a.Add(d, q.size).table);
    }
  }

  lemma RecordWindow(a: AbstractQueue, d: Desc, size: u32, more: bool)
    requires WindowOk(a) && size > 0
    ensures WindowOk(Record(a, d, size, more))
  {
    AddWindow(a, d, size);
    if !more {
      PublishWindow(a.Add(d, size), Wrap16(|a.placed|), size);
    }
  }

  lemma RecordCounts(q: Vq, a: AbstractQueue, d: Desc, more: bool)
    requires CountersOk(q, a) && q.size > 0
    ensures CountersOk(Advance(q, more), Record(a, d, q.size, more))
  {
    WrapFacts(|a.placed|);
    WrapFacts(|a.pubs|);
  }

  lemma PlacementRefines(m: Memory, q: Vq, v: nat, d: Desc, more: bool, a: AbstractQueue)
    requires v < 8 && LaidOut(q, v) && q.size > 0 && QueueRefines(m, v, q, a)
    ensures QueueRefines(Image(m, PlacementLog(q, d, more)), v, Advance(q, more), Record(a, d, q.size, more))
  {
    PlacementBytes(m, q, v, d, more, a);
    RecordWindow(a, d, q.size, more);
    RecordCounts(q, a, d, more);
  }

  lemma PlaceDescRefines(m0: Memory, s: Core, v: nat, addr: u64, len: u32, writable: bool, more: bool)
    requires QueuesOk(s) && CanPlace(s, v) && Refines(m0, s)
    ensures Refines(m0, PlaceDesc(s, v, addr, len, writable, more))
  {
    var r := PlaceDesc(s, v, addr, len, writable, more);
    var q, a := s.vqs[v], s.hist.queues[v];
    var d := DescFor(q, addr, len, writable, more);
    ImageAppend(m0, s.log, PlacementLog(q, d, more));
    forall w | 0 <= w < |r.vqs| ensures QueueRefines(Image(m0, r.log), w, r.vqs[w], r.hist.queues[w]) {
      if w != v {
        PlacementKeepsOther(Image(m0, s.log), q, v, w, d, more, s.vqs[w], s.hist.queues[w]);
      } else {
        PlacementRefines(Image(m0, s.log), q, v, d, more, a);
      }
    }
  }

  lemma {:induction false} PlaceAllRefines(m0: Memory, s: Core, v: nat, bufs: seq<Buf>, parts: seq<Part>)
    requires QueuesOk(s) && CanPlace(s, v) && |bufs| <= |parts| && Refines(m0, s)
    ensures Refines(m0, PlaceAll(s, v, bufs, parts)) && QueuesOk(PlaceAll(s, v, bufs, parts))
    decreases |bufs|
  {
    if bufs != [] {
      PlaceDescRefines(m0, s, v, bufs[0].gpa, bufs[0].len, parts[0].writable, |bufs| > 1);
      var s1 := PlaceDesc(s, v, bufs[0].gpa, bufs[0].len, parts[0].writable, |bufs| > 1);
      PlaceAllRefines(m0, s1, v, bufs[1..], parts[1..]);
    }
  }

  lemma SubmitRefines(m0: Memory, s: Core, sub: Submission)
    requires QueuesOk(s) && sub.Valid(|s.vqs|) && Refines(m0, s) && PoolOk(s, BufPoolBase(|s.vqs|))
    ensures Refines(m0, Submit(s, sub))
  {
    AllocAllOk(s, sub.parts, sub.named, BufPoolBase(|s.vqs|));
    var (s1, bs) := AllocAll(s, sub.parts, sub.named);
    QuietRefines(m0, s, s1);
    if HasRoom(s, sub.vq, sub.slack) && bs.Some? {
      PlaceAllRefines(m0, s1, sub.vq, bs.value[..sub.placed], sub.parts);
      var s2 := PlaceAll(s1, sub.vq, bs.value[..sub.placed], sub.parts);
      QuietEmit(s2, Registers([RegWrite(R_QUEUE_NOTIFY, sub.vq)] + sub.tail));
      QuietRefines(m0, s2, Submit(s, sub));
    }
  }

  lemma RegistersRefine(m0: Memory, s: Core, es: seq<Event>)
    requires Refines(m0, s) && forall i | 0 <= i < |es| :: es[i].Mmio?
    ensures Refines(m0, Emit(s, es))
  {
    QuietEmit(s, es);
    QuietRefines(m0, s, Emit(s, es));
  }

  lemma ResizeRefines(m0: Memory, s: Core, v: nat, size: u32)
    requires Refines(m0, s) && v < |s.vqs|
    ensures Refines(m0, s.(vqs := s.vqs[v := s.vqs[v].(size := size)]))
  {
    var r := s.(vqs := s.vqs[v := s.vqs[v].(size := size)]);
    forall w | 0 <= w < |r.vqs| ensures QueueRefines(Image(m0, r.log), w, r.vqs[w], r.hist.queues[w]) {
      assert QueueRefines(Image(m0, s.log), w, s.vqs[w], s.hist.queues[w]);
    }
  }

  lemma VqSetupRefines(m0: Memory, s: Core, v: u32, requested: u32, max: u32)
    requires Refines(m0, s)
    ensures Refines(m0, VqSetup(s, v, requested, max))
  {
    if v < |s.vqs| {
      var es := Registers([RegWrite(R_QUEUE_SEL, v), RegRead(R_QUEUE_NUM_MAX)]);
      RegistersRefine(m0, s, es);
      if max != 0 {
        var s1 := Emit(s, es);
        var size := QueueSizeFor(requested, max);
        var q := s.vqs[v].(size := size);
        var s2 := s1.(vqs := s1.vqs[v := q]);
        ResizeRefines(m0, s1, v, size);
        RegistersRefine(m0, s2, Registers(SetupAccesses(v, size, q)));
      }
    }
  }

  lemma ResetRefines(m0: Memory, s: Core)
    requires Shaped(s)
    ensures Refines(m0, Reset(s))
  {
  }

  lemma AbsoluteRefines(m0: Memory, s: Core, a: Action)
    requires QueuesOk(s) && a.Valid(|s.vqs|) && a.DoMemwriteAbsolute? && Refines(m0, s)
    ensures Refines(m0, Step(s, a))
  {
    if a.data != [] {
      var d := Truncate(a.data, MAX_DATA);
      QuietEmit(s, [MemWrite(AbsoluteTarget(|s.vqs|, a.gpa, |d|), d)]);
      QuietRefines(m0, s, Step(s, a));
    }
  }

  lemma AddDescRefines(m0: Memory, s: Core, a: Action)
    requires QueuesOk(s) && a.Valid(|s.vqs|) && a.DoAddDesc? && Refines(m0, s)
    ensures Refines(m0, Step(s, a))
  {
    var e := Resolve(s, a.floor, a.id, a.len, a.exotic);
    if CanPlace(s, a.vq) && e.Some? {
      PlaceDescRefines(m0, s, a.vq, e.value.addr, e.value.len, a.writable, a.more);
    }
  }

  lemma StepRefines(m0: Memory, s: Core, a: Action)
    requires QueuesOk(s) && a.Valid(|s.vqs|) && Refines(m0, s) && PoolOk(s, BufPoolBase(|s.vqs|))
    ensures Refines(m0, Step(s, a))
  {
    match a
    case TouchRegisters(accesses) => RegistersRefine(m0, s, Registers(accesses));
    case DoReset => ResetRefines(m0, s);
    case DoVqSetup(v, requested, max) => VqSetupRefines(m0, s, v, requested, max);
    case DoGuestMemWrite(id, data) =>
      GuestMemWriteOk(s, id, data, BufPoolBase(|s.vqs|));
      QuietRefines(m0, s, Step(s, a));
    case DoStage(chunks) =>
      StageOk(s, chunks, BufPoolBase(|s.vqs|));
      QuietRefines(m0, s, Step(s, a));
    case DoMemwriteAbsolute(gpa, data) => AbsoluteRefines(m0, s, a);
    case DoSubmit(sub) => SubmitRefines(m0, s, sub);
    case DoAddDesc(floor, v, id, len, writable, more, exotic) => AddDescRefines(m0, s, a);
  }

  lemma {:induction false} RunRefines(m0: Memory, s: Core, acts: seq<Action>)
    requires QueuesOk(s) && ValidActions(|s.vqs|, acts) && SmallDeviceRun(acts)
    requires Refines(m0, s) && PoolOk(s, BufPoolBase(|s.vqs|)) && DescsOk(s)
    ensures QueuesOk(Run(s, acts)) && Refines(m0, Run(s, acts))
  {
    if acts != [] {
      var k := |acts| - 1;
      RunRefines(m0, s, acts[..k]);
      RunOk(s, acts[..k]);
      RunConfined(s, acts[..k], |s.log|);
      RunConfined(s, acts, |s.log|);
      StepRefines(m0, Run(s, acts[..k]), acts[k]);
    }
  }

  lemma ReachableRefines(m0: Memory, s: Core, acts: seq<Action>)
    requires Shaped(s) && ValidActions(|s.vqs|, acts) && SmallDeviceRun(acts)
    ensures var r := Run(Reset(s), acts);
            QueuesOk(r) && Refines(m0, r) && PoolOk(r, BufPoolBase(|s.vqs|)) && DescsOk(r)
  {
    ResetRefines(m0, s);
    ResetOk(s);
    ResetConfined(s);
    RunRefines(m0, Reset(s), acts);
    RunOk(Reset(s), acts);
  }

  /** For any memory contents at the start and any run from a reset: the bytes of each descriptor
      table decode to the last descriptor placed in each slot, the ring bytes to the last index
      published in each ring slot, and, once something was published, `avail.idx` to the number of
      publications modulo 2^16. The abstract counters never wrap; the harness's do. */
  lemma RefinementTheorem(m0: Memory, s: Core, acts: seq<Action>, v: nat)
    requires Shaped(s) && ValidActions(|s.vqs|, acts) && SmallDeviceRun(acts) && v < |s.vqs|
    ensures var r := Run(Reset(s), acts);
            var m, a := Image(m0, r.log), r.hist.queues[v];
            && (forall k | k in a.table :: k < 256 && DescAt(m, v, k) == a.table[k])
            && (forall k | k in a.ring :: k < 256 && RingAt(m, v, k) == a.ring[k])
            && (a.pubs != [] ==> IdxAt(m, v) == |a.pubs| % TWO_16)
            && r.vqs[v].nextDesc == |a.placed| % TWO_32 && r.vqs[v].nextAvail == |a.pubs| % TWO_32
  {
    ReachableRefines(m0, s, acts);
    var r := Run(Reset(s), acts);
    assert QueueRefines(Image(m0, r.log), v, r.vqs[v], r.hist.queues[v]);
  }

  /** When the queue had one size since the reset, memory holds the last `size` descriptors and
      the last `size` published indices, each in the slot its unbounded number gives: no counter
      wrap ever displaces an entry. */
  lemma RingBufferTheorem(m0: Memory, s: Core, acts: seq<Action>, v: nat, size: u32)
    requires Shaped(s) && ValidActions(|s.vqs|, acts) && SmallDeviceRun(acts) && v < |s.vqs|
    requires size > 0 && OneSize(Run(Reset(s), acts).hist.queues[v], size)
    ensures var r := Run(Reset(s), acts);
            var m, a := Image(m0, r.log), r.hist.queues[v];
            && (forall j | 0 <= j < |a.placed| && |a.placed| - size <= j ::
                  DescAt(m, v, j % size) == a.placed[j].desc)
            && (forall j | 0 <= j < |a.pubs| && |a.pubs| - size <= j ::
                  RingAt(m, v, j % size) == a.pubs[j].index)
  {
    ReachableRefines(m0, s, acts);
    var r := Run(Reset(s), acts);
    assert QueueRefines(Image(m0, r.log), v, r.vqs[v], r.hist.queues[v]);
    assert HoldsLast(r.hist.queues[v], size);
  }
}
