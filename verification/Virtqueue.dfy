/** The driver core every harness repeats: a bump allocator for guest buffers, a map of named
    buffers, and split virtqueues (section 2.7 of VIRTIO 1.2) built in guest memory.

    This file gives the state and each step as a function on values. `Driver.dfy` has the
    imperative form. */
module Virtqueue {
  import opened Bytes
  import opened Guest
  import opened QueueSize
  import opened Wrappers

  const POOL_BASE := 0x4700_0000
  const DESC_TABLE := 0x1000
  const AVAIL_RING := 0x1000
  const USED_RING := 0x1000
  const STRIDE := DESC_TABLE + AVAIL_RING + USED_RING
  const POOL_END := 0x47F0_0000
  const MAX_DATA := 4096
  const MMIO_BASE := 0x0a00_3e00
  const SYNTH_BASE := 0x8000_0000

  const F_NEXT := 1
  const F_WRITE := 2

  const R_QUEUE_SEL := 0x030
  const R_QUEUE_NUM_MAX := 0x034
  const R_QUEUE_NUM := 0x038
  const R_QUEUE_READY := 0x044
  const R_QUEUE_NOTIFY := 0x050
  const R_STATUS := 0x070
  const R_QDESC := 0x080
  const R_QDRV := 0x090
  const R_QDEV := 0x0a0

  function BufPoolBase(queues: nat): nat { POOL_BASE + queues * STRIDE }

  function DescBase(v: nat): nat { POOL_BASE + v * STRIDE }

  function AvailBase(v: nat): nat { DescBase(v) + DESC_TABLE }

  function UsedBase(v: nat): nat { AvailBase(v) + AVAIL_RING }

  /** Values of the allocation pointer and of queue addresses; no allocation ever passes the end. */
  type cursor = x: int | 0 <= x <= POOL_END

  datatype Vq = Vq(desc: cursor, avail: cursor, used: cursor, size: u32, nextDesc: u32, nextAvail: u32)

  datatype Buf = Buf(gpa: cursor, len: u32)

  datatype Desc = Desc(addr: u64, len: u32, flags: u16, next: u16)
  {
    predicate HasNext() { flags % 2 == 1 }
    predicate Writable() { flags / 2 % 2 == 1 }
  }

  function EncodeDesc(d: Desc): (s: seq<byte>)
    ensures |s| == 16
  {
    Le64(d.addr) + Le32(d.len) + Le16(d.flags) + Le16(d.next)
  }

  function DecodeDesc(s: seq<byte>): Desc
    requires |s| == 16
  {
    Desc(UnLe64(s[..8]), UnLe32(s[8..12]), UnLe16(s[12..14]), UnLe16(s[14..]))
  }

  lemma DescRoundTrip(d: Desc)
    ensures DecodeDesc(EncodeDesc(d)) == d
  {
    var s := EncodeDesc(d);
    assert s[..8] == Le64(d.addr) && s[8..12] == Le32(d.len);
    assert s[12..14] == Le16(d.flags) && s[14..] == Le16(d.next);
    Le64RoundTrip(d.addr);
    Le32RoundTrip(d.len);
  }

  // The abstract queue: what has been placed and published since the last reset, with counters
  // that never wrap. It is history only; no step of the harness looks at it.

  /** One descriptor placed, and one index published, under the queue size of the time. */
  datatype Placement = Placement(desc: Desc, size: u32)
  datatype Publication = Publication(index: u16, size: u32)

  datatype AbstractQueue = AbstractQueue(
    placed: seq<Placement>, table: map<nat, Desc>, pubs: seq<Publication>, ring: map<nat, u16>)
  {
    function Add(d: Desc, size: u32): AbstractQueue
      requires size > 0
    {
      this.(placed := placed + [Placement(d, size)], table := table[|placed| % size := d])
    }

    /** Makes `index` available in the next ring slot. */
    function Publish(index: u16, size: u32): AbstractQueue
      requires size > 0
    {
      this.(pubs := pubs + [Publication(index, size)], ring := ring[|pubs| % size := index])
    }
  }

  const EMPTY_QUEUE := AbstractQueue([], map[], [], map[])

  /** `blocks`: buffers allocated since the last reset; `all`: since the start;
      `start`: length of the log at the last reset. */
  datatype History = History(blocks: seq<Buf>, all: seq<Buf>, queues: seq<AbstractQueue>, start: nat)

  datatype Core = Core(
    vqs: seq<Vq>, bufAlloc: cursor, bufs: map<u32, Buf>, synthId: u32, log: seq<Event>, hist: History)

  function Emit(s: Core, events: seq<Event>): Core {
    s.(log := s.log + events)
  }

  function Registers(accesses: seq<Access>): (events: seq<Event>)
    ensures |events| == |accesses| && forall i :: 0 <= i < |events| ==> events[i] == Mmio(accesses[i])
  {
    seq(|accesses|, i requires 0 <= i < |accesses| => Mmio(accesses[i]))
  }

  // Reset

  function InitialVq(v: nat): Vq
    requires v <= 8
  {
    Vq(DescBase(v), AvailBase(v), UsedBase(v), 0, 0, 0)
  }

  const RESET_ACCESSES := [RegWrite(R_STATUS, 0), RegWrite(R_STATUS, 3)]

  function Reset(s: Core): Core
    requires |s.vqs| <= 8
  {
    var n := |s.vqs|;
    var log := s.log + Registers(RESET_ACCESSES);
    Core(seq(n, i requires 0 <= i < n => InitialVq(i)), BufPoolBase(n), map[], SYNTH_BASE, log,
         History([], s.hist.all, seq(n, _ => EMPTY_QUEUE), |log|))
  }

  // Queue setup

  function SetupAccesses(v: u32, size: u32, q: Vq): seq<Access> {
    [RegWrite(R_QUEUE_NUM, size),
     RegWrite(R_QDESC, q.desc % TWO_32), RegWrite(R_QDESC + 4, q.desc / TWO_32),
     RegWrite(R_QDRV, q.avail % TWO_32), RegWrite(R_QDRV + 4, q.avail / TWO_32),
     RegWrite(R_QDEV, q.used % TWO_32), RegWrite(R_QDEV + 4, q.used / TWO_32),
     RegWrite(R_QUEUE_READY, 1)]
  }

  /** `max` is what the device answers for QUEUE_NUM_MAX. */
  function VqSetup(s: Core, v: u32, requested: u32, max: u32): Core {
    if v >= |s.vqs| then s
    else
      var s1 := Emit(s, Registers([RegWrite(R_QUEUE_SEL, v), RegRead(R_QUEUE_NUM_MAX)]));
      if max == 0 then s1
      else
        var size := QueueSizeFor(requested, max);
        var q := s.vqs[v].(size := size);
        Emit(s1.(vqs := s.vqs[v := q]), Registers(SetupAccesses(v, size, q)))
  }

  // Buffers

  function AlignDown(x: nat): (r: nat)
    ensures r % 16 == 0 && r <= x < r + 16
  {
    x - x % 16
  }

  /** Bytes a buffer of length `len` takes from the pool. */
  function Reserved(len: nat): nat { AlignDown(len + 16) }

  predicate Fits(s: Core, len: u32) { s.bufAlloc + len + 16 <= POOL_END }

  function Reserve(s: Core, len: u32): Core
    requires Fits(s, len)
  {
    var b := Buf(s.bufAlloc, len);
    s.(bufAlloc := AlignDown(s.bufAlloc + len + 16),
       hist := s.hist.(blocks := s.hist.blocks + [b], all := s.hist.all + [b]))
  }

  function TotalLength(chunks: seq<seq<byte>>): nat {
    if chunks == [] then 0 else |chunks[0]| + TotalLength(chunks[1..])
  }

  function Flatten(chunks: seq<seq<byte>>): (data: seq<byte>)
    ensures |data| == TotalLength(chunks)
  {
    if chunks == [] then [] else chunks[0] + Flatten(chunks[1..])
  }

  /** The pieces in which a buffer is filled, one guest-memory write each. */
  type pieces = c: seq<seq<byte>> | TotalLength(c) < TWO_32 witness []

  function Whole(data: blob): (p: pieces)
    ensures TotalLength(p) == |data| && Flatten(p) == data
  {
    if data == [] then []
    else
      assert TotalLength([data]) == |data| + TotalLength([]) && Flatten([data]) == data + Flatten([]);
      [data]
  }

  function Fill(gpa: nat, chunks: seq<seq<byte>>): seq<Event>
    requires gpa + TotalLength(chunks) < TWO_64
    decreases |chunks|
  {
    if chunks == [] then []
    else [MemWrite(gpa, chunks[0])] + Fill(gpa + |chunks[0]|, chunks[1..])
  }

  /** Takes a block from the pool and fills it. */
  function Stage(s: Core, chunks: pieces): Core {
    var len := TotalLength(chunks);
    if !Fits(s, len) then s else Emit(Reserve(s, len), Fill(s.bufAlloc, chunks))
  }

  /** A buffer filled in one piece: one write, or none for an empty buffer. */
  lemma StageWhole(s: Core, data: blob)
    requires Fits(s, |data|)
    ensures Stage(s, Whole(data)) ==
            if data == [] then Reserve(s, |data|) else Emit(Reserve(s, |data|), [MemWrite(s.bufAlloc, data)])
  {
    if data == [] {
      assert s.log + Fill(s.bufAlloc, []) == s.log;
    } else {
      assert [data][1..] == [];
      assert Fill(s.bufAlloc, [data]) == [MemWrite(s.bufAlloc, data)] + Fill(s.bufAlloc + |data|, []);
    }
  }

  function GuestMemWrite(s: Core, id: u32, data: seq<byte>): Core {
    var d: blob := Truncate(data, MAX_DATA);
    if !Fits(s, |d|) then s
    else Stage(s, Whole(d)).(bufs := s.bufs[id := Buf(s.bufAlloc, |d|)])
  }

  /** `named`: the buffer is entered in the map under a fresh synthetic id (`alloc_buf`), and an
      id of 0 reads as a failure; otherwise only its address is returned (`alloc_gpa`), and an
      address of 0 reads as a failure. */
  datatype Part = Part(chunks: pieces, writable: bool)

  function AllocPart(s: Core, chunks: pieces, named: bool): (r: (Core, Option<Buf>))
    ensures r.1.Some? ==> Fits(s, TotalLength(chunks)) && r.1.value == Buf(s.bufAlloc, TotalLength(chunks))
  {
    var len := TotalLength(chunks);
    if !Fits(s, len) then (s, None)
    else
      var b := Buf(s.bufAlloc, len);
      var s1 := Stage(s, chunks);
      if named then
        (s1.(synthId := Wrap32(s.synthId + 1), bufs := s.bufs[s.synthId := b]),
         if s.synthId == 0 then None else Some(b))
      else (s1, if s.bufAlloc == 0 then None else Some(b))
  }

  function AllocAll(s: Core, parts: seq<Part>, named: bool): (r: (Core, Option<seq<Buf>>))
    ensures r.1.Some? ==> |r.1.value| == |parts|
    decreases |parts|
  {
    if parts == [] then (s, Some([]))
    else
      var (s1, b) := AllocPart(s, parts[0].chunks, named);
      if b.None? then (s1, None)
      else
        var (s2, bs) := AllocAll(s1, parts[1..], named);
        (s2, if bs.None? then None else Some([b.value] + bs.value))
  }

  // Descriptors

  function FlagsOf(writable: bool, more: bool): u16 {
    (if writable then F_WRITE else 0) + (if more then F_NEXT else 0)
  }

  function DescFor(q: Vq, addr: u64, len: u32, writable: bool, more: bool): Desc
    requires q.size > 0
  {
    Desc(addr, len, FlagsOf(writable, more), Wrap16(Wrap32(q.nextDesc % q.size + 1) % q.size))
  }

  function DescEvent(q: Vq, d: Desc): Event
    requires q.size > 0
  {
    MemWrite(q.desc + Wrap32(q.nextDesc % q.size * 16), EncodeDesc(d))
  }

  function RingEvent(q: Vq): Event
    requires q.size > 0
  {
    MemWrite(q.avail + 4 + Wrap32(q.nextAvail % q.size * 2), Le16(Wrap16(q.nextDesc)))
  }

  function IndexEvent(q: Vq): Event {
    MemWrite(q.avail + 2, Le16(Wrap16(Wrap32(q.nextAvail + 1))))
  }

  function PlacementLog(q: Vq, d: Desc, more: bool): seq<Event>
    requires q.size > 0
  {
    if more then [DescEvent(q, d)] else [DescEvent(q, d), RingEvent(q), IndexEvent(q)]
  }

  function Advance(q: Vq, more: bool): Vq {
    q.(nextDesc := Wrap32(q.nextDesc + 1),
       nextAvail := if more then q.nextAvail else Wrap32(q.nextAvail + 1))
  }

  function Record(a: AbstractQueue, d: Desc, size: u32, more: bool): AbstractQueue
    requires size > 0
  {
    if more then a.Add(d, size) else a.Add(d, size).Publish(Wrap16(|a.placed|), size)
  }

  /** Writes one descriptor; unless `more` follow, also makes the chain available. The index
      published is that of this last descriptor. */
  function PlaceDesc(s: Core, v: nat, addr: u64, len: u32, writable: bool, more: bool): Core
    requires v < |s.vqs| == |s.hist.queues| && s.vqs[v].size > 0
  {
    var q, a := s.vqs[v], s.hist.queues[v];
    var d := DescFor(q, addr, len, writable, more);
    Emit(s, PlacementLog(q, d, more)).(
      vqs := s.vqs[v := Advance(q, more)],
      hist := s.hist.(queues := s.hist.queues[v := Record(a, d, q.size, more)]))
  }

  datatype Extent = Extent(addr: u64, len: u32)

  const EXOTIC_BASES: seq<u64> := [0x0900_0000, MMIO_BASE, 0x0800_0000, 0x0a00_0000]
  const EXOTIC_SIZES: seq<u32> := [0x1000, 0x200, 0x1_0000, 0x3e00]

  /** The bytes a `VqAddDesc` names: a register block for a non-zero `exotic`, otherwise a buffer
      from the map. `floor` is the least length the harness allows (0 or 1). */
  function Resolve(s: Core, floor: u32, id: u32, len: u32, exotic: u32): Option<Extent>
    requires floor <= 1
  {
    if exotic != 0 then
      var r := (exotic - 1) % 4;
      Some(Extent(EXOTIC_BASES[r] + id % (EXOTIC_SIZES[r] / 4) * 4, Max(Min(len, 4), floor)))
    else if id !in s.bufs then None
    else Some(Extent(s.bufs[id].gpa, Max(Min(len, s.bufs[id].len), floor)))
  }

  predicate CanPlace(s: Core, v: nat) {
    v < |s.vqs| == |s.hist.queues| && s.vqs[v].size > 0
  }

  function AddDesc(s: Core, floor: u32, v: u32, id: u32, len: u32, writable: bool, more: bool, exotic: u32): Core
    requires floor <= 1 && |s.vqs| == |s.hist.queues|
  {
    if !CanPlace(s, v) then s
    else
      match Resolve(s, floor, id, len, exotic)
      case None => s
      case Some(e) => PlaceDesc(s, v, e.addr, e.len, writable, more)
  }

  // Raw writes

  /** Where `MemwriteAbsolute` really writes; `len` is between 1 and 4096. */
  function AbsoluteTarget(queues: nat, gpa: u64, len: u32): (t: u64)
    requires queues <= 8 && 0 < len <= MAX_DATA
    ensures BufPoolBase(queues) <= t && t + len <= POOL_END
  {
    if gpa < BufPoolBase(queues) || gpa > POOL_END - len then
      BufPoolBase(queues) + gpa % (POOL_END - BufPoolBase(queues) - len)
    else gpa
  }

  function MemwriteAbsolute(s: Core, gpa: u64, data: seq<byte>): Core
    requires |s.vqs| <= 8
  {
    if data == [] then s
    else
      var d := Truncate(data, MAX_DATA);
      Emit(s, [MemWrite(AbsoluteTarget(|s.vqs|, gpa, |d|), d)])
  }

  // Typed submissions

  function PlaceAll(s: Core, v: nat, bufs: seq<Buf>, parts: seq<Part>): (r: Core)
    requires CanPlace(s, v) && |bufs| <= |parts|
    ensures CanPlace(r, v) && |r.vqs| == |s.vqs|
    decreases |bufs|
  {
    if bufs == [] then s
    else
      var s1 := PlaceDesc(s, v, bufs[0].gpa, bufs[0].len, parts[0].writable, |bufs| > 1);
      PlaceAll(s1, v, bufs[1..], parts[1..])
  }

  /** Placing a chain changes queues, their histories and the log, and nothing else. */
  lemma {:induction false} PlaceAllFrame(s: Core, v: nat, bufs: seq<Buf>, parts: seq<Part>)
    requires CanPlace(s, v) && |bufs| <= |parts|
    ensures var r := PlaceAll(s, v, bufs, parts);
            r == s.(log := r.log, vqs := r.vqs, hist := s.hist.(queues := r.hist.queues))
    decreases |bufs|
  {
    if bufs != [] {
      var s1 := PlaceDesc(s, v, bufs[0].gpa, bufs[0].len, parts[0].writable, |bufs| > 1);
      PlaceAllFrame(s1, v, bufs[1..], parts[1..]);
    }
  }

  /** What every typed submission does once its request is built: give up if the queue is not set
      up or has fewer than `slack` free entries left, allocate and fill all the parts, give up if
      any allocation fails, chain the first `placed` parts, notify, then touch `tail`. */
  datatype Submission = Submission(
    vq: u32, slack: u32, parts: seq<Part>, placed: nat, named: bool, tail: seq<Access>)
  {
    predicate Valid(queues: nat) {
      vq < queues && 0 < placed <= |parts| <= slack <= 5
    }
  }

  /** No readable buffer after a writable one (section 2.7.4.2 of VIRTIO 1.2). */
  predicate ReadableFirst(parts: seq<Part>) {
    forall i, j | 0 <= i < j < |parts| :: parts[i].writable ==> parts[j].writable
  }

  predicate HasRoom(s: Core, v: nat, slack: u32)
    requires v < |s.vqs|
  {
    s.vqs[v].size != 0 && Wrap32(s.vqs[v].nextDesc + slack) < s.vqs[v].size
  }

  lemma {:induction false} AllocPartKeepsQueues(s: Core, chunks: pieces, named: bool)
    ensures AllocPart(s, chunks, named).0.vqs == s.vqs && AllocPart(s, chunks, named).0.hist.queues == s.hist.queues
  {
  }

  lemma {:induction false} AllocAllKeepsQueues(s: Core, parts: seq<Part>, named: bool)
    ensures AllocAll(s, parts, named).0.vqs == s.vqs && AllocAll(s, parts, named).0.hist.queues == s.hist.queues
    decreases |parts|
  {
    if parts != [] {
      AllocPartKeepsQueues(s, parts[0].chunks, named);
      AllocAllKeepsQueues(AllocPart(s, parts[0].chunks, named).0, parts[1..], named);
    }
  }

  function Submit(s: Core, sub: Submission): Core
    requires sub.Valid(|s.vqs|) && |s.vqs| == |s.hist.queues|
  {
    if !HasRoom(s, sub.vq, sub.slack) then s
    else
      var (s1, bufs) := AllocAll(s, sub.parts, sub.named);
      if bufs.None? then s1
      else
        AllocAllKeepsQueues(s, sub.parts, sub.named);
        Emit(PlaceAll(s1, sub.vq, bufs.value[..sub.placed], sub.parts),
             Registers([RegWrite(R_QUEUE_NOTIFY, sub.vq)] + sub.tail))
  }

  // Actions: everything any harness op does to the core is a sequence of these.

  datatype Action =
    | TouchRegisters(accesses: seq<Access>)
    | DoReset
    | DoVqSetup(vq: u32, requested: u32, max: u32)
    | DoGuestMemWrite(id: u32, data: seq<byte>)
    | DoAddDesc(floor: u32, vq: u32, id: u32, len: u32, writable: bool, more: bool, exotic: u32)
    | DoMemwriteAbsolute(gpa: u64, data: seq<byte>)
    | DoStage(chunks: pieces)
    | DoSubmit(sub: Submission)
  {
    predicate Valid(queues: nat) {
      && (DoAddDesc? ==> floor <= 1)
      && (DoSubmit? ==> sub.Valid(queues))
    }
  }

  predicate Shaped(s: Core) {
    1 <= |s.vqs| == |s.hist.queues| <= 8
  }

  function Step(s: Core, a: Action): (r: Core)
    requires Shaped(s) && a.Valid(|s.vqs|)
  {
    match a
    case TouchRegisters(accesses) => Emit(s, Registers(accesses))
    case DoReset => Reset(s)
    case DoVqSetup(v, requested, max) => VqSetup(s, v, requested, max)
    case DoGuestMemWrite(id, data) => GuestMemWrite(s, id, data)
    case DoAddDesc(floor, v, id, len, writable, more, exotic) => AddDesc(s, floor, v, id, len, writable, more, exotic)
    case DoMemwriteAbsolute(gpa, data) => MemwriteAbsolute(s, gpa, data)
    case DoStage(chunks) => Stage(s, chunks)
    case DoSubmit(sub) => Submit(s, sub)
  }

  lemma StepShape(s: Core, a: Action)
    requires Shaped(s) && a.Valid(|s.vqs|)
    ensures Shaped(Step(s, a)) && |Step(s, a).vqs| == |s.vqs|
  {
    match a
    case DoSubmit(sub) =>
      AllocAllKeepsQueues(s, sub.parts, sub.named);
    case _ =>
  }

  predicate ValidActions(queues: nat, acts: seq<Action>) {
    forall a | a in acts :: a.Valid(queues)
  }

  /** A whole run, first action first. */
  function Run(s: Core, acts: seq<Action>): (r: Core)
    requires Shaped(s) && ValidActions(|s.vqs|, acts)
    ensures Shaped(r) && |r.vqs| == |s.vqs|
  {
    if acts == [] then s
    else
      var k := |acts| - 1;
      var s1 := Run(s, acts[..k]);
      StepShape(s1, acts[k]);
      Step(s1, acts[k])
  }

  lemma RunSnoc(s: Core, acts: seq<Action>, a: Action)
    requires Shaped(s) && ValidActions(|s.vqs|, acts) && a.Valid(|s.vqs|)
    ensures ValidActions(|s.vqs|, acts + [a])
    ensures Run(s, acts + [a]) == Step(Run(s, acts), a)
  {
    assert (acts + [a])[..|acts|] == acts;
  }

  lemma {:induction false} RunAppend(s: Core, acts: seq<Action>, more: seq<Action>)
    requires Shaped(s) && ValidActions(|s.vqs|, acts) && ValidActions(|s.vqs|, more)
    ensures ValidActions(|s.vqs|, acts + more)
    ensures Run(s, acts + more) == Run(Run(s, acts), more)
  {
    if more == [] {
      assert acts + more == acts;
    } else {
      var k := |more| - 1;
      RunAppend(s, acts, more[..k]);
      assert acts + more == (acts + more[..k]) + [more[k]];
      RunSnoc(s, acts + more[..k], more[k]);
    }
  }

  /** A freshly started thread: no queue has an address yet. */
  function Unset(queues: nat, bufAlloc: cursor, synthId: u32, log: seq<Event>): Core {
    Core(seq(queues, _ => Vq(0, 0, 0, 0, 0, 0)), bufAlloc, map[], synthId, log,
         History([], [], seq(queues, _ => EMPTY_QUEUE), |log|))
  }
}
