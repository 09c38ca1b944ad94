/** What a device finds in memory after a typed submission: following NEXT from the chain's first
    slot visits exactly the request's buffers, with exactly the request's bytes. */
module Chain {
  import opened Bytes
  import opened Guest
  import opened QueueSize
  import opened Virtqueue
  import opened Pool
  import opened Confinement
  import opened Refinement
  import opened SubmissionTheorems
  import opened Counting
  import opened Wrappers

  datatype Hop = Hop(slot: nat, desc: Desc)

  /** Follows `next` from `slot` while NEXT is set, for at most `fuel` descriptors. */
  function Walk(m: Memory, v: nat, slot: nat, fuel: nat): seq<Hop>
    decreases fuel
  {
    if fuel == 0 then []
    else
      var d := DescAt(m, v, slot);
      if d.HasNext() then [Hop(slot, d)] + Walk(m, v, d.next, fuel - 1) else [Hop(slot, d)]
  }

  // Buffer contents.

  predicate WritesAbove(es: seq<Event>, lo: nat) {
    forall i | 0 <= i < |es| :: es[i].MemWrite? ==> lo <= es[i].gpa
  }

  lemma {:induction false} FillAbove(gpa: nat, chunks: seq<seq<byte>>)
    requires gpa + TotalLength(chunks) < TWO_64
    ensures WritesAbove(Fill(gpa, chunks), gpa)
    decreases |chunks|
  {
    if chunks != [] {
      FillAbove(gpa + |chunks[0]|, chunks[1..]);
    }
  }

  lemma PeekBelow(m: Memory, es: seq<Event>, lo: nat, a: nat, n: nat)
    requires WritesAbove(es, lo) && a + n <= lo
    ensures Peek(Image(m, es), a, n) == Peek(m, a, n)
  {
    PeekMissAll(m, es, a, n);
  }

  lemma PeekSplit(m: Memory, a: nat, head: seq<byte>, tail: seq<byte>)
    requires Peek(m, a, |head|) == head && Peek(m, a + |head|, |tail|) == tail
    ensures Peek(m, a, |head| + |tail|) == head + tail
  {
    var whole := Peek(m, a, |head| + |tail|);
    forall i | 0 <= i < |head| + |tail| ensures whole[i] == (head + tail)[i] {
      if i < |head| {
        assert Peek(m, a, |head|)[i] == At(m, a + i);
      } else {
        assert Peek(m, a + |head|, |tail|)[i - |head|] == At(m, a + i);
      }
    }
  }

  lemma FillCons(gpa: nat, chunks: seq<seq<byte>>)
    requires gpa + TotalLength(chunks) < TWO_64 && chunks != []
    ensures var rest := chunks[1..];
            && TotalLength(chunks) == |chunks[0]| + TotalLength(rest) && Flatten(chunks) == chunks[0] + Flatten(rest)
            && Fill(gpa, chunks) == [MemWrite(gpa, chunks[0])] + Fill(gpa + |chunks[0]|, rest)
  {
  }

  /** The first piece stays while the rest is written behind it. */
  lemma HeadStays(m: Memory, gpa: u64, head: seq<byte>, es: seq<Event>)
    requires WritesAbove(es, gpa + |head|)
    ensures Image(m, [MemWrite(gpa, head)] + es) == Image(Apply(m, MemWrite(gpa, head)), es)
    ensures Peek(Image(Apply(m, MemWrite(gpa, head)), es), gpa, |head|) == head
  {
    ImageCons(m, MemWrite(gpa, head), es);
    PeekHit(m, gpa, head);
    PeekBelow(Apply(m, MemWrite(gpa, head)), es, gpa + |head|, gpa, |head|);
  }

  lemma {:induction false} FillHolds(m: Memory, gpa: nat, chunks: seq<seq<byte>>)
    requires gpa + TotalLength(chunks) < TWO_64
    ensures Peek(Image(m, Fill(gpa, chunks)), gpa, TotalLength(chunks)) == Flatten(chunks)
    decreases |chunks|
  {
    if chunks != [] {
      var head, rest := chunks[0], chunks[1..];
      FillCons(gpa, chunks);
      var m1, es := Apply(m, MemWrite(gpa, head)), Fill(gpa + |head|, rest);
      FillAbove(gpa + |head|, rest);
      HeadStays(m, gpa, head, es);
      FillHolds(m1, gpa + |head|, rest);
      PeekSplit(Image(m1, es), gpa, head, Flatten(rest));
    }
  }

  predicate Holds(m: Memory, b: Buf, chunks: pieces) {
    b.len == TotalLength(chunks) && Peek(m, b.gpa, b.len) == Flatten(chunks)
  }

  lemma StageHolds(m0: Memory, s: Core, chunks: pieces)
    requires Fits(s, TotalLength(chunks))
    ensures Holds(Image(m0, Stage(s, chunks).log), Buf(s.bufAlloc, TotalLength(chunks)), chunks)
    ensures Stage(s, chunks).log == s.log + Fill(s.bufAlloc, chunks)
  {
    ImageAppend(m0, s.log, Fill(s.bufAlloc, chunks));
    FillHolds(Image(m0, s.log), s.bufAlloc, chunks);
  }

  lemma {:induction false} AllocAllAbove(s: Core, parts: seq<Part>, named: bool) returns (es: seq<Event>)
    requires s.bufAlloc % 16 == 0
    ensures AllocAll(s, parts, named).0.log == s.log + es && WritesAbove(es, s.bufAlloc)
    decreases |parts|
  {
    if parts == [] {
      es := [];
    } else {
      var len := TotalLength(parts[0].chunks);
      var (s1, b) := AllocPart(s, parts[0].chunks, named);
      es := [];
      if Fits(s, len) {
        ReservedFacts(s.bufAlloc, len);
        FillAbove(s.bufAlloc, parts[0].chunks);
        es := Fill(s.bufAlloc, parts[0].chunks);
        if b.Some? {
          var more := AllocAllAbove(s1, parts[1..], named);
          es := es + more;
        }
      }
    }
  }

  predicate AllHold(m: Memory, bs: seq<Buf>, parts: seq<Part>) {
    |bs| == |parts| && forall i | 0 <= i < |parts| :: Holds(m, bs[i], parts[i].chunks)
  }

  lemma AllHoldCons(m: Memory, b: Buf, bs: seq<Buf>, parts: seq<Part>)
    requires parts != [] && Holds(m, b, parts[0].chunks) && AllHold(m, bs, parts[1..])
    ensures AllHold(m, [b] + bs, parts)
  {
    forall i | 0 <= i < |parts| ensures Holds(m, ([b] + bs)[i], parts[i].chunks) {
      if i > 0 {
        assert parts[i] == parts[1..][i - 1];
      }
    }
  }

  lemma {:induction false} AllocAllHolds(m0: Memory, s: Core, parts: seq<Part>, named: bool)
    requires s.bufAlloc % 16 == 0
    ensures var (r, bs) := AllocAll(s, parts, named);
            bs.Some? ==> AllHold(Image(m0, r.log), bs.value, parts)
    decreases |parts|
  {
    if parts != [] {
      var (s1, b) := AllocPart(s, parts[0].chunks, named);
      if b.Some? {
        AllocAllHolds(m0, s1, parts[1..], named);
        FirstStays(m0, s, parts, named);
        var (r, bs) := AllocAll(s1, parts[1..], named);
        if bs.Some? {
          AllHoldCons(Image(m0, r.log), b.value, bs.value, parts);
        }
      }
    }
  }

  /** Later allocations leave the first buffer as it was filled. */
  lemma FirstStays(m0: Memory, s: Core, parts: seq<Part>, named: bool)
    requires s.bufAlloc % 16 == 0 && parts != [] && AllocPart(s, parts[0].chunks, named).1.Some?
    ensures var (s1, b) := AllocPart(s, parts[0].chunks, named);
            Holds(Image(m0, AllocAll(s1, parts[1..], named).0.log), b.value, parts[0].chunks)
  {
    var len := TotalLength(parts[0].chunks);
    var s1 := AllocPart(s, parts[0].chunks, named).0;
    ReservedFacts(s.bufAlloc, len);
    StageHolds(m0, s, parts[0].chunks);
    var es := AllocAllAbove(s1, parts[1..], named);
    ImageAppend(m0, s1.log, es);
    PeekBelow(Image(m0, s1.log), es, s1.bufAlloc, s.bufAlloc, len);
  }

  // Placing the chain writes only below the pool.

  predicate WritesBelow(es: seq<Event>, hi: nat) {
    forall i | 0 <= i < |es| :: es[i].MemWrite? ==> es[i].gpa + |es[i].data| <= hi
  }

  lemma {:induction false} DescEventsBelow(q: Vq, v: nat, n: nat, ds: seq<Desc>)
    requires v < n <= 8 && LaidOut(q, v) && q.size > 0
    ensures WritesBelow(DescEvents(q, ds), BufPoolBase(n))
    decreases |ds|
  {
    if ds != [] {
      DescEventsBelow(Advance(q, true), v, n, ds[1..]);
      SlotBelow(q, v, n);
    }
  }

  lemma SlotBelow(q: Vq, v: nat, n: nat)
    requires v < n <= 8 && LaidOut(q, v) && q.size > 0
    ensures q.desc + Wrap32(q.nextDesc % q.size * 16) + 16 <= BufPoolBase(n)
    ensures q.avail + 4 + Wrap32(q.nextAvail % q.size * 2) + 2 <= BufPoolBase(n)
    ensures q.avail + 4 <= BufPoolBase(n)
  {
    SmallProducts(q.nextDesc % q.size);
    SmallProducts(q.nextAvail % q.size);
  }

  lemma ChainLogBelow(q: Vq, v: nat, n: nat, ds: seq<Desc>)
    requires v < n <= 8 && LaidOut(q, v) && q.size > 0 && ds != []
    ensures WritesBelow(ChainLog(q, ds), BufPoolBase(n))
  {
    DescEventsBelow(q, v, n, ds);
    SlotBelow(Ahead(q, |ds| - 1), v, n);
  }

  lemma PeekAbove(m: Memory, es: seq<Event>, hi: nat, a: nat, n: nat)
    requires WritesBelow(es, hi) && hi <= a
    ensures Peek(Image(m, es), a, n) == Peek(m, a, n)
  {
    PeekMissAll(m, es, a, n);
  }

  lemma HoldsAbove(m: Memory, es: seq<Event>, lo: nat, bs: seq<Buf>, parts: seq<Part>)
    requires WritesBelow(es, lo) && |bs| == |parts|
    requires forall i | 0 <= i < |parts| :: lo <= bs[i].gpa && Holds(m, bs[i], parts[i].chunks)
    ensures forall i | 0 <= i < |parts| :: Holds(Image(m, es), bs[i], parts[i].chunks)
  {
    forall i | 0 <= i < |parts| ensures Holds(Image(m, es), bs[i], parts[i].chunks) {
      PeekAbove(m, es, lo, bs[i].gpa, bs[i].len);
    }
  }

  lemma BlockBounds(s: Core, lo: int, b: Buf)
    requires PoolOk(s, lo) && b in s.hist.blocks
    ensures lo <= b.gpa && b.gpa + b.len <= s.bufAlloc
  {
    var k :| 0 <= k < |s.hist.blocks| && s.hist.blocks[k] == b;
    assert InPool(s.hist.blocks[k], lo, s.bufAlloc);
    ReservedFacts(b.gpa, b.len);
  }

  /** After a delivered submission every buffer of the request still holds its bytes. */
  lemma SubmitHolds(m0: Memory, s: Core, sub: Submission)
    requires QueuesOk(s) && sub.Valid(|s.vqs|) && PoolOk(s, BufPoolBase(|s.vqs|)) && GoesThrough(s, sub)
    ensures var (s1, bufs) := AllocAll(s, sub.parts, sub.named);
            bufs.Some? && forall i | 0 <= i < |sub.parts| ::
              Holds(Image(m0, Submit(s, sub).log), bufs.value[i], sub.parts[i].chunks)
  {
    var lo := BufPoolBase(|s.vqs|);
    AllocSucceeds(s, sub.parts, sub.named);
    AllocAllOk(s, sub.parts, sub.named, lo);
    AllocAllHolds(m0, s, sub.parts, sub.named);
    var s1, bufs, s2 := SubmitUnfolds(s, sub);
    forall i | 0 <= i < |sub.parts| ensures lo <= bufs[i].gpa {
      BlockBounds(s1, lo, bufs[i]);
    }
    var es := SubmitTail(s, sub, s1, bufs);
    ImageAppend(m0, s1.log, es);
    HoldsAbove(Image(m0, s1.log), es, lo, bufs, sub.parts);
  }

  lemma SubmitTail(s: Core, sub: Submission, s1: Core, bufs: seq<Buf>) returns (es: seq<Event>)
    requires QueuesOk(s) && sub.Valid(|s.vqs|) && HasRoom(s, sub.vq, sub.slack)
    requires AllocAll(s, sub.parts, sub.named) == (s1, Some(bufs))
    ensures Submit(s, sub).log == s1.log + es && WritesBelow(es, BufPoolBase(|s.vqs|))
  {
    SubmitLog(s, sub);
    var q := s.vqs[sub.vq];
    assert LaidOut(q, sub.vq);
    es := TailLog(q, sub.vq, |s.vqs|, ChainDescs(q, bufs[..sub.placed], sub.parts), sub, s1.log);
  }

  lemma TailLog(q: Vq, v: nat, n: nat, ds: seq<Desc>, sub: Submission, log: seq<Event>) returns (es: seq<Event>)
    requires v < n <= 8 && LaidOut(q, v) && q.size > 0 && ds != []
    ensures log + ChainLog(q, ds) + Registers([RegWrite(R_QUEUE_NOTIFY, sub.vq)] + sub.tail) == log + es
    ensures WritesBelow(es, BufPoolBase(n))
  {
    ChainLogBelow(q, v, n, ds);
    es := ChainLog(q, ds) + Registers([RegWrite(R_QUEUE_NOTIFY, sub.vq)] + sub.tail);
  }

  // The chain in the table.

  lemma {:induction false} ChainDescAt(q: Vq, bufs: seq<Buf>, parts: seq<Part>, i: nat)
    requires q.size > 0 && i < |bufs| <= |parts|
    ensures ChainDescs(q, bufs, parts)[i] ==
            DescFor(Ahead(q, i), bufs[i].gpa, bufs[i].len, parts[i].writable, i < |bufs| - 1)
    decreases |bufs|
  {
    if i == 0 {
      assert Ahead(q, 0) == q;
    } else {
      ChainDescAt(Advance(q, true), bufs[1..], parts[1..], i - 1);
      AheadStep(q, i - 1);
    }
  }

  lemma NextSlot(x: nat, size: u32)
    requires size > 0
    ensures (x % size + 1) % size == (x + 1) % size
  {
    var q, r := DivMod(x, size);
    AddMultiple(r + 1, size, q);
  }

  lemma SlotShift(p: nat, i: nat, size: u32)
    requires IsPow2(size)
    ensures (Wrap32(p) + i) % size == (p + i) % size
    ensures Wrap32(Wrap32(p) + i) % size == (p + i) % size
  {
    CounterSlot(p + i, size);
    CounterSlot(Wrap32(p) + i, size);
    var c, w := DivMod(p, TWO_32);
    AddMultiple(w + i, TWO_32, c);
  }

  function Slot(p: nat, i: nat, size: u32): nat
    requires size > 0
  {
    (p + i) % size
  }

  /** The descriptor in position `i` of a chain that starts at queue state `q`. */
  predicate DescIs(d: Desc, q: Vq, i: nat, b: Buf, writable: bool, more: bool)
    requires q.size > 0
  {
    && d.addr == b.gpa && d.len == b.len
    && (d.Writable() <==> writable) && (d.HasNext() <==> more)
    && d.next == Slot(q.nextDesc, i + 1, q.size)
  }

  lemma DescForFacts(q: Vq, i: nat, b: Buf, writable: bool, more: bool)
    requires IsPow2(q.size) && q.size <= 256
    ensures DescIs(DescFor(Ahead(q, i), b.gpa, b.len, writable, more), q, i, b, writable, more)
  {
    NextIs(q, i);
  }

  lemma NextIs(q: Vq, i: nat)
    requires IsPow2(q.size) && q.size <= 256
    ensures Wrap16(Wrap32(Ahead(q, i).nextDesc % q.size + 1) % q.size) == Slot(q.nextDesc, i + 1, q.size)
  {
    var x := q.nextDesc + i;
    CounterSlot(x, q.size);
    NextSlot(x, q.size);
    var k := x % q.size;
    SmallNext(k, q.size);
    assert Slot(q.nextDesc, i + 1, q.size) == (x + 1) % q.size;
  }

  lemma SmallNext(k: nat, size: u32)
    requires k < size <= 256
    ensures Wrap16(Wrap32(k + 1) % size) == (k + 1) % size
  {
  }

  predicate InTable(table: map<nat, Desc>, k: nat, d: Desc) {
    k in table && table[k] == d
  }

  predicate Avoids(k: nat, p: nat, n: nat, size: u32)
    requires size > 0
  {
    forall i | 0 <= i < n :: Slot(p, i, size) != k
  }

  /** The table after descriptors number `p`, `p + 1`, ... were recorded. */
  function RecordAll(table: map<nat, Desc>, p: nat, size: u32, ds: seq<Desc>): map<nat, Desc>
    requires size > 0
    decreases |ds|
  {
    if ds == [] then table else RecordAll(table[Slot(p, 0, size) := ds[0]], p + 1, size, ds[1..])
  }

  lemma {:induction false} RecordAllKeeps(table: map<nat, Desc>, p: nat, size: u32, ds: seq<Desc>, k: nat, d: Desc)
    requires size > 0 && InTable(table, k, d) && Avoids(k, p, |ds|, size)
    ensures InTable(RecordAll(table, p, size, ds), k, d)
    decreases |ds|
  {
    if ds != [] {
      assert Slot(p, 0, size) != k;
      var p1 := p + 1;
      forall i | 0 <= i < |ds| - 1 ensures Slot(p1, i, size) != k {
        assert Slot(p1, i, size) == Slot(p, i + 1, size);
      }
      RecordAllKeeps(table[Slot(p, 0, size) := ds[0]], p1, size, ds[1..], k, d);
    }
  }

  lemma {:induction false} RecordAllHas(table: map<nat, Desc>, p: nat, size: u32, ds: seq<Desc>, i: nat)
    requires size > 0 && i < |ds| <= size
    ensures InTable(RecordAll(table, p, size, ds), Slot(p, i, size), ds[i])
    decreases |ds|
  {
    var table1 := table[Slot(p, 0, size) := ds[0]];
    if i == 0 {
      var p1 := p + 1;
      forall j | 0 <= j < |ds| - 1 ensures Slot(p1, j, size) != Slot(p, 0, size) {
        DistinctSlots(p, p1 + j, size);
      }
      RecordAllKeeps(table1, p + 1, size, ds[1..], Slot(p, 0, size), ds[0]);
    } else {
      RecordAllHas(table1, p + 1, size, ds[1..], i - 1);
      assert Slot(p + 1, i - 1, size) == Slot(p, i, size);
    }
  }

  lemma {:induction false} PlaceAllTable(s: Core, v: nat, bufs: seq<Buf>, parts: seq<Part>)
    requires CanPlace(s, v) && |bufs| <= |parts|
    ensures var q, a := s.vqs[v], s.hist.queues[v];
            PlaceAll(s, v, bufs, parts).hist.queues[v].table ==
            RecordAll(a.table, |a.placed|, q.size, ChainDescs(q, bufs, parts))
    decreases |bufs|
  {
    if bufs != [] {
      var s1 := PlaceDesc(s, v, bufs[0].gpa, bufs[0].len, parts[0].writable, |bufs| > 1);
      var q, a, ds := s.vqs[v], s.hist.queues[v], ChainDescs(s.vqs[v], bufs, parts);
      if |bufs| > 1 {
        PlaceAllTable(s1, v, bufs[1..], parts[1..]);
        assert ds[1..] == ChainDescs(Advance(q, true), bufs[1..], parts[1..]);
      } else {
        assert ds[1..] == [];
      }
    }
  }

  // Following the chain.

  function Hops(x: nat, size: u32, ds: seq<Desc>): (hs: seq<Hop>)
    requires size > 0
    ensures |hs| == |ds| && forall j | 0 <= j < |ds| :: hs[j] == Hop(Slot(x, j, size), ds[j])
  {
    seq(|ds|, j requires 0 <= j < |ds| => Hop(Slot(x, j, size), ds[j]))
  }

  /** Descriptors `ds` sit in consecutive slots, each but the last linking to the next slot. */
  ghost predicate Linked(m: Memory, v: nat, x: nat, size: u32, ds: seq<Desc>)
    requires size > 0
  {
    forall j | 0 <= j < |ds| ::
      DescAt(m, v, Slot(x, j, size)) == ds[j]
      && (ds[j].HasNext() <==> j < |ds| - 1) && ds[j].next == Slot(x, j + 1, size)
  }

  lemma HopsFrom(x: nat, size: u32, ds: seq<Desc>, i: nat)
    requires size > 0 && i < |ds|
    ensures var hs := Hops(x, size, ds);
            hs[i..] == [Hop(Slot(x, i, size), ds[i])] + if i < |ds| - 1 then hs[i + 1..] else []
  {
  }

  lemma {:induction false} WalkChain(m: Memory, v: nat, x: nat, size: u32, ds: seq<Desc>, i: nat, fuel: nat)
    requires size > 0 && Linked(m, v, x, size, ds) && i < |ds| <= fuel + i
    ensures Walk(m, v, Slot(x, i, size), fuel) == Hops(x, size, ds)[i..]
    decreases fuel
  {
    WalkOn(m, v, x, size, ds, i, fuel);
    HopsFrom(x, size, ds, i);
    if i < |ds| - 1 {
      WalkChain(m, v, x, size, ds, i + 1, fuel - 1);
    }
  }

  lemma WalkOn(m: Memory, v: nat, x: nat, size: u32, ds: seq<Desc>, i: nat, fuel: nat)
    requires size > 0 && Linked(m, v, x, size, ds) && i < |ds| && fuel > 0
    ensures Walk(m, v, Slot(x, i, size), fuel) ==
            [Hop(Slot(x, i, size), ds[i])]
            + if i < |ds| - 1 then Walk(m, v, Slot(x, i + 1, size), fuel - 1) else []
  {
    LinkedAt(m, v, x, size, ds, i);
    WalkStep(m, v, Slot(x, i, size), ds[i], fuel);
  }

  lemma LinkedAt(m: Memory, v: nat, x: nat, size: u32, ds: seq<Desc>, i: nat)
    requires size > 0 && Linked(m, v, x, size, ds) && i < |ds|
    ensures DescAt(m, v, Slot(x, i, size)) == ds[i]
    ensures (ds[i].HasNext() <==> i < |ds| - 1) && ds[i].next == Slot(x, i + 1, size)
  {
  }

  lemma WalkStep(m: Memory, v: nat, slot: nat, d: Desc, fuel: nat)
    requires fuel > 0 && DescAt(m, v, slot) == d
    ensures Walk(m, v, slot, fuel) == [Hop(slot, d)] + if d.HasNext() then Walk(m, v, d.next, fuel - 1) else []
  {
  }

  lemma LinkFacts(q: Vq, bufs: seq<Buf>, parts: seq<Part>, j: nat)
    requires IsPow2(q.size) && q.size <= 256 && j < |bufs| <= |parts|
    ensures DescIs(ChainDescs(q, bufs, parts)[j], q, j, bufs[j], parts[j].writable, j < |bufs| - 1)
  {
    ChainDescAt(q, bufs, parts, j);
    DescForFacts(q, j, bufs[j], parts[j].writable, j < |bufs| - 1);
  }

  lemma CountersAgree(m0: Memory, s: Core, v: nat, j: nat)
    requires QueuesOk(s) && CanPlace(s, v) && Refines(m0, s)
    ensures Slot(s.vqs[v].nextDesc, j, s.vqs[v].size) == Slot(|s.hist.queues[v].placed|, j, s.vqs[v].size)
  {
    assert LaidOut(s.vqs[v], v);
    assert QueueRefines(Image(m0, s.log), v, s.vqs[v], s.hist.queues[v]);
    SlotShift(|s.hist.queues[v].placed|, j, s.vqs[v].size);
  }

  /** The chain's descriptors, as a delivered submission computes them. */
  function RequestDescs(s: Core, sub: Submission): (ds: seq<Desc>)
    requires Shaped(s) && sub.Valid(|s.vqs|) && HasRoom(s, sub.vq, sub.slack)
    requires AllocAll(s, sub.parts, sub.named).1.Some?
    ensures |ds| == sub.placed
  {
    ChainDescs(s.vqs[sub.vq], AllocAll(s, sub.parts, sub.named).1.value[..sub.placed], sub.parts)
  }

  lemma SubmitRecords(m0: Memory, s: Core, sub: Submission)
    requires QueuesOk(s) && sub.Valid(|s.vqs|) && HasRoom(s, sub.vq, sub.slack) && Refines(m0, s)
    requires PoolOk(s, BufPoolBase(|s.vqs|)) && AllocAll(s, sub.parts, sub.named).1.Some?
    ensures var a := s.hist.queues[sub.vq];
            TableOk(Image(m0, Submit(s, sub).log), sub.vq,
                    RecordAll(a.table, |a.placed|, s.vqs[sub.vq].size, RequestDescs(s, sub)))
  {
    SubmitRefines(m0, s, sub);
    var s1, bufs, s2 := SubmitUnfolds(s, sub);
    PlaceAllTable(s1, sub.vq, bufs[..sub.placed], sub.parts);
    var r := Submit(s, sub);
    assert QueueRefines(Image(m0, r.log), sub.vq, r.vqs[sub.vq], r.hist.queues[sub.vq]);
  }

  lemma TableSlot(m: Memory, v: nat, table: map<nat, Desc>, k: nat, d: Desc)
    requires TableOk(m, v, table) && InTable(table, k, d)
    ensures DescAt(m, v, k) == d
  {
  }

  lemma RecordedSlot(table: map<nat, Desc>, p: nat, size: u32, ds: seq<Desc>, j: nat)
    requires 0 < size && j < |ds| && (|ds| <= size || j == |ds| - 1)
    ensures InTable(RecordAll(table, p, size, ds), Slot(p, j, size), ds[j])
  {
    if j == |ds| - 1 {
      RecordAllLast(table, p, size, ds);
    } else {
      RecordAllHas(table, p, size, ds, j);
    }
  }

  /** Memory holds descriptor `j` of a chain in its slot. */
  ghost predicate InPlace(m: Memory, v: nat, x: nat, size: u32, ds: seq<Desc>, j: nat) {
    size > 0 && j < |ds| && DescAt(m, v, Slot(x, j, size)) == ds[j]
  }

  lemma SubmitSlot(m0: Memory, s: Core, sub: Submission, j: nat)
    requires QueuesOk(s) && sub.Valid(|s.vqs|) && HasRoom(s, sub.vq, sub.slack) && Refines(m0, s)
    requires PoolOk(s, BufPoolBase(|s.vqs|)) && AllocAll(s, sub.parts, sub.named).1.Some?
    requires j < sub.placed && (sub.placed <= s.vqs[sub.vq].size || j == sub.placed - 1)
    ensures var q := s.vqs[sub.vq];
            InPlace(Image(m0, Submit(s, sub).log), sub.vq, q.nextDesc, q.size, RequestDescs(s, sub), j)
  {
    var a, size, ds := s.hist.queues[sub.vq], s.vqs[sub.vq].size, RequestDescs(s, sub);
    SubmitRecords(m0, s, sub);
    RecordedSlot(a.table, |a.placed|, size, ds, j);
    TableSlot(Image(m0, Submit(s, sub).log), sub.vq, RecordAll(a.table, |a.placed|, size, ds),
              Slot(|a.placed|, j, size), ds[j]);
    CountersAgree(m0, s, sub.vq, j);
  }

  lemma {:induction false} RecordAllLast(table: map<nat, Desc>, p: nat, size: u32, ds: seq<Desc>)
    requires size > 0 && ds != []
    ensures InTable(RecordAll(table, p, size, ds), Slot(p, |ds| - 1, size), ds[|ds| - 1])
    decreases |ds|
  {
    if |ds| > 1 {
      RecordAllLast(table[Slot(p, 0, size) := ds[0]], p + 1, size, ds[1..]);
      assert Slot(p + 1, |ds| - 2, size) == Slot(p, |ds| - 1, size);
    } else {
      assert ds[1..] == [];
    }
  }

  predicate Increasing(bs: seq<Buf>, lo: nat) {
    && (forall i | 0 <= i < |bs| :: lo <= bs[i].gpa)
    && (forall i, j | 0 <= i < j < |bs| :: bs[i].gpa < bs[j].gpa)
  }

  lemma {:induction false} BuffersIncrease(s: Core, parts: seq<Part>, named: bool)
    requires s.bufAlloc % 16 == 0
    ensures var bs := AllocAll(s, parts, named).1; bs.Some? ==> Increasing(bs.value, s.bufAlloc)
    decreases |parts|
  {
    if parts != [] {
      var (s1, b) := AllocPart(s, parts[0].chunks, named);
      if b.Some? {
        ReservedFacts(s.bufAlloc, TotalLength(parts[0].chunks));
        BuffersIncrease(s1, parts[1..], named);
        var bs := AllocAll(s1, parts[1..], named).1;
        if bs.Some? {
          assert Increasing(bs.value, s1.bufAlloc);
          assert Increasing([b.value] + bs.value, s.bufAlloc);
        }
      }
    }
  }

  lemma ChainLinked(m0: Memory, s: Core, sub: Submission)
    requires QueuesOk(s) && sub.Valid(|s.vqs|) && HasRoom(s, sub.vq, sub.slack) && Refines(m0, s)
    requires PoolOk(s, BufPoolBase(|s.vqs|)) && AllocAll(s, sub.parts, sub.named).1.Some?
    requires sub.placed <= s.vqs[sub.vq].size
    ensures var q := s.vqs[sub.vq];
            Linked(Image(m0, Submit(s, sub).log), sub.vq, q.nextDesc, q.size, RequestDescs(s, sub))
  {
    var q, bufs, n := s.vqs[sub.vq], AllocAll(s, sub.parts, sub.named).1.value, sub.placed;
    var m, ds := Image(m0, Submit(s, sub).log), RequestDescs(s, sub);
    forall j | 0 <= j < n
      ensures DescAt(m, sub.vq, Slot(q.nextDesc, j, q.size)) == ds[j]
      ensures (ds[j].HasNext() <==> j < |ds| - 1) && ds[j].next == Slot(q.nextDesc, j + 1, q.size)
    {
      SubmitSlot(m0, s, sub, j);
      assert LaidOut(q, sub.vq);
      LinkFacts(q, bufs[..n], sub.parts, j);
    }
  }

  lemma {:induction false} ChainAddrAt(q: Vq, bufs: seq<Buf>, parts: seq<Part>, j: nat)
    requires q.size > 0 && j < |bufs| <= |parts|
    ensures ChainDescs(q, bufs, parts)[j].addr == bufs[j].gpa
    decreases |bufs|
  {
    if j > 0 {
      ChainAddrAt(Advance(q, true), bufs[1..], parts[1..], j - 1);
    }
  }

  lemma RequestAddrsIncrease(s: Core, sub: Submission)
    requires Shaped(s) && sub.Valid(|s.vqs|) && HasRoom(s, sub.vq, sub.slack) && s.bufAlloc % 16 == 0
    requires AllocAll(s, sub.parts, sub.named).1.Some?
    ensures AddrsIncrease(RequestDescs(s, sub))
  {
    var q, bufs, ds := s.vqs[sub.vq], AllocAll(s, sub.parts, sub.named).1.value, RequestDescs(s, sub);
    BuffersIncrease(s, sub.parts, sub.named);
    forall i, j | 0 <= i < j < |ds| ensures ds[i].addr < ds[j].addr {
      ChainAddrAt(q, bufs[..sub.placed], sub.parts, i);
      ChainAddrAt(q, bufs[..sub.placed], sub.parts, j);
      assert bufs[i].gpa < bufs[j].gpa;
    }
  }

  ghost predicate AddrsIncrease(ds: seq<Desc>) {
    forall i, j | 0 <= i < j < |ds| :: ds[i].addr < ds[j].addr
  }

  lemma LappedTwice(m: Memory, v: nat, x: nat, size: u32, ds: seq<Desc>, last: nat)
    requires 0 < size <= last && InPlace(m, v, x, size, ds, last) && AddrsIncrease(ds)
    ensures !Linked(m, v, x, size, ds)
  {
    SameSlot(x, last - size, size);
    assert ds[last - size].addr < ds[last].addr;
    NotLinked(m, v, x, size, ds, last - size);
  }

  lemma NotLinked(m: Memory, v: nat, x: nat, size: u32, ds: seq<Desc>, j: nat)
    requires size > 0 && j < |ds| && DescAt(m, v, Slot(x, j, size)) != ds[j]
    ensures !Linked(m, v, x, size, ds)
  {
  }

  lemma ChainLapped(m0: Memory, s: Core, sub: Submission, last: nat)
    requires QueuesOk(s) && sub.Valid(|s.vqs|) && HasRoom(s, sub.vq, sub.slack) && Refines(m0, s)
    requires PoolOk(s, BufPoolBase(|s.vqs|)) && AllocAll(s, sub.parts, sub.named).1.Some?
    requires last == sub.placed - 1 >= s.vqs[sub.vq].size
    ensures var q := s.vqs[sub.vq];
            !Linked(Image(m0, Submit(s, sub).log), sub.vq, q.nextDesc, q.size, RequestDescs(s, sub))
  {
    var q := s.vqs[sub.vq];
    SubmitSlot(m0, s, sub, last);
    RequestAddrsIncrease(s, sub);
    LappedTwice(Image(m0, Submit(s, sub).log), sub.vq, q.nextDesc, q.size, RequestDescs(s, sub), last);
  }

  /** The chain can be followed exactly when it does not lap itself. The guard of the submission
      ensures that, unless the 32-bit descriptor counter wraps in the guard's own sum. */
  lemma LinkedIff(m0: Memory, s: Core, sub: Submission)
    requires QueuesOk(s) && sub.Valid(|s.vqs|) && GoesThrough(s, sub) && Refines(m0, s)
    requires PoolOk(s, BufPoolBase(|s.vqs|)) && AllocAll(s, sub.parts, sub.named).1.Some?
    ensures var q := s.vqs[sub.vq];
            Linked(Image(m0, Submit(s, sub).log), sub.vq, q.nextDesc, q.size, RequestDescs(s, sub))
            <==> sub.placed <= q.size
  {
    if sub.placed <= s.vqs[sub.vq].size {
      ChainLinked(m0, s, sub);
    } else {
      ChainLapped(m0, s, sub, sub.placed - 1);
    }
  }

  lemma SameSlot(x: nat, j: nat, size: u32)
    requires size > 0
    ensures Slot(x, j, size) == Slot(x, j + size, size)
  {
    AddMultiple(x + j, size, 1);
  }

  lemma NoLapWithoutWrap(s: Core, sub: Submission)
    requires sub.Valid(|s.vqs|) && HasRoom(s, sub.vq, sub.slack) && s.vqs[sub.vq].nextDesc + sub.slack < TWO_32
    ensures sub.placed <= s.vqs[sub.vq].size
  {
  }

  ghost predicate SeesPart(m: Memory, d: Desc, p: Part) {
    && (d.Writable() <==> p.writable)
    && d.len == TotalLength(p.chunks) && Peek(m, d.addr, d.len) == Flatten(p.chunks)
  }

  /** A writable buffer of `n` zeros. */
  predicate Cleared(m: Memory, d: Desc, n: nat) {
    d.Writable() && d.len == n && Peek(m, d.addr, d.len) == Zeros(n)
  }

  /** What a device sees: `hops` are the request's placed parts, in order, each with its own bytes
      and direction. */
  ghost predicate Sees(m: Memory, hops: seq<Hop>, sub: Submission)
    requires sub.placed <= |sub.parts|
  {
    |hops| == sub.placed && forall i | 0 <= i < sub.placed :: SeesPart(m, hops[i].desc, sub.parts[i])
  }

  /** Following NEXT from the chain's first slot visits exactly the request, in order, in
      consecutive slots. */
  lemma ChainShape(m0: Memory, s: Core, sub: Submission, fuel: nat)
    requires QueuesOk(s) && sub.Valid(|s.vqs|) && GoesThrough(s, sub) && Refines(m0, s)
    requires PoolOk(s, BufPoolBase(|s.vqs|)) && sub.placed <= s.vqs[sub.vq].size && sub.placed <= fuel
    ensures var m, q := Image(m0, Submit(s, sub).log), s.vqs[sub.vq];
            var hops := Walk(m, sub.vq, q.nextDesc % q.size, fuel);
            Sees(m, hops, sub) && forall i | 0 <= i < sub.placed :: hops[i].slot == Slot(q.nextDesc, i, q.size)
  {
    AllocSucceeds(s, sub.parts, sub.named);
    ChainLinked(m0, s, sub);
    SubmitHolds(m0, s, sub);
    var q, ds := s.vqs[sub.vq], RequestDescs(s, sub);
    var m := Image(m0, Submit(s, sub).log);
    WholeWalk(m, sub.vq, q.nextDesc, q.size, ds, fuel);
    HopsSeen(m, s, sub);
  }

  lemma WholeWalk(m: Memory, v: nat, x: nat, size: u32, ds: seq<Desc>, fuel: nat)
    requires size > 0 && Linked(m, v, x, size, ds) && 0 < |ds| <= fuel
    ensures Walk(m, v, x % size, fuel) == Hops(x, size, ds)
  {
    WalkChain(m, v, x, size, ds, 0, fuel);
    assert Hops(x, size, ds)[0..] == Hops(x, size, ds) && Slot(x, 0, size) == x % size;
  }

  lemma HopsSeen(m: Memory, s: Core, sub: Submission)
    requires QueuesOk(s) && sub.Valid(|s.vqs|) && HasRoom(s, sub.vq, sub.slack)
    requires AllocAll(s, sub.parts, sub.named).1.Some?
    requires forall i | 0 <= i < |sub.parts| ::
               Holds(m, AllocAll(s, sub.parts, sub.named).1.value[i], sub.parts[i].chunks)
    ensures Sees(m, Hops(s.vqs[sub.vq].nextDesc, s.vqs[sub.vq].size, RequestDescs(s, sub)), sub)
  {
    forall i | 0 <= i < sub.placed ensures SeesPart(m, RequestDescs(s, sub)[i], sub.parts[i]) {
      HopSeen(m, s, sub, i);
    }
  }

  lemma HopSeen(m: Memory, s: Core, sub: Submission, i: nat)
    requires QueuesOk(s) && sub.Valid(|s.vqs|) && HasRoom(s, sub.vq, sub.slack) && i < sub.placed
    requires AllocAll(s, sub.parts, sub.named).1.Some?
    requires Holds(m, AllocAll(s, sub.parts, sub.named).1.value[i], sub.parts[i].chunks)
    ensures SeesPart(m, RequestDescs(s, sub)[i], sub.parts[i])
  {
    var q, bufs := s.vqs[sub.vq], AllocAll(s, sub.parts, sub.named).1.value;
    assert LaidOut(q, sub.vq);
    LinkFacts(q, bufs[..sub.placed], sub.parts, i);
  }

  lemma IndexWraps(p: nat, n: nat)
    requires n > 0
    ensures Wrap16(Wrap32(p) + n - 1) == Wrap16(p + n - 1)
  {
    var c, w := DivMod(p, TWO_32);
    AddMultiple(w + n - 1, TWO_16, TWO_16 * c);
  }

  lemma IndexMoves(x: u32, n: nat)
    requires 0 < n < TWO_16
    ensures Wrap16(x + n - 1) == Wrap16(x) <==> n == 1
  {
  }

  /** The ring entry names the chain's last slot, and `avail.idx` has moved by one. */
  ghost predicate Published(m: Memory, q: Vq, sub: Submission)
    requires q.size > 0 && 0 < sub.placed
  {
    var published := RingAt(m, sub.vq, q.nextAvail % q.size);
    && published == Wrap16(q.nextDesc + sub.placed - 1)
    && published % q.size == Slot(q.nextDesc, sub.placed - 1, q.size)
    && (published == Wrap16(q.nextDesc) <==> sub.placed == 1)
    && IdxAt(m, sub.vq) == Wrap16(q.nextAvail + 1)
  }

  /** The ring entry written is the index of the chain's last descriptor: it names the last slot of
      the walk, and equals the index of the first one only for a chain of one descriptor. */
  lemma PublishedIndex(m0: Memory, s: Core, sub: Submission)
    requires QueuesOk(s) && sub.Valid(|s.vqs|) && GoesThrough(s, sub) && Refines(m0, s)
    requires PoolOk(s, BufPoolBase(|s.vqs|))
    ensures Published(Image(m0, Submit(s, sub).log), s.vqs[sub.vq], sub)
  {
    AllocSucceeds(s, sub.parts, sub.named);
    SubmitRefines(m0, s, sub);
    SubmitGrown(s, sub);
    var r := Submit(s, sub);
    PublishedFrom(m0, s, sub, Image(m0, r.log), r.vqs[sub.vq], r.hist.queues[sub.vq]);
  }

  /** The history of the queue has grown by exactly the request's chain. */
  lemma SubmitGrown(s: Core, sub: Submission)
    requires Shaped(s) && sub.Valid(|s.vqs|) && HasRoom(s, sub.vq, sub.slack)
    requires AllocAll(s, sub.parts, sub.named).1.Some?
    ensures Grown(s.hist.queues[sub.vq], Submit(s, sub).hist.queues[sub.vq], RequestDescs(s, sub), s.vqs[sub.vq].size)
  {
    var s1, bufs, s2 := SubmitUnfolds(s, sub);
    PlaceAllHistory(s1, sub.vq, bufs[..sub.placed], sub.parts);
  }

  lemma PublishedFrom(m0: Memory, s: Core, sub: Submission, m: Memory, q: Vq, r: AbstractQueue)
    requires QueuesOk(s) && sub.Valid(|s.vqs|) && HasRoom(s, sub.vq, sub.slack) && Refines(m0, s)
    requires AllocAll(s, sub.parts, sub.named).1.Some?
    requires Grown(s.hist.queues[sub.vq], r, RequestDescs(s, sub), s.vqs[sub.vq].size)
    requires QueueRefines(m, sub.vq, q, r)
    ensures Published(m, s.vqs[sub.vq], sub)
  {
    assert LaidOut(s.vqs[sub.vq], sub.vq);
    assert QueueRefines(Image(m0, s.log), sub.vq, s.vqs[sub.vq], s.hist.queues[sub.vq]);
    PublishedBytes(m, s.vqs[sub.vq], s.hist.queues[sub.vq], r, RequestDescs(s, sub), sub);
  }

  lemma PublishedNumbers(q: Vq, placed: nat, pubs: nat, n: nat)
    requires 0 < n <= 5 && IsPow2(q.size) && q.size <= 256
    requires q.nextDesc == Wrap32(placed) && q.nextAvail == Wrap32(pubs)
    ensures pubs % q.size == q.nextAvail % q.size && Wrap16(pubs + 1) == Wrap16(q.nextAvail + 1)
    ensures var published := Wrap16(placed + n - 1);
            && published == Wrap16(q.nextDesc + n - 1)
            && published % q.size == Slot(q.nextDesc, n - 1, q.size)
            && (published == Wrap16(q.nextDesc) <==> n == 1)
  {
    RingNumbers(q, pubs);
    IndexWraps(placed, n);
    IndexMoves(q.nextDesc, n);
    SlotOfIndex(q.nextDesc, n, q.size);
  }

  lemma SlotOfIndex(x: u32, n: nat, size: u32)
    requires n > 0 && IsPow2(size) && size <= 256
    ensures Wrap16(x + n - 1) % size == Slot(x, n - 1, size)
  {
    Powers();
    ModOfMod(x + n - 1, size, TWO_16);
  }

  lemma RingNumbers(q: Vq, pubs: nat)
    requires IsPow2(q.size) && q.size <= 256 && q.nextAvail == Wrap32(pubs)
    ensures pubs % q.size == q.nextAvail % q.size && Wrap16(pubs + 1) == Wrap16(q.nextAvail + 1)
  {
    IndexWraps(pubs, 2);
    CounterSlot(pubs, q.size);
  }

  lemma PublishedBytes(m: Memory, q: Vq, a: AbstractQueue, r: AbstractQueue, ds: seq<Desc>, sub: Submission)
    requires IsPow2(q.size) && q.size <= 256 && CountersOk(q, a) && 0 < |ds| == sub.placed <= 5
    requires Grown(a, r, ds, q.size) && QueueBytes(m, sub.vq, r)
    ensures Published(m, q, sub)
  {
    PublishedNumbers(q, |a.placed|, |a.pubs|, sub.placed);
    RingLast(m, sub.vq, a, r, q.size, Wrap16(|a.placed| + |ds| - 1));
  }

  lemma RingLast(m: Memory, v: nat, a: AbstractQueue, r: AbstractQueue, size: u32, index: u16)
    requires size > 0 && QueueBytes(m, v, r) && |r.pubs| == |a.pubs| + 1
    requires r.ring == a.ring[|a.pubs| % size := index]
    ensures RingAt(m, v, |a.pubs| % size) == index && IdxAt(m, v) == Wrap16(|a.pubs| + 1)
  {
    assert |a.pubs| % size in r.ring;
  }

  /** No device-readable descriptor after a device-writable one. */
  predicate ReadableHopsFirst(hops: seq<Hop>) {
    forall i, j | 0 <= i < j < |hops| :: hops[i].desc.Writable() ==> hops[j].desc.Writable()
  }

  lemma SeenInOrder(m: Memory, hops: seq<Hop>, sub: Submission)
    requires sub.placed <= |sub.parts| && Sees(m, hops, sub) && ReadableFirst(sub.parts)
    ensures ReadableHopsFirst(hops)
  {
    forall i, j | 0 <= i < j < |hops| && hops[i].desc.Writable() ensures hops[j].desc.Writable() {
      assert SeesPart(m, hops[i].desc, sub.parts[i]) && SeesPart(m, hops[j].desc, sub.parts[j]);
    }
  }

  /** The chain placed from queue state `q` is what a device reads in `m`. */
  ghost predicate Readable(m: Memory, q: Vq, sub: Submission)
    requires q.size > 0 && 0 < sub.placed <= |sub.parts|
  {
    var hops := Walk(m, sub.vq, q.nextDesc % q.size, 256);
    && Sees(m, hops, sub) && ReadableHopsFirst(hops)
    && hops[sub.placed - 1].slot == Slot(q.nextDesc, sub.placed - 1, q.size)
  }

  lemma ReadableAt(m0: Memory, r: Core, sub: Submission)
    requires QueuesOk(r) && sub.Valid(|r.vqs|) && GoesThrough(r, sub) && Refines(m0, r)
    requires PoolOk(r, BufPoolBase(|r.vqs|)) && sub.placed <= r.vqs[sub.vq].size && ReadableFirst(sub.parts)
    ensures Readable(Image(m0, Submit(r, sub).log), r.vqs[sub.vq], sub)
  {
    ChainShape(m0, r, sub, 256);
    var m, q := Image(m0, Submit(r, sub).log), r.vqs[sub.vq];
    SeenInOrder(m, Walk(m, sub.vq, q.nextDesc % q.size, 256), sub);
  }

  /** After `n` actions the chain of `sub` cannot lap itself: no counter is anywhere near its wrap, or
      the queue has a slot for every descriptor. */
  predicate Followable(r: Core, n: nat, sub: Submission)
    requires sub.vq < |r.vqs|
  {
    Short(n) || sub.placed <= r.vqs[sub.vq].size
  }

  /** What the device finds after a submission in any reachable state: from the slot the driver was
      about to use, the chain is exactly the request, with its bytes, readable part first; the ring
      entry names the chain's last slot (so equals its first index only for a chain of one), and
      `avail.idx` has moved by one. */
  lemma DeviceView(m0: Memory, s: Core, acts: seq<Action>, sub: Submission)
    requires Shaped(s) && ValidActions(|s.vqs|, acts) && SmallDeviceRun(acts) && sub.Valid(|s.vqs|)
    requires var r := Run(Reset(s), acts);
             GoesThrough(r, sub) && ReadableFirst(sub.parts) && Followable(r, |acts|, sub)
    ensures var r := Run(Reset(s), acts);
            var m := Image(m0, Submit(r, sub).log);
            Readable(m, r.vqs[sub.vq], sub) && Published(m, r.vqs[sub.vq], sub)
  {
    ReachableRefines(m0, s, acts);
    if Short(|acts|) {
      ShortRunsFit(s, acts, sub);
    }
    DeviceViewAt(m0, Run(Reset(s), acts), sub);
  }

  lemma DeviceViewAt(m0: Memory, r: Core, sub: Submission)
    requires QueuesOk(r) && sub.Valid(|r.vqs|) && GoesThrough(r, sub) && Refines(m0, r)
    requires PoolOk(r, BufPoolBase(|r.vqs|)) && sub.placed <= r.vqs[sub.vq].size && ReadableFirst(sub.parts)
    ensures var m := Image(m0, Submit(r, sub).log);
            Readable(m, r.vqs[sub.vq], sub) && Published(m, r.vqs[sub.vq], sub)
  {
    ReadableAt(m0, r, sub);
    PublishedIndex(m0, r, sub);
  }

  // Buffers that are already there.

  /** A submission, delivered or not, leaves the bytes of every earlier buffer alone. */
  lemma SubmitKeepsBuffers(m0: Memory, s: Core, sub: Submission, b: Buf)
    requires QueuesOk(s) && sub.Valid(|s.vqs|) && PoolOk(s, BufPoolBase(|s.vqs|)) && b in s.hist.blocks
    ensures Peek(Image(m0, Submit(s, sub).log), b.gpa, b.len) == Peek(Image(m0, s.log), b.gpa, b.len)
  {
    if HasRoom(s, sub.vq, sub.slack) {
      var lo := BufPoolBase(|s.vqs|);
      BlockBounds(s, lo, b);
      var es := AllocAllAbove(s, sub.parts, sub.named);
      var (s1, bs) := AllocAll(s, sub.parts, sub.named);
      ImageAppend(m0, s.log, es);
      PeekBelow(Image(m0, s.log), es, s.bufAlloc, b.gpa, b.len);
      if bs.Some? {
        var more := SubmitTail(s, sub, s1, bs.value);
        ImageAppend(m0, s1.log, more);
        PeekAbove(Image(m0, s1.log), more, lo, b.gpa, b.len);
      }
    }
  }

  // Single descriptors.

  lemma PlacedBytes(m0: Memory, s: Core, v: nat, addr: u64, len: u32, writable: bool, more: bool)
    requires QueuesOk(s) && CanPlace(s, v) && Refines(m0, s)
    ensures var q := s.vqs[v];
            QueueBytes(Image(m0, PlaceDesc(s, v, addr, len, writable, more).log), v,
                       Record(s.hist.queues[v], DescFor(q, addr, len, writable, more), q.size, more))
  {
    var r := PlaceDesc(s, v, addr, len, writable, more);
    PlaceDescRefines(m0, s, v, addr, len, writable, more);
    assert QueueRefines(Image(m0, r.log), v, r.vqs[v], r.hist.queues[v]);
  }

  lemma RecordedDesc(m: Memory, v: nat, a: AbstractQueue, d: Desc, size: u32, more: bool)
    requires size > 0 && QueueBytes(m, v, Record(a, d, size, more))
    ensures DescAt(m, v, |a.placed| % size) == d
  {
    TableSlot(m, v, Record(a, d, size, more).table, |a.placed| % size, d);
  }

  lemma RecordedIndex(m: Memory, v: nat, a: AbstractQueue, d: Desc, size: u32)
    requires size > 0 && QueueBytes(m, v, Record(a, d, size, false))
    ensures RingAt(m, v, |a.pubs| % size) == Wrap16(|a.placed|) && IdxAt(m, v) == Wrap16(|a.pubs| + 1)
  {
    var b := Record(a, d, size, false);
    assert |a.pubs| % size in b.ring && b.ring[|a.pubs| % size] == Wrap16(|a.placed|);
  }

  /** The ring entry is the index of the descriptor just placed, and `avail.idx` has moved by one. */
  ghost predicate Offered(m: Memory, v: nat, q: Vq)
    requires q.size > 0
  {
    RingAt(m, v, q.nextAvail % q.size) == Wrap16(q.nextDesc) && IdxAt(m, v) == Wrap16(q.nextAvail + 1)
  }

  lemma SeenAt(m: Memory, v: nat, q: Vq, a: AbstractQueue, d: Desc, more: bool)
    requires IsPow2(q.size) && q.size <= 256 && CountersOk(q, a) && QueueBytes(m, v, Record(a, d, q.size, more))
    ensures DescAt(m, v, q.nextDesc % q.size) == d && (!more ==> Offered(m, v, q))
  {
    RecordedDesc(m, v, a, d, q.size, more);
    CounterSlot(|a.placed|, q.size);
    if !more {
      OfferedAt(m, v, q, a, d);
    }
  }

  lemma OfferedAt(m: Memory, v: nat, q: Vq, a: AbstractQueue, d: Desc)
    requires IsPow2(q.size) && q.size <= 256 && CountersOk(q, a) && QueueBytes(m, v, Record(a, d, q.size, false))
    ensures Offered(m, v, q)
  {
    RingNumbers(q, |a.pubs|);
    IndexWraps(|a.placed|, 1);
    RecordedIndex(m, v, a, d, q.size);
  }

  lemma PlacedDescSeen(m0: Memory, s: Core, v: nat, addr: u64, len: u32, writable: bool, more: bool)
    requires QueuesOk(s) && CanPlace(s, v) && Refines(m0, s)
    ensures var q, m := s.vqs[v], Image(m0, PlaceDesc(s, v, addr, len, writable, more).log);
            && DescAt(m, v, q.nextDesc % q.size) == DescFor(q, addr, len, writable, more)
            && (!more ==> Offered(m, v, q))
  {
    var q, a := s.vqs[v], s.hist.queues[v];
    assert LaidOut(q, v) && QueueRefines(Image(m0, s.log), v, q, a);
    PlacedBytes(m0, s, v, addr, len, writable, more);
    var d := DescFor(q, addr, len, writable, more);
    SeenAt(Image(m0, PlaceDesc(s, v, addr, len, writable, more).log), v, q, a, d, more);
  }

  lemma NamedDesc(m: Memory, v: nat, q: Vq, b: Buf, writable: bool, more: bool)
    requires IsPow2(q.size) && q.size <= 256
    requires DescAt(m, v, q.nextDesc % q.size) == DescFor(q, b.gpa, b.len, writable, more)
    ensures DescIs(DescAt(m, v, q.nextDesc % q.size), q, 0, b, writable, more)
  {
    DescForFacts(q, 0, b, writable, more);
    assert Ahead(q, 0) == q;
  }

  /** The extent a VqAddDesc of a mapped buffer asks for. */
  function Asked(s: Core, floor: u32, id: u32, len: u32): Buf
    requires floor <= 1 && id in s.bufs
  {
    Buf(s.bufs[id].gpa, Max(Min(len, s.bufs[id].len), floor))
  }

  lemma AddDescSeenAt(m0: Memory, r: Core, floor: u32, v: u32, id: u32, len: u32, writable: bool, more: bool)
    requires QueuesOk(r) && Refines(m0, r) && floor <= 1 && v < |r.vqs| && r.vqs[v].size != 0 && id in r.bufs
    ensures var q, m := r.vqs[v], Image(m0, AddDesc(r, floor, v, id, len, writable, more, 0).log);
            && DescIs(DescAt(m, v, q.nextDesc % q.size), q, 0, Asked(r, floor, id, len), writable, more)
            && (!more ==> Offered(m, v, q))
  {
    var b := Asked(r, floor, id, len);
    assert LaidOut(r.vqs[v], v);
    AddDescPlaces(r, floor, v, id, len, writable, more);
    PlacedDescSeen(m0, r, v, b.gpa, b.len, writable, more);
    NamedDesc(Image(m0, PlaceDesc(r, v, b.gpa, b.len, writable, more).log), v, r.vqs[v], b, writable, more);
  }

  lemma AddDescPlaces(r: Core, floor: u32, v: u32, id: u32, len: u32, writable: bool, more: bool)
    requires Shaped(r) && floor <= 1 && v < |r.vqs| && r.vqs[v].size != 0 && id in r.bufs
    ensures var b := Asked(r, floor, id, len);
            AddDesc(r, floor, v, id, len, writable, more, 0) == PlaceDesc(r, v, b.gpa, b.len, writable, more)
  {
  }

  /** After a VqAddDesc of a buffer in any reachable state, the next slot decodes to a descriptor of
      that buffer: its address, the asked length cut to the buffer's (and raised to the harness's
      least length), the direction asked for and a link to the following slot; and when the chain
      ends, the ring entry is the index of this descriptor and `avail.idx` has moved by one. */
  lemma AddDescSeen(
    m0: Memory, s: Core, acts: seq<Action>, floor: u32, v: u32, id: u32, len: u32, writable: bool, more: bool)
    requires Shaped(s) && ValidActions(|s.vqs|, acts) && SmallDeviceRun(acts) && floor <= 1 && v < |s.vqs|
    requires var r := Run(Reset(s), acts); r.vqs[v].size != 0 && id in r.bufs
    ensures var r := Run(Reset(s), acts);
            var q, m := r.vqs[v], Image(m0, AddDesc(r, floor, v, id, len, writable, more, 0).log);
            && DescIs(DescAt(m, v, q.nextDesc % q.size), q, 0, Asked(r, floor, id, len), writable, more)
            && (!more ==> Offered(m, v, q))
  {
    ReachableRefines(m0, s, acts);
    AddDescSeenAt(m0, Run(Reset(s), acts), floor, v, id, len, writable, more);
  }
}
