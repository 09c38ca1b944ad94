/** Typed submissions: all or nothing, and what the device finds when it follows the chain. */
module SubmissionTheorems {
  import opened Bytes
  import opened Guest
  import opened Virtqueue
  import opened Pool
  import opened Wrappers

  // What placing a chain does.

  /** The descriptors of a chain placed on queue `q`. */
  function ChainDescs(q: Vq, bufs: seq<Buf>, parts: seq<Part>): (ds: seq<Desc>)
    requires q.size > 0 && |bufs| <= |parts|
    ensures |ds| == |bufs|
    decreases |bufs|
  {
    if bufs == [] then []
    else [DescFor(q, bufs[0].gpa, bufs[0].len, parts[0].writable, |bufs| > 1)]
         + ChainDescs(Advance(q, true), bufs[1..], parts[1..])
  }

  function DescEvents(q: Vq, ds: seq<Desc>): seq<Event>
    requires q.size > 0
    decreases |ds|
  {
    if ds == [] then [] else [DescEvent(q, ds[0])] + DescEvents(Advance(q, true), ds[1..])
  }

  function Ahead(q: Vq, n: nat): Vq {
    q.(nextDesc := Wrap32(q.nextDesc + n))
  }

  /** The queue after a chain of `n` descriptors was placed and published. */
  function AfterChain(q: Vq, n: nat): Vq {
    q.(nextDesc := Wrap32(q.nextDesc + n), nextAvail := Wrap32(q.nextAvail + 1))
  }

  /** All the descriptors, then one ring entry, then one bump of `avail.idx`. */
  function ChainLog(q: Vq, ds: seq<Desc>): seq<Event>
    requires q.size > 0 && ds != []
  {
    DescEvents(q, ds) + [RingEvent(Ahead(q, |ds| - 1)), IndexEvent(q)]
  }

  function Placements(ds: seq<Desc>, size: u32): (ps: seq<Placement>)
    ensures |ps| == |ds| && forall i | 0 <= i < |ds| :: ps[i] == Placement(ds[i], size)
  {
    seq(|ds|, i requires 0 <= i < |ds| => Placement(ds[i], size))
  }

  lemma AheadStep(q: Vq, n: nat)
    ensures Ahead(Advance(q, true), n) == Ahead(q, n + 1)
  {
    WrapSum(q.nextDesc, n);
  }

  lemma ChainLogStep(q: Vq, ds: seq<Desc>)
    requires q.size > 0 && |ds| > 1
    ensures ChainLog(q, ds) == PlacementLog(q, ds[0], true) + ChainLog(Advance(q, true), ds[1..])
  {
    AheadStep(q, |ds| - 2);
  }

  lemma ChainLogLast(q: Vq, d: Desc)
    requires q.size > 0
    ensures ChainLog(q, [d]) == PlacementLog(q, d, false)
  {
    OneDescEvent(q, d);
    assert Ahead(q, 0) == q;
  }

  lemma OneDescEvent(q: Vq, d: Desc)
    requires q.size > 0
    ensures DescEvents(q, [d]) == [DescEvent(q, d)]
  {
    assert [d][1..] == [];
  }

  /** What one placement does to the queue and to its history. */
  lemma PlaceDescQueue(s: Core, v: nat, addr: u64, len: u32, writable: bool, more: bool)
    requires CanPlace(s, v)
    ensures var r := PlaceDesc(s, v, addr, len, writable, more);
            && CanPlace(r, v) && r.vqs == s.vqs[v := Advance(s.vqs[v], more)]
            && r.hist.queues[v] ==
               Record(s.hist.queues[v], DescFor(s.vqs[v], addr, len, writable, more), s.vqs[v].size, more)
  {
  }

  lemma PlacementsCons(d: Desc, ds: seq<Desc>, size: u32)
    ensures Placements([d] + ds, size) == [Placement(d, size)] + Placements(ds, size)
  {
  }

  lemma {:induction false} PlaceAllLog(s: Core, v: nat, bufs: seq<Buf>, parts: seq<Part>)
    requires CanPlace(s, v) && 0 < |bufs| <= |parts|
    ensures PlaceAll(s, v, bufs, parts).log == s.log + ChainLog(s.vqs[v], ChainDescs(s.vqs[v], bufs, parts))
    decreases |bufs|
  {
    var q := s.vqs[v];
    var s1 := PlaceDesc(s, v, bufs[0].gpa, bufs[0].len, parts[0].writable, |bufs| > 1);
    var ds := ChainDescs(q, bufs, parts);
    if |bufs| == 1 {
      assert ds == [ds[0]];
      ChainLogLast(q, ds[0]);
    } else {
      PlaceAllLog(s1, v, bufs[1..], parts[1..]);
      ChainLogStep(q, ds);
      LogsJoin(s.log, PlacementLog(q, ds[0], true), ChainLog(s1.vqs[v], ds[1..]));
    }
  }

  lemma LogsJoin(a: seq<Event>, b: seq<Event>, c: seq<Event>)
    ensures a + b + c == a + (b + c)
  {
  }

  lemma {:induction false} PlaceAllQueues(s: Core, v: nat, bufs: seq<Buf>, parts: seq<Part>)
    requires CanPlace(s, v) && 0 < |bufs| <= |parts|
    ensures PlaceAll(s, v, bufs, parts).vqs == s.vqs[v := AfterChain(s.vqs[v], |bufs|)]
    decreases |bufs|
  {
    if |bufs| > 1 {
      var q, n := s.vqs[v], |bufs| - 1;
      var s1 := PlaceDesc(s, v, bufs[0].gpa, bufs[0].len, parts[0].writable, true);
      PlaceAllQueues(s1, v, bufs[1..], parts[1..]);
      AdvanceThenChain(q, n);
      PutTwice(s.vqs, v, Advance(q, true), AfterChain(q, n + 1));
    }
  }

  lemma AdvanceThenChain(q: Vq, n: nat)
    ensures AfterChain(Advance(q, true), n) == AfterChain(q, n + 1)
  {
    WrapSum(q.nextDesc, n);
  }

  lemma PutTwice(vqs: seq<Vq>, v: nat, a: Vq, b: Vq)
    requires v < |vqs|
    ensures vqs[v := a][v := b] == vqs[v := b]
  {
  }

  lemma WrapSum(x: u32, n: nat)
    ensures Wrap32(Wrap32(x + 1) + n) == Wrap32(x + (n + 1))
  {
  }

  /** The history of a queue after the chain `ds` was placed and published. */
  ghost predicate Grown(a: AbstractQueue, r: AbstractQueue, ds: seq<Desc>, size: u32)
    requires size > 0 && ds != []
  {
    var index := Wrap16(|a.placed| + |ds| - 1);
    && r.placed == a.placed + Placements(ds, size)
    && r.pubs == a.pubs + [Publication(index, size)]
    && r.ring == a.ring[|a.pubs| % size := index]
  }

  lemma GrownOne(a: AbstractQueue, d: Desc, size: u32)
    requires size > 0
    ensures Grown(a, Record(a, d, size, false), [d], size)
  {
  }

  lemma GrownMore(a: AbstractQueue, r: AbstractQueue, d: Desc, ds: seq<Desc>, size: u32)
    requires size > 0 && ds != [] && Grown(a.Add(d, size), r, ds, size)
    ensures Grown(a, r, [d] + ds, size)
  {
    PlacementsCons(d, ds, size);
    assert a.placed + [Placement(d, size)] + Placements(ds, size) == a.placed + Placements([d] + ds, size);
  }

  lemma {:induction false} PlaceAllHistory(s: Core, v: nat, bufs: seq<Buf>, parts: seq<Part>)
    requires CanPlace(s, v) && 0 < |bufs| <= |parts|
    ensures Grown(s.hist.queues[v], PlaceAll(s, v, bufs, parts).hist.queues[v],
                  ChainDescs(s.vqs[v], bufs, parts), s.vqs[v].size)
    decreases |bufs|
  {
    var q, a := s.vqs[v], s.hist.queues[v];
    var d := DescFor(q, bufs[0].gpa, bufs[0].len, parts[0].writable, |bufs| > 1);
    PlaceDescQueue(s, v, bufs[0].gpa, bufs[0].len, parts[0].writable, |bufs| > 1);
    var s1 := PlaceDesc(s, v, bufs[0].gpa, bufs[0].len, parts[0].writable, |bufs| > 1);
    if |bufs| == 1 {
      assert ChainDescs(q, bufs, parts) == [d];
      GrownOne(a, d, q.size);
    } else {
      PlaceAllHistory(s1, v, bufs[1..], parts[1..]);
      GrownMore(a, PlaceAll(s1, v, bufs[1..], parts[1..]).hist.queues[v], d,
                ChainDescs(Advance(q, true), bufs[1..], parts[1..]), q.size);
    }
  }

  // When a submission goes through.

  function PoolNeed(parts: seq<Part>): nat {
    if parts == [] then 0
    else if |parts| == 1 then TotalLength(parts[0].chunks) + 16
    else Reserved(TotalLength(parts[0].chunks)) + PoolNeed(parts[1..])
  }

  /** Enough pool is left for all the parts, and no part gets the id 0 (or the address 0). */
  predicate Affordable(s: Core, parts: seq<Part>, named: bool) {
    && s.bufAlloc + PoolNeed(parts) <= POOL_END
    && (parts != [] ==> if named then s.synthId != 0 && s.synthId + |parts| <= TWO_32 else s.bufAlloc != 0)
  }

  lemma NeedStep(parts: seq<Part>)
    requires parts != []
    ensures PoolNeed(parts) >= TotalLength(parts[0].chunks) + 16
    ensures |parts| > 1 ==> PoolNeed(parts) == Reserved(TotalLength(parts[0].chunks)) + PoolNeed(parts[1..])
  {
    if |parts| > 1 {
      NeedIsPositive(parts[1..]);
    }
  }

  lemma AfterFirst(s: Core, parts: seq<Part>, named: bool)
    requires s.bufAlloc % 16 == 0 && parts != [] && AllocPart(s, parts[0].chunks, named).1.Some?
    ensures var s1 := AllocPart(s, parts[0].chunks, named).0;
            && s1.bufAlloc % 16 == 0
            && (Affordable(s, parts, named) <==> parts[1..] == [] || Affordable(s1, parts[1..], named))
  {
    ReservedFacts(s.bufAlloc, TotalLength(parts[0].chunks));
    NeedStep(parts);
  }

  lemma {:induction false} AllocSucceeds(s: Core, parts: seq<Part>, named: bool)
    requires s.bufAlloc % 16 == 0
    ensures AllocAll(s, parts, named).1.Some? <==> Affordable(s, parts, named)
    decreases |parts|
  {
    if parts != [] {
      var (s1, b) := AllocPart(s, parts[0].chunks, named);
      NeedStep(parts);
      if b.Some? {
        AfterFirst(s, parts, named);
        AllocSucceeds(s1, parts[1..], named);
      }
    }
  }

  lemma NeedIsPositive(parts: seq<Part>)
    requires parts != []
    ensures PoolNeed(parts) >= 16
  {
    ReservedFacts(0, TotalLength(parts[0].chunks));
  }

  predicate GoesThrough(s: Core, sub: Submission)
    requires sub.Valid(|s.vqs|)
  {
    HasRoom(s, sub.vq, sub.slack) && Affordable(s, sub.parts, sub.named)
  }

  /** The whole chain of `sub` was placed by the step from `s` to `r`, after buffers `bufs` had been
      allocated (state `s1`): one ring entry, one bump of `avail.idx`, one notification. */
  ghost predicate Delivered(s: Core, s1: Core, bufs: seq<Buf>, r: Core, sub: Submission)
    requires CanPlace(s, sub.vq) && sub.Valid(|s.vqs|) && |bufs| == |sub.parts|
  {
    var q := s.vqs[sub.vq];
    && Quiet(s, s1)
    && r.log == s1.log + ChainLog(q, ChainDescs(q, bufs[..sub.placed], sub.parts))
                + Registers([RegWrite(R_QUEUE_NOTIFY, sub.vq)] + sub.tail)
    && r.vqs == s.vqs[sub.vq := AfterChain(q, sub.placed)]
  }

  lemma NothingPlaced(s: Core, sub: Submission, lo: int)
    requires Shaped(s) && sub.Valid(|s.vqs|) && PoolOk(s, lo) && BufPoolBase(|s.vqs|) <= lo
    requires !GoesThrough(s, sub)
    ensures Quiet(s, Submit(s, sub))
    ensures !HasRoom(s, sub.vq, sub.slack) ==> Submit(s, sub) == s
  {
    AllocAllOk(s, sub.parts, sub.named, lo);
    AllocSucceeds(s, sub.parts, sub.named);
  }

  lemma SubmitUnfolds(s: Core, sub: Submission) returns (s1: Core, bufs: seq<Buf>, s2: Core)
    requires Shaped(s) && sub.Valid(|s.vqs|) && HasRoom(s, sub.vq, sub.slack)
    requires AllocAll(s, sub.parts, sub.named).1.Some?
    ensures AllocAll(s, sub.parts, sub.named) == (s1, Some(bufs))
    ensures |bufs| == |sub.parts| && s1.vqs == s.vqs && CanPlace(s1, sub.vq)
    ensures s1.hist.queues == s.hist.queues
    ensures s2 == PlaceAll(s1, sub.vq, bufs[..sub.placed], sub.parts)
    ensures Submit(s, sub) == Emit(s2, Registers([RegWrite(R_QUEUE_NOTIFY, sub.vq)] + sub.tail))
  {
    AllocAllKeepsQueues(s, sub.parts, sub.named);
    s1, bufs := AllocAll(s, sub.parts, sub.named).0, AllocAll(s, sub.parts, sub.named).1.value;
    s2 := PlaceAll(s1, sub.vq, bufs[..sub.placed], sub.parts);
  }

  lemma SubmitLog(s: Core, sub: Submission)
    requires Shaped(s) && sub.Valid(|s.vqs|) && HasRoom(s, sub.vq, sub.slack)
    requires AllocAll(s, sub.parts, sub.named).1.Some?
    ensures var (s1, bufs) := AllocAll(s, sub.parts, sub.named);
            Submit(s, sub).log == s1.log
            + ChainLog(s.vqs[sub.vq], ChainDescs(s.vqs[sub.vq], bufs.value[..sub.placed], sub.parts))
            + Registers([RegWrite(R_QUEUE_NOTIFY, sub.vq)] + sub.tail)
  {
    var s1, bufs, s2 := SubmitUnfolds(s, sub);
    PlaceAllLog(s1, sub.vq, bufs[..sub.placed], sub.parts);
  }

  lemma SubmitQueues(s: Core, sub: Submission)
    requires Shaped(s) && sub.Valid(|s.vqs|) && HasRoom(s, sub.vq, sub.slack)
    requires AllocAll(s, sub.parts, sub.named).1.Some?
    ensures Submit(s, sub).vqs == s.vqs[sub.vq := AfterChain(s.vqs[sub.vq], sub.placed)]
  {
    var s1, bufs, s2 := SubmitUnfolds(s, sub);
    PlaceAllQueues(s1, sub.vq, bufs[..sub.placed], sub.parts);
    assert s2.vqs == s.vqs[sub.vq := AfterChain(s.vqs[sub.vq], sub.placed)];
  }

  lemma AllPlaced(s: Core, sub: Submission, lo: int)
    requires Shaped(s) && sub.Valid(|s.vqs|) && PoolOk(s, lo) && BufPoolBase(|s.vqs|) <= lo
    requires GoesThrough(s, sub)
    ensures var (s1, bufs) := AllocAll(s, sub.parts, sub.named);
            bufs.Some? && Delivered(s, s1, bufs.value, Submit(s, sub), sub)
  {
    AllocAllOk(s, sub.parts, sub.named, lo);
    AllocSucceeds(s, sub.parts, sub.named);
    SubmitLog(s, sub);
    SubmitQueues(s, sub);
  }

  /** A submission either delivers its whole chain or leaves every queue and all memory outside
      the pool as it was; it delivers exactly when there is room in the queue and in the pool. */
  lemma AllOrNothing(s: Core, sub: Submission, lo: int)
    requires Shaped(s) && sub.Valid(|s.vqs|) && PoolOk(s, lo) && BufPoolBase(|s.vqs|) <= lo
    ensures var r := Submit(s, sub);
            if GoesThrough(s, sub) then
              var (s1, bufs) := AllocAll(s, sub.parts, sub.named);
              bufs.Some? && Delivered(s, s1, bufs.value, r, sub)
            else Quiet(s, r) && (!HasRoom(s, sub.vq, sub.slack) ==> r == s)
  {
    if GoesThrough(s, sub) {
      AllPlaced(s, sub, lo);
    } else {
      NothingPlaced(s, sub, lo);
    }
  }
}
