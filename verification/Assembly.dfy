/** Building a chain buffer by buffer and descriptor by descriptor, as the submit functions do,
    while keeping track of how much of a `Submission` is done. */
module Assembly {
  import opened Bytes
  import opened Guest
  import opened Virtqueue
  import opened DriverCore
  import opened Wrappers

  lemma {:induction false} AllocAllSnoc(s: Core, parts: seq<Part>, p: Part, named: bool)
    ensures AllocAll(s, parts + [p], named) ==
            var (s1, bs) := AllocAll(s, parts, named);
            if bs.None? then (s1, None)
            else
              var (s2, b) := AllocPart(s1, p.chunks, named);
              (s2, if b.None? then None else Some(bs.value + [b.value]))
    decreases |parts|
  {
    var all := parts + [p];
    if parts == [] {
      assert all[1..] == [];
      assert forall b: Buf :: [b] + [] == [] + [b];
    } else {
      var (s1, b) := AllocPart(s, parts[0].chunks, named);
      assert all[0] == parts[0] && all[1..] == parts[1..] + [p];
      if b.Some? {
        AllocAllSnoc(s1, parts[1..], p, named);
        var (s2, bs) := AllocAll(s1, parts[1..], named);
        if bs.Some? {
          var (s3, c) := AllocPart(s2, p.chunks, named);
          if c.Some? {
            assert [b.value] + (bs.value + [c.value]) == ([b.value] + bs.value) + [c.value];
          }
        }
      }
    }
  }

  /** Once an allocation failed, the parts after it are not tried. */
  lemma {:induction false} AllocAllStops(s: Core, parts: seq<Part>, k: nat, named: bool)
    requires k <= |parts| && AllocAll(s, parts[..k], named).1.None?
    ensures AllocAll(s, parts, named) == AllocAll(s, parts[..k], named)
    decreases |parts|
  {
    if k < |parts| {
      var n := |parts| - 1;
      assert parts == parts[..n] + [parts[n]] && parts[..n][..k] == parts[..k];
      AllocAllStops(s, parts[..n], k, named);
      AllocAllSnoc(s, parts[..n], parts[n], named);
    } else {
      assert parts[..k] == parts;
    }
  }

  /** The first `|bs|` parts are allocated, as `bs`. */
  ghost predicate Staged(s0: Core, s: Core, parts: seq<Part>, bs: seq<Buf>) {
    |bs| <= |parts| && AllocAll(s0, parts[..|bs|], true) == (s, Some(bs))
  }

  lemma NextStaged(s0: Core, s: Core, parts: seq<Part>, bs: seq<Buf>)
    requires Staged(s0, s, parts, bs) && |bs| < |parts|
    ensures var (r, b) := AllocPart(s, parts[|bs|].chunks, true);
            if b.None? then AllocAll(s0, parts, true) == (r, None) else Staged(s0, r, parts, bs + [b.value])
  {
    var k := |bs|;
    assert parts[..k + 1] == parts[..k] + [parts[k]];
    AllocAllSnoc(s0, parts[..k], parts[k], true);
    if AllocPart(s, parts[k].chunks, true).1.None? {
      AllocAllStops(s0, parts, k + 1, true);
    }
  }

  /** Allocates the next part; an id of 0 ends the submission. */
  method AllocNext(d: Driver, data: blob, ghost s0: Core, ghost parts: seq<Part>, ghost bs: seq<Buf>)
    returns (id: u32)
    requires d.Valid() && Staged(s0, d.State(), parts, bs)
    requires |bs| < |parts| && parts[|bs|].chunks == Whole(data)
    modifies d
    ensures d.Valid()
    ensures id == 0 ==> AllocAll(s0, parts, true) == (d.State(), None)
    ensures id != 0 ==>
              && id in d.bufs && Staged(s0, d.State(), parts, bs + [d.bufs[id]])
              && id == old(d.synthId) && d.synthId == Wrap32(id + 1)
              && d.bufs == old(d.bufs)[id := d.bufs[id]]
  {
    NextStaged(s0, d.State(), parts, bs);
    id := d.AllocBuf(data);
  }

  // Parts held by their ids, which are looked up only when the whole request is staged.

  /** Ids given out one after the other, the last one just before `next`. */
  predicate Recent(ids: seq<u32>, next: u32) {
    |ids| <= 8 && forall i | 0 <= i < |ids| :: ids[i] == Back(next, |ids| - i)
  }

  /** The id given out `k` allocations before `next`. */
  function Back(next: u32, k: nat): u32
    requires k <= 8
  {
    if k <= next then next - k else next + TWO_32 - k
  }

  lemma BackStep(next: u32, k: nat)
    requires k < 8
    ensures Back(Wrap32(next + 1), k + 1) == Back(next, k) && (k > 0 ==> Back(next, k) != next)
  {
  }

  lemma RecentMore(ids: seq<u32>, next: u32)
    requires Recent(ids, next) && |ids| < 8
    ensures Recent(ids + [next], Wrap32(next + 1)) && next !in ids
  {
    forall i | 0 <= i <= |ids| ensures (ids + [next])[i] == Back(Wrap32(next + 1), |ids| + 1 - i) {
      BackStep(next, |ids| - i);
    }
    forall i | 0 <= i < |ids| ensures ids[i] != next {
      BackStep(next, |ids| - i);
    }
  }

  function Lookup(bufs: map<u32, Buf>, ids: seq<u32>): (bs: seq<Buf>)
    requires forall i | 0 <= i < |ids| :: ids[i] in bufs
    ensures |bs| == |ids| && forall i | 0 <= i < |ids| :: bs[i] == bufs[ids[i]]
  {
    seq(|ids|, i requires 0 <= i < |ids| => bufs[ids[i]])
  }

  /** The first parts are staged, in the buffers that `ids` name. */
  ghost predicate Holding(d: Driver, s0: Core, parts: seq<Part>, ids: seq<u32>)
    reads d, d.vqs
  {
    && Recent(ids, d.synthId) && (forall i | 0 <= i < |ids| :: ids[i] in d.bufs)
    && Staged(s0, d.State(), parts, Lookup(d.bufs, ids))
  }

  lemma LookupMore(bufs: map<u32, Buf>, ids: seq<u32>, id: u32, b: Buf)
    requires (forall i | 0 <= i < |ids| :: ids[i] in bufs) && id !in ids
    ensures var all := bufs[id := b];
            && (forall i | 0 <= i <= |ids| :: (ids + [id])[i] in all)
            && Lookup(all, ids + [id]) == Lookup(bufs, ids) + [b]
  {
  }

  /** Allocates the next part; an id of 0 ends the submission. */
  method AllocMore(d: Driver, data: blob, ghost s0: Core, ghost parts: seq<Part>, ghost ids: seq<u32>)
    returns (id: u32)
    requires d.Valid() && Holding(d, s0, parts, ids) && |ids| < 8
    requires |ids| < |parts| && parts[|ids|].chunks == Whole(data)
    modifies d
    ensures d.Valid()
    ensures id == 0 ==> AllocAll(s0, parts, true) == (d.State(), None)
    ensures id != 0 ==> Holding(d, s0, parts, ids + [id])
  {
    RecentMore(ids, d.synthId);
    ghost var bufs := d.bufs;
    id := AllocNext(d, data, s0, parts, Lookup(d.bufs, ids));
    if id != 0 {
      LookupMore(bufs, ids, id, d.bufs[id]);
    }
  }

  lemma HoldingNothing(d: Driver, s0: Core, parts: seq<Part>)
    requires d.Valid() && d.State() == s0
    ensures Holding(d, s0, parts, [])
  {
    assert parts[..0] == [];
  }

  /** Places the next descriptor of the chain that is still to come (`rest`). */
  method PlaceNext(d: Driver, v: u32, b: Buf, writable: bool, more: bool, ghost rest: seq<Buf>, ghost parts: seq<Part>)
    requires d.Valid() && CanPlace(d.State(), v)
    requires 0 < |rest| <= |parts| && rest[0] == b && parts[0].writable == writable && (more <==> |rest| > 1)
    modifies d, d.vqs
    ensures d.Valid() && d.bufs == old(d.bufs) && CanPlace(d.State(), v)
    ensures PlaceAll(old(d.State()), v, rest, parts) == PlaceAll(d.State(), v, rest[1..], parts[1..])
  {
    d.Place(v, b.gpa, b.len, writable, more);
  }

  /** The guard every submission starts with. */
  method Room(d: Driver, v: u32, slack: u32) returns (r: bool)
    requires d.Valid() && v < d.vqs.Length
    ensures r == HasRoom(d.State(), v, slack)
  {
    r := d.vqs[v].size != 0 && Wrap32(d.vqs[v].nextDesc + slack) < d.vqs[v].size;
  }

  /** With every part staged, what is left of the submission is to chain and to notify. */
  lemma Remaining(s0: Core, s1: Core, bs: seq<Buf>, sub: Submission)
    requires Shaped(s0) && sub.Valid(|s0.vqs|) && HasRoom(s0, sub.vq, sub.slack) && sub.named
    requires |bs| == |sub.parts| && Staged(s0, s1, sub.parts, bs)
    ensures CanPlace(s1, sub.vq)
    ensures Submit(s0, sub) == Emit(PlaceAll(s1, sub.vq, bs[..sub.placed], sub.parts),
                                    Registers([RegWrite(R_QUEUE_NOTIFY, sub.vq)] + sub.tail))
  {
    assert sub.parts[..|bs|] == sub.parts;
    AllocAllKeepsQueues(s0, sub.parts, true);
  }

  /** The same when every part is placed and nothing follows the notification. */
  lemma RemainingWhole(s0: Core, s1: Core, bs: seq<Buf>, sub: Submission)
    requires Shaped(s0) && sub.Valid(|s0.vqs|) && HasRoom(s0, sub.vq, sub.slack) && sub.named
    requires |bs| == |sub.parts| == sub.placed && sub.tail == [] && Staged(s0, s1, sub.parts, bs)
    ensures CanPlace(s1, sub.vq)
    ensures Submit(s0, sub) == Emit(PlaceAll(s1, sub.vq, bs, sub.parts), Registers([RegWrite(R_QUEUE_NOTIFY, sub.vq)]))
  {
    Remaining(s0, s1, bs, sub);
    assert bs[..sub.placed] == bs;
    assert [RegWrite(R_QUEUE_NOTIFY, sub.vq)] + sub.tail == [RegWrite(R_QUEUE_NOTIFY, sub.vq)];
  }

  /** Chains two buffers and notifies. */
  method SendTwo(d: Driver, v: u32, b: Buf, c: Buf, cWritable: bool, ghost parts: seq<Part>)
    requires d.Valid() && CanPlace(d.State(), v)
    requires |parts| >= 2 && !parts[0].writable && parts[1].writable == cWritable
    modifies d, d.vqs
    ensures d.Valid()
    ensures d.State() == Emit(PlaceAll(old(d.State()), v, [b, c], parts), Registers([RegWrite(R_QUEUE_NOTIFY, v)]))
  {
    PlaceNext(d, v, b, false, true, [b, c], parts);
    assert [b, c][1..] == [c];
    PlaceNext(d, v, c, cWritable, false, [c], parts[1..]);
    assert [c][1..] == [];
    d.Notify(v);
  }

  /** A failed allocation leaves the submission as it is. */
  lemma GaveUp(s0: Core, s1: Core, sub: Submission)
    requires Shaped(s0) && sub.Valid(|s0.vqs|) && HasRoom(s0, sub.vq, sub.slack) && sub.named
    requires AllocAll(s0, sub.parts, true) == (s1, None)
    ensures Submit(s0, sub) == s1
  {
  }

  /** Allocates two buffers in a row. */
  method StageTwo(d: Driver, x: blob, y: blob, ghost s0: Core, ghost parts: seq<Part>)
    returns (ok: bool, b: Buf, c: Buf)
    requires d.Valid() && d.State() == s0 && |parts| == 2
    requires parts[0].chunks == Whole(x) && parts[1].chunks == Whole(y)
    modifies d
    ensures d.Valid()
    ensures if ok then Staged(s0, d.State(), parts, [b, c]) else AllocAll(s0, parts, true) == (d.State(), None)
  {
    ok, b, c := false, Buf(0, 0), Buf(0, 0);
    assert parts[..0] == [];
    var xId := AllocNext(d, x, s0, parts, []);
    if xId == 0 {
      return;
    }
    b := d.bufs[xId];
    assert [] + [b] == [b];
    var yId := AllocNext(d, y, s0, parts, [b]);
    if yId == 0 {
      return;
    }
    ok, b, c := true, d.bufs[xId], d.bufs[yId];
    assert [b] + [c] == [b, c];
  }

  function Pair(v: u32, slack: u32, request: blob, response: blob): Submission {
    Submission(v, slack, [Part(Whole(request), false), Part(Whole(response), true)], 2, true, [])
  }

  /** A request buffer and a response buffer: allocate both, chain both, notify. */
  method SubmitPair(d: Driver, v: u32, slack: u32, request: blob, response: blob)
    requires d.Valid() && v < d.vqs.Length && 2 <= slack <= 5
    modifies d, d.vqs
    ensures d.Valid() && d.State() == Submit(old(d.State()), Pair(v, slack, request, response))
  {
    ghost var s0 := d.State();
    ghost var sub := Pair(v, slack, request, response);
    var room := Room(d, v, slack);
    if !room {
      return;
    }
    var ok, rb, sb := StageTwo(d, request, response, s0, sub.parts);
    if !ok {
      GaveUp(s0, d.State(), sub);
      return;
    }
    RemainingWhole(s0, d.State(), [rb, sb], sub);
    SendTwo(d, v, rb, sb, true, sub.parts);
  }

  /** The ops all harnesses share. */
  method DispatchCommon(d: Driver, a: Action)
    requires d.Valid() && !a.DoStage? && !a.DoSubmit? && (a.DoAddDesc? ==> a.floor <= 1)
    modifies d, d.vqs
    ensures d.Valid() && d.State() == Step(old(d.State()), a)
  {
    match a
    case TouchRegisters(accesses) => d.Touch(accesses);
    case DoReset => d.ResetIteration();
    case DoVqSetup(v, requested, max) => d.SetupQueue(v, requested, max);
    case DoGuestMemWrite(id, data) => d.GuestWrite(id, data);
    case DoAddDesc(floor, v, id, len, writable, more, exotic) =>
      d.AddDescriptor(floor, v, id, len, writable, more, exotic);
    case DoMemwriteAbsolute(gpa, data) => d.WriteAbsolute(gpa, data);
  }
}
