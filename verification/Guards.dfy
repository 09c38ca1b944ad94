/** When a typed submission goes out, by the numbers: descriptors placed so far, pool used so far. */
module Guards {
  import opened Bytes
  import opened Guest
  import opened QueueSize
  import opened Virtqueue
  import opened Pool
  import opened Confinement
  import opened Refinement
  import opened SubmissionTheorems
  import opened Counting
  import opened Chain
  import opened Wrappers

  // The queue.

  /** Queue `v` has a size, and its descriptors so far and `k` more stay below it. */
  predicate Free(r: Core, v: nat, k: nat)
    requires v < |r.vqs| == |r.hist.queues|
  {
    r.vqs[v].size != 0 && |r.hist.queues[v].placed| + k < r.vqs[v].size
  }

  /** In a run that is not astronomically long the 32-bit counter is the number of descriptors. */
  lemma CounterIsCount(s: Core, acts: seq<Action>, v: nat)
    requires Shaped(s) && ValidActions(|s.vqs|, acts) && SmallDeviceRun(acts) && v < |s.vqs| && Short(|acts|)
    ensures var r := Run(Reset(s), acts);
            r.vqs[v].nextDesc == |r.hist.queues[v].placed| <= 5 * |acts|
  {
    ReachableRefines(map[], s, acts);
    ResetCounters(s);
    RunGrows(Reset(s), acts, 0);
    CountFrom(map[], Run(Reset(s), acts), v, 5 * |acts|);
  }

  lemma CountFrom(m0: Memory, r: Core, v: nat, n: nat)
    requires Refines(m0, r) && v < |r.vqs| && Bounded(r, n) && n < TWO_32
    ensures r.vqs[v].nextDesc == |r.hist.queues[v].placed| <= n
  {
    assert QueueRefines(Image(m0, r.log), v, r.vqs[v], r.hist.queues[v]);
    SmallMod(|r.hist.queues[v].placed|, TWO_32);
  }

  lemma RoomIsFree(s: Core, acts: seq<Action>, v: nat, k: u32)
    requires Shaped(s) && ValidActions(|s.vqs|, acts) && SmallDeviceRun(acts) && v < |s.vqs| && k <= 5 && Short(|acts|)
    ensures HasRoom(Run(Reset(s), acts), v, k) <==> Free(Run(Reset(s), acts), v, k)
  {
    CounterIsCount(s, acts, v);
    RoomAt(Run(Reset(s), acts), v, k, 5 * |acts|);
  }

  lemma RoomAt(r: Core, v: nat, k: u32, n: nat)
    requires v < |r.vqs| == |r.hist.queues| && k <= 5 && n + 5 < TWO_32
    requires r.vqs[v].nextDesc == |r.hist.queues[v].placed| <= n
    ensures HasRoom(r, v, k) <==> Free(r, v, k)
  {
    SmallMod(r.vqs[v].nextDesc + k, TWO_32);
  }

  // The pool.

  /** Pool bytes that buffers of these lengths need: each takes its length and 16 more, down to a
      multiple of 16, and the last one must leave 16 bytes behind it. */
  function Needs(lens: seq<nat>): nat {
    if lens == [] then 0
    else if |lens| == 1 then lens[0] + 16
    else (lens[0] + 16) / 16 * 16 + Needs(lens[1..])
  }

  function Lengths(parts: seq<Part>): (lens: seq<nat>)
    ensures |lens| == |parts| && forall i | 0 <= i < |parts| :: lens[i] == TotalLength(parts[i].chunks)
  {
    seq(|parts|, i requires 0 <= i < |parts| => TotalLength(parts[i].chunks))
  }

  lemma {:induction false} NeedsAreNeeded(parts: seq<Part>)
    ensures PoolNeed(parts) == Needs(Lengths(parts))
  {
    if |parts| > 1 {
      assert Lengths(parts)[1..] == Lengths(parts[1..]);
      NeedsAreNeeded(parts[1..]);
      PaddedTo16(TotalLength(parts[0].chunks));
    }
  }

  lemma PaddedTo16(len: nat)
    ensures Reserved(len) == (len + 16) / 16 * 16
  {
  }

  predicate Fitting(r: Core, lens: seq<nat>) { r.bufAlloc + Needs(lens) <= 0x47F0_0000 }

  /** `n` more synthetic ids can be given out before they come to 0. */
  predicate IdsLeft(r: Core, n: nat) { r.synthId != 0 && r.synthId + n <= 0x1_0000_0000 }

  lemma AffordableIsFitting(r: Core, sub: Submission)
    requires sub.Valid(|r.vqs|) && PoolOk(r, BufPoolBase(|r.vqs|))
    ensures Affordable(r, sub.parts, sub.named) <==>
            Fitting(r, Lengths(sub.parts)) && (sub.named ==> IdsLeft(r, |sub.parts|))
  {
    NeedsAreNeeded(sub.parts);
  }

  // What becomes of a submission.

  /** Queue `v` got `n` descriptors and one publication; the others nothing. */
  ghost predicate Gained(r: Core, t: Core, v: nat, n: nat)
    requires v < |r.hist.queues|
  {
    && |t.hist.queues| == |r.hist.queues|
    && (forall w | 0 <= w < |r.hist.queues| && w != v :: t.hist.queues[w] == r.hist.queues[w])
    && r.hist.queues[v].placed <= t.hist.queues[v].placed && r.hist.queues[v].pubs <= t.hist.queues[v].pubs
    && |t.hist.queues[v].placed| == |r.hist.queues[v].placed| + n
    && |t.hist.queues[v].pubs| == |r.hist.queues[v].pubs| + 1
  }

  ghost predicate Unmoved(r: Core, t: Core) { t.vqs == r.vqs && t.hist.queues == r.hist.queues }

  predicate EndsWith(log: seq<Event>, es: seq<Event>) { |es| <= |log| && log[|log| - |es|..] == es }

  lemma {:induction false} PlaceAllOthers(s: Core, v: nat, bufs: seq<Buf>, parts: seq<Part>)
    requires CanPlace(s, v) && |bufs| <= |parts|
    ensures var r := PlaceAll(s, v, bufs, parts);
            && |r.hist.queues| == |s.hist.queues|
            && forall w | 0 <= w < |s.hist.queues| && w != v :: r.hist.queues[w] == s.hist.queues[w]
    decreases |bufs|
  {
    if bufs != [] {
      var s1 := PlaceDesc(s, v, bufs[0].gpa, bufs[0].len, parts[0].writable, |bufs| > 1);
      PlaceAllOthers(s1, v, bufs[1..], parts[1..]);
    }
  }

  lemma DeliveredGains(s: Core, sub: Submission)
    requires Shaped(s) && sub.Valid(|s.vqs|) && HasRoom(s, sub.vq, sub.slack)
    requires AllocAll(s, sub.parts, sub.named).1.Some?
    ensures Gained(s, Submit(s, sub), sub.vq, sub.placed)
    ensures EndsWith(Submit(s, sub).log, Registers([RegWrite(0x050, sub.vq)] + sub.tail))
  {
    var s1, bufs, s2 := SubmitUnfolds(s, sub);
    PlaceAllOthers(s1, sub.vq, bufs[..sub.placed], sub.parts);
    SubmitGrown(s, sub);
  }

  lemma NothingMoves(s: Core, sub: Submission)
    requires Shaped(s) && sub.Valid(|s.vqs|)
    requires !HasRoom(s, sub.vq, sub.slack) || AllocAll(s, sub.parts, sub.named).1.None?
    ensures Unmoved(s, Submit(s, sub)) && (!HasRoom(s, sub.vq, sub.slack) ==> Submit(s, sub) == s)
  {
    AllocAllKeepsQueues(s, sub.parts, sub.named);
  }

  /** Queue, pool and ids have room for the submission. */
  predicate Admits(r: Core, sub: Submission)
    requires sub.Valid(|r.vqs|) && |r.vqs| == |r.hist.queues|
  {
    Free(r, sub.vq, sub.slack) && Fitting(r, Lengths(sub.parts)) && (sub.named ==> IdsLeft(r, |sub.parts|))
  }

  /** What a submission does to the queues: its whole chain, one publication and the notification, or
      nothing; and nothing at all if the queue has no room. */
  ghost predicate Outcome(r: Core, t: Core, sub: Submission)
    requires sub.Valid(|r.vqs|) && |r.vqs| == |r.hist.queues|
  {
    if Admits(r, sub) then
      Gained(r, t, sub.vq, sub.placed) && EndsWith(t.log, Registers([RegWrite(0x050, sub.vq)] + sub.tail))
    else Unmoved(r, t) && (!Free(r, sub.vq, sub.slack) ==> t == r)
  }

  lemma GoesThroughByNumbers(s: Core, acts: seq<Action>, sub: Submission)
    requires Shaped(s) && ValidActions(|s.vqs|, acts) && SmallDeviceRun(acts) && sub.Valid(|s.vqs|) && Short(|acts|)
    ensures var r := Run(Reset(s), acts);
            && (HasRoom(r, sub.vq, sub.slack) <==> Free(r, sub.vq, sub.slack))
            && (GoesThrough(r, sub) <==> Admits(r, sub)) && r.bufAlloc % 16 == 0
  {
    ReachableRefines(map[], s, acts);
    RoomIsFree(s, acts, sub.vq, sub.slack);
    AffordableIsFitting(Run(Reset(s), acts), sub);
  }

  /** After any run of at most 858 million steps from a reset, a submission goes out exactly when the
      queue has a size, the descriptors placed on it so far and the slack of the submission stay
      below that size, and pool and ids last for all its buffers. */
  lemma GuardTheorem(s: Core, acts: seq<Action>, sub: Submission)
    requires Shaped(s) && ValidActions(|s.vqs|, acts) && SmallDeviceRun(acts) && sub.Valid(|s.vqs|) && Short(|acts|)
    ensures Outcome(Run(Reset(s), acts), Submit(Run(Reset(s), acts), sub), sub)
  {
    var r := Run(Reset(s), acts);
    GoesThroughByNumbers(s, acts, sub);
    AllocSucceeds(r, sub.parts, sub.named);
    if GoesThrough(r, sub) {
      DeliveredGains(r, sub);
    } else {
      NothingMoves(r, sub);
    }
  }

  /** In a run of at most 429 million steps the ids always last. */
  lemma IdsAlwaysLeft(s: Core, acts: seq<Action>, n: nat)
    requires Shaped(s) && ValidActions(|s.vqs|, acts) && Brief(|acts|) && n <= 5
    ensures IdsLeft(Run(Reset(s), acts), n)
  {
    IdsLast(s, acts);
  }

  // What the device finds, and what the driver remembers.

  /** The hops of the chain that starts in the slot the driver was about to use. */
  function ChainFrom(m: Memory, r: Core, v: nat): seq<Hop>
    requires v < |r.vqs| && r.vqs[v].size > 0
  {
    Walk(m, v, r.vqs[v].nextDesc % r.vqs[v].size, 256)
  }

  lemma OneNotification(sub: Submission)
    requires sub.tail == []
    ensures Registers([RegWrite(0x050, sub.vq)] + sub.tail) == [Mmio(RegWrite(0x050, sub.vq))]
  {
  }

  /** What a submission leaves behind: its outcome and, if it goes out, its chain for the device. */
  ghost predicate LeftBehind(m0: Memory, r: Core, t: Core, sub: Submission)
    requires sub.Valid(|r.vqs|) && |r.vqs| == |r.hist.queues|
  {
    && Outcome(r, t, sub)
    && (Admits(r, sub) ==>
          Readable(Image(m0, t.log), r.vqs[sub.vq], sub) && Published(Image(m0, t.log), r.vqs[sub.vq], sub))
  }

  /** After any such run, a submission that goes out leaves its whole chain for the device to read. */
  lemma SubmissionTheorem(m0: Memory, s: Core, acts: seq<Action>, sub: Submission)
    requires Shaped(s) && ValidActions(|s.vqs|, acts) && SmallDeviceRun(acts) && sub.Valid(|s.vqs|) && Short(|acts|)
    requires ReadableFirst(sub.parts)
    ensures LeftBehind(m0, Run(Reset(s), acts), Submit(Run(Reset(s), acts), sub), sub)
  {
    GuardTheorem(s, acts, sub);
    GoesThroughByNumbers(s, acts, sub);
    if Admits(Run(Reset(s), acts), sub) {
      DeviceView(m0, s, acts, sub);
    }
  }

  /** How far behind the first the `i`-th of some buffers lies. */
  function Offset(lens: seq<nat>, i: nat): nat
    requires i <= |lens|
  {
    if i == 0 then 0 else (lens[0] + 16) / 16 * 16 + Offset(lens[1..], i - 1)
  }

  /** Buffer `i` of some parts taken from state `r`. */
  predicate IsBuffer(b: Buf, r: Core, lens: seq<nat>, i: nat)
    requires i < |lens|
  {
    b.gpa == r.bufAlloc + Offset(lens, i) && b.len == lens[i]
  }

  lemma OffsetNext(r: Core, r1: Core, lens: seq<nat>, i: nat, b: Buf)
    requires 0 < i < |lens| && r1.bufAlloc == r.bufAlloc + (lens[0] + 16) / 16 * 16
    requires IsBuffer(b, r1, lens[1..], i - 1)
    ensures IsBuffer(b, r, lens, i)
  {
  }

  lemma {:induction false} BuffersAt(s: Core, parts: seq<Part>, named: bool)
    requires s.bufAlloc % 16 == 0 && AllocAll(s, parts, named).1.Some?
    ensures var bs := AllocAll(s, parts, named).1.value;
            forall i | 0 <= i < |parts| :: IsBuffer(bs[i], s, Lengths(parts), i)
    decreases |parts|
  {
    if parts != [] {
      var (s1, b) := AllocPart(s, parts[0].chunks, named);
      var bs := AllocAll(s1, parts[1..], named).1.value;
      ReservedFacts(s.bufAlloc, TotalLength(parts[0].chunks));
      PaddedTo16(TotalLength(parts[0].chunks));
      BuffersAt(s1, parts[1..], named);
      assert Lengths(parts)[1..] == Lengths(parts[1..]);
      BuffersCons(s, s1, Lengths(parts), b.value, bs);
    }
  }

  lemma BuffersCons(r: Core, r1: Core, lens: seq<nat>, b: Buf, bs: seq<Buf>)
    requires lens != [] && |bs| == |lens| - 1 && r1.bufAlloc == r.bufAlloc + (lens[0] + 16) / 16 * 16
    requires b == Buf(r.bufAlloc, lens[0]) && forall i | 0 <= i < |bs| :: IsBuffer(bs[i], r1, lens[1..], i)
    ensures forall i | 0 <= i < |lens| :: IsBuffer(([b] + bs)[i], r, lens, i)
  {
    forall i | 0 <= i < |lens| ensures IsBuffer(([b] + bs)[i], r, lens, i) {
      if i > 0 {
        OffsetNext(r, r1, lens, i, bs[i - 1]);
      }
    }
  }

  /** The buffers of a named allocation are entered under the next ids, one after the other. */
  ghost predicate Entered(s: Core, t: Core, bs: seq<Buf>) {
    && t.synthId == (s.synthId + |bs|) % 0x1_0000_0000
    && (forall i | 0 <= i < |bs| :: HasEntry(t.bufs, s.synthId + i, bs[i]))
    && forall id | id < s.synthId || id >= s.synthId + |bs| :: (id in t.bufs <==> id in s.bufs)
         && (id in s.bufs ==> t.bufs[id] == s.bufs[id])
  }

  predicate HasEntry(bufs: map<u32, Buf>, id: int, b: Buf) { id in bufs && bufs[id] == b }

  lemma EnteredOne(s: Core, t: Core, b: Buf)
    requires t.synthId == (s.synthId + 1) % 0x1_0000_0000 && t.bufs == s.bufs[s.synthId := b]
    ensures Entered(s, t, [b])
  {
  }

  lemma EnteredCons(s: Core, s1: Core, t: Core, b: Buf, bs: seq<Buf>)
    requires bs != [] && s.synthId + 1 + |bs| <= 0x1_0000_0000
    requires s1.synthId == s.synthId + 1 && s1.bufs == s.bufs[s.synthId := b] && Entered(s1, t, bs)
    ensures Entered(s, t, [b] + bs)
  {
    var all, at := [b] + bs, s.synthId;
    forall i | 0 <= i < |all| ensures HasEntry(t.bufs, at + i, all[i]) {
      if i == 0 {
        assert HasEntry(s1.bufs, at, b);
      } else {
        assert HasEntry(t.bufs, s1.synthId + (i - 1), bs[i - 1]);
      }
    }
    forall id | id < at || id >= at + |all|
      ensures (id in t.bufs <==> id in s.bufs) && (id in s.bufs ==> t.bufs[id] == s.bufs[id])
    {
      assert id != at && (id in s1.bufs <==> id in s.bufs);
    }
  }

  lemma {:induction false} AllocAllEnters(s: Core, parts: seq<Part>)
    requires parts != [] && AllocAll(s, parts, true).1.Some? && IdsLeft(s, |parts|)
    ensures Entered(s, AllocAll(s, parts, true).0, AllocAll(s, parts, true).1.value)
    decreases |parts|
  {
    var (s1, b) := AllocPart(s, parts[0].chunks, true);
    if |parts| == 1 {
      assert AllocAll(s1, parts[1..], true) == (s1, Some([]));
      EnteredOne(s, s1, b.value);
    } else {
      SmallMod(s.synthId + 1, 0x1_0000_0000);
      AllocAllEnters(s1, parts[1..]);
      EnteredCons(s, s1, AllocAll(s, parts, true).0, b.value, AllocAll(s1, parts[1..], true).1.value);
    }
  }

  /** A submission that goes out enters its buffers in the map, where a later VqAddDesc finds them: one
      after the other under the next ids and from the place where the allocator stood. */
  lemma BuffersEntered(s: Core, acts: seq<Action>, sub: Submission)
    requires Shaped(s) && ValidActions(|s.vqs|, acts) && SmallDeviceRun(acts) && sub.Valid(|s.vqs|) && Short(|acts|)
    requires sub.named && Admits(Run(Reset(s), acts), sub)
    ensures var r := Run(Reset(s), acts); var bs := AllocAll(r, sub.parts, true).1;
            && bs.Some? && Entered(r, Submit(r, sub), bs.value)
            && forall i | 0 <= i < |sub.parts| :: IsBuffer(bs.value[i], r, Lengths(sub.parts), i)
  {
    GoesThroughByNumbers(s, acts, sub);
    BuffersEnteredAt(Run(Reset(s), acts), sub);
  }

  lemma BuffersEnteredAt(r: Core, sub: Submission)
    requires Shaped(r) && sub.Valid(|r.vqs|) && r.bufAlloc % 16 == 0
    requires GoesThrough(r, sub) && sub.named && IdsLeft(r, |sub.parts|)
    ensures var bs := AllocAll(r, sub.parts, true).1;
            && bs.Some? && Entered(r, Submit(r, sub), bs.value)
            && forall i | 0 <= i < |sub.parts| :: IsBuffer(bs.value[i], r, Lengths(sub.parts), i)
  {
    AllocSucceeds(r, sub.parts, true);
    BuffersAt(r, sub.parts, true);
    AllocAllEnters(r, sub.parts);
    SubmitMap(r, sub);
    EnteredKept(r, AllocAll(r, sub.parts, true).0, Submit(r, sub), AllocAll(r, sub.parts, true).1.value);
  }

  lemma SubmitMap(r: Core, sub: Submission)
    requires Shaped(r) && sub.Valid(|r.vqs|) && HasRoom(r, sub.vq, sub.slack)
    requires AllocAll(r, sub.parts, sub.named).1.Some?
    ensures var s1 := AllocAll(r, sub.parts, sub.named).0;
            Submit(r, sub).bufs == s1.bufs && Submit(r, sub).synthId == s1.synthId
  {
    var s1, bufs, s2 := SubmitUnfolds(r, sub);
    PlaceAllFrame(s1, sub.vq, bufs[..sub.placed], sub.parts);
  }

  lemma EnteredKept(s: Core, t: Core, u: Core, bs: seq<Buf>)
    requires Entered(s, t, bs) && u.bufs == t.bufs && u.synthId == t.synthId
    ensures Entered(s, u, bs)
  {
  }
}
