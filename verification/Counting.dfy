/** How fast the descriptor counters grow: at most five descriptors per action, so in a run that is
    not astronomically long no counter comes near its 32-bit wrap. */
module Counting {
  import opened Bytes
  import opened Virtqueue

  /** A run of `n` actions cannot wrap a descriptor counter, nor can the guard of one more
      submission. An iteration of the fuzzer has at most 256 ops. */
  predicate Short(n: nat) { 5 * n + 5 < TWO_32 }

  /** No more than `n` descriptors were placed on any queue, as its counter and its history say. */
  ghost predicate Bounded(s: Core, n: nat) {
    && |s.hist.queues| == |s.vqs|
    && forall v | 0 <= v < |s.vqs| :: s.vqs[v].nextDesc <= n && |s.hist.queues[v].placed| <= n
  }

  lemma WrapIsBelow(x: nat)
    ensures Wrap32(x) <= x
  {
  }

  lemma PlaceDescGrows(s: Core, v: nat, addr: u64, len: u32, writable: bool, more: bool, n: nat)
    requires CanPlace(s, v) && Bounded(s, n)
    ensures Bounded(PlaceDesc(s, v, addr, len, writable, more), n + 1)
  {
    WrapIsBelow(s.vqs[v].nextDesc + 1);
  }

  lemma {:induction false} PlaceAllGrows(s: Core, v: nat, bufs: seq<Buf>, parts: seq<Part>, n: nat)
    requires CanPlace(s, v) && |bufs| <= |parts| && Bounded(s, n)
    ensures Bounded(PlaceAll(s, v, bufs, parts), n + |bufs|)
    decreases |bufs|
  {
    if bufs != [] {
      PlaceDescGrows(s, v, bufs[0].gpa, bufs[0].len, parts[0].writable, |bufs| > 1, n);
      var s1 := PlaceDesc(s, v, bufs[0].gpa, bufs[0].len, parts[0].writable, |bufs| > 1);
      PlaceAllGrows(s1, v, bufs[1..], parts[1..], n + 1);
    }
  }

  lemma SubmitGrows(s: Core, sub: Submission, n: nat)
    requires Shaped(s) && sub.Valid(|s.vqs|) && Bounded(s, n)
    ensures Bounded(Submit(s, sub), n + 5)
  {
    if HasRoom(s, sub.vq, sub.slack) {
      AllocAllKeepsQueues(s, sub.parts, sub.named);
      var (s1, bs) := AllocAll(s, sub.parts, sub.named);
      if bs.Some? {
        PlaceAllGrows(s1, sub.vq, bs.value[..sub.placed], sub.parts, n);
      }
    }
  }

  lemma AddDescGrows(s: Core, a: Action, n: nat)
    requires Shaped(s) && a.Valid(|s.vqs|) && a.DoAddDesc? && Bounded(s, n)
    ensures Bounded(Step(s, a), n + 1)
  {
    var e := Resolve(s, a.floor, a.id, a.len, a.exotic);
    if CanPlace(s, a.vq) && e.Some? {
      PlaceDescGrows(s, a.vq, e.value.addr, e.value.len, a.writable, a.more, n);
    }
  }

  lemma StepGrows(s: Core, a: Action, n: nat)
    requires Shaped(s) && a.Valid(|s.vqs|) && Bounded(s, n)
    ensures Bounded(Step(s, a), n + 5)
  {
    if a.DoSubmit? {
      SubmitGrows(s, a.sub, n);
    } else if a.DoAddDesc? {
      AddDescGrows(s, a, n);
    }
  }

  /** Whatever the actions are, each moves a counter by at most five. */
  lemma {:induction false} RunGrows(s: Core, acts: seq<Action>, n: nat)
    requires Shaped(s) && ValidActions(|s.vqs|, acts) && Bounded(s, n)
    ensures Bounded(Run(s, acts), n + 5 * |acts|)
  {
    if acts != [] {
      var k := |acts| - 1;
      RunGrows(s, acts[..k], n);
      StepGrows(Run(s, acts[..k]), acts[k], n + 5 * k);
    }
  }

  /** In a short run from a reset the guard of a submission does not wrap, so a submission that has
      room has no more descriptors than the queue has slots. */
  lemma ShortRunsFit(s: Core, acts: seq<Action>, sub: Submission)
    requires Shaped(s) && ValidActions(|s.vqs|, acts) && sub.Valid(|s.vqs|) && Short(|acts|)
    requires HasRoom(Run(Reset(s), acts), sub.vq, sub.slack)
    ensures sub.placed <= Run(Reset(s), acts).vqs[sub.vq].size
  {
    ResetCounters(s);
    RunGrows(Reset(s), acts, 0);
    NoWrapInGuard(Run(Reset(s), acts), sub, |acts|);
  }

  lemma ResetCounters(s: Core)
    requires Shaped(s)
    ensures Bounded(Reset(s), 0) && Shaped(Reset(s)) && |Reset(s).vqs| == |s.vqs|
  {
  }

  lemma NoWrapInGuard(r: Core, sub: Submission, n: nat)
    requires sub.Valid(|r.vqs|) && HasRoom(r, sub.vq, sub.slack) && Bounded(r, 5 * n) && Short(n)
    ensures sub.placed <= r.vqs[sub.vq].size
  {
  }

  // The same for the synthetic ids.

  /** A run so short that it cannot use up the synthetic ids either. */
  predicate Brief(n: nat) { 5 * n + 5 < 0x8000_0000 }

  /** Ids start at 0x8000_0000, and at most `n` were given out. */
  predicate IdsBelow(s: Core, n: nat) { 0x8000_0000 <= s.synthId <= 0x8000_0000 + n }

  lemma {:induction false} AllocAllIds(s: Core, parts: seq<Part>, named: bool, n: nat)
    requires IdsBelow(s, n) && n + |parts| < 0x8000_0000
    ensures IdsBelow(AllocAll(s, parts, named).0, n + |parts|)
    decreases |parts|
  {
    if parts != [] {
      AllocAllIds(AllocPart(s, parts[0].chunks, named).0, parts[1..], named, n + 1);
    }
  }

  lemma SubmitIds(s: Core, sub: Submission, n: nat)
    requires Shaped(s) && sub.Valid(|s.vqs|) && IdsBelow(s, n) && n + 5 < 0x8000_0000
    ensures IdsBelow(Submit(s, sub), n + 5)
  {
    if HasRoom(s, sub.vq, sub.slack) {
      AllocAllIds(s, sub.parts, sub.named, n);
      AllocAllKeepsQueues(s, sub.parts, sub.named);
      var (s1, bs) := AllocAll(s, sub.parts, sub.named);
      if bs.Some? {
        PlaceAllFrame(s1, sub.vq, bs.value[..sub.placed], sub.parts);
      }
    }
  }

  lemma StepIds(s: Core, a: Action, n: nat)
    requires Shaped(s) && a.Valid(|s.vqs|) && IdsBelow(s, n) && n + 5 < 0x8000_0000
    ensures IdsBelow(Step(s, a), n + 5)
  {
    if a.DoSubmit? {
      SubmitIds(s, a.sub, n);
    }
  }

  /** In a run of fewer than 2^31 / 5 steps the synthetic ids never come to 0. */
  lemma {:induction false} IdsLast(s: Core, acts: seq<Action>)
    requires Shaped(s) && ValidActions(|s.vqs|, acts) && Brief(|acts|)
    ensures IdsBelow(Run(Reset(s), acts), 5 * |acts|)
  {
    if acts != [] {
      var k := |acts| - 1;
      IdsLast(s, acts[..k]);
      StepIds(Run(Reset(s), acts[..k]), acts[k], 5 * k);
    }
  }
}
