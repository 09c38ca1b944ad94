/** Runs made of typed submissions: descriptors and ring entries are never reused, and at every
    single write the entries below `avail.idx` are already in memory
    (sections 2.7.13.1 to 2.7.13.3 of VIRTIO 1.2). */
module Ordering {
  import opened Bytes
  import opened Guest
  import opened QueueSize
  import opened Virtqueue
  import opened Pool
  import opened Confinement
  import opened Refinement
  import opened SubmissionTheorems

  predicate Writes(e: Event, a: nat, n: nat) {
    e.MemWrite? && e.gpa == a && |e.data| == n
  }

  predicate Wrote(es: seq<Event>, a: nat, n: nat) {
    exists i | 0 <= i < |es| :: Writes(es[i], a, n)
  }

  /** Once `avail.idx` has been written, every ring entry below it has been written, and so has every
      descriptor up to the one it names: the whole chain that ends there, and all chains before it. */
  ghost predicate Announced(m: Memory, es: seq<Event>, v: nat) {
    Wrote(es, IdxAddr(v), 2) ==>
      forall i | 0 <= i < IdxAt(m, v) ::
        && Wrote(es, RingAddr(v, i), 2)
        && forall k | 0 <= k <= RingAt(m, v, i) :: Wrote(es, DescAddr(v, k), 16)
  }

  /** `Announced` at every prefix of the calls made since position `start`. */
  ghost predicate AlwaysAnnounced(m0: Memory, log: seq<Event>, start: nat, n: nat) {
    forall k, v | start <= k <= |log| && 0 <= v < n :: AnnouncedAt(m0, log, start, k, v)
  }

  ghost predicate AnnouncedAt(m0: Memory, log: seq<Event>, start: nat, k: nat, v: nat)
    requires start <= k <= |log|
  {
    Announced(Image(m0, log[..k]), log[start..k], v)
  }

  /** No descriptor slot and no ring slot of any of the `n` queues is written twice. */
  ghost predicate NoRewrite(es: seq<Event>, n: nat) {
    forall i, j | 0 <= i < j < |es| :: !SameSlot(es[i], es[j], n)
  }

  ghost predicate SameSlot(e: Event, f: Event, n: nat) {
    exists v, k | 0 <= v < n && 0 <= k < 256 ::
      (Writes(e, DescAddr(v, k), 16) && Writes(f, DescAddr(v, k), 16))
      || (Writes(e, RingAddr(v, k), 2) && Writes(f, RingAddr(v, k), 2))
  }

  // What one queue's part of memory and of the log look like: `descs` descriptors written,
  // `ring` ring entries written, `idx` of them announced.

  datatype Counts = Counts(descs: nat, ring: nat, idx: nat)

  ghost predicate Progress(m: Memory, es: seq<Event>, v: nat, c: Counts) {
    && c.idx <= c.ring <= c.descs <= 256
    && (forall k | 0 <= k < 256 :: Wrote(es, DescAddr(v, k), 16) <==> k < c.descs)
    && (forall k | 0 <= k < 256 :: Wrote(es, RingAddr(v, k), 2) <==> k < c.ring)
    && (forall k | 0 <= k < c.ring :: RingAt(m, v, k) < c.descs)
    && (Wrote(es, IdxAddr(v), 2) ==> IdxAt(m, v) == c.idx)
  }

  lemma ProgressAnnounces(m: Memory, es: seq<Event>, v: nat, c: Counts)
    requires Progress(m, es, v, c)
    ensures Announced(m, es, v)
  {
  }

  lemma WroteSnoc(es: seq<Event>, e: Event, a: nat, n: nat)
    ensures Wrote(es + [e], a, n) <==> Wrote(es, a, n) || Writes(e, a, n)
  {
    if Wrote(es, a, n) {
      var i :| 0 <= i < |es| && Writes(es[i], a, n);
      assert Writes((es + [e])[i], a, n);
    }
    if Writes(e, a, n) {
      assert Writes((es + [e])[|es|], a, n);
    }
    if Wrote(es + [e], a, n) {
      var i :| 0 <= i < |es + [e]| && Writes((es + [e])[i], a, n);
      assert i < |es| ==> Writes(es[i], a, n);
    }
  }

  lemma OtherWrite(m: Memory, es: seq<Event>, v: nat, c: Counts, e: Event)
    requires Progress(m, es, v, c) && MissesQueue(e, v)
    ensures Progress(Apply(m, e), es + [e], v, c)
  {
    forall k | 0 <= k < 256 ensures Wrote(es + [e], DescAddr(v, k), 16) <==> k < c.descs {
      WroteSnoc(es, e, DescAddr(v, k), 16);
    }
    forall k | 0 <= k < 256 ensures Wrote(es + [e], RingAddr(v, k), 2) <==> k < c.ring {
      WroteSnoc(es, e, RingAddr(v, k), 2);
    }
    forall k | 0 <= k < c.ring ensures RingAt(Apply(m, e), v, k) < c.descs {
      assert RingAt(m, v, k) < c.descs;
      PeekMiss(m, e, RingAddr(v, k), 2);
    }
    WroteSnoc(es, e, IdxAddr(v), 2);
    PeekMiss(m, e, IdxAddr(v), 2);
  }

  lemma DescWrite(m: Memory, es: seq<Event>, v: nat, c: Counts, d: Desc)
    requires Progress(m, es, v, c) && c.descs < 256 && v < 8
    ensures var e := MemWrite(DescAddr(v, c.descs), EncodeDesc(d));
            Progress(Apply(m, e), es + [e], v, c.(descs := c.descs + 1))
  {
    var e := MemWrite(DescAddr(v, c.descs), EncodeDesc(d));
    forall k | 0 <= k < 256 ensures Wrote(es + [e], DescAddr(v, k), 16) <==> k < c.descs + 1 {
      WroteSnoc(es, e, DescAddr(v, k), 16);
    }
    forall k | 0 <= k < 256 ensures Wrote(es + [e], RingAddr(v, k), 2) <==> k < c.ring {
      WroteSnoc(es, e, RingAddr(v, k), 2);
    }
    forall k | 0 <= k < c.ring ensures RingAt(Apply(m, e), v, k) < c.descs {
      assert RingAt(m, v, k) < c.descs;
      PeekMiss(m, e, RingAddr(v, k), 2);
    }
    WroteSnoc(es, e, IdxAddr(v), 2);
    PeekMiss(m, e, IdxAddr(v), 2);
  }

  lemma RingSlotWrite(m: Memory, es: seq<Event>, v: nat, c: Counts, index: u16)
    requires Progress(m, es, v, c) && c.ring < c.descs && index < c.descs && v < 8
    ensures var e := MemWrite(RingAddr(v, c.ring), Le16(index));
            Progress(Apply(m, e), es + [e], v, c.(ring := c.ring + 1))
  {
    var e := MemWrite(RingAddr(v, c.ring), Le16(index));
    forall k | 0 <= k < 256 ensures Wrote(es + [e], DescAddr(v, k), 16) <==> k < c.descs {
      WroteSnoc(es, e, DescAddr(v, k), 16);
    }
    forall k | 0 <= k < 256 ensures Wrote(es + [e], RingAddr(v, k), 2) <==> k < c.ring + 1 {
      WroteSnoc(es, e, RingAddr(v, k), 2);
    }
    forall k | 0 <= k < c.ring + 1 ensures RingAt(Apply(m, e), v, k) < c.descs {
      if k == c.ring {
        PeekHit(m, RingAddr(v, k), Le16(index));
      } else {
        assert RingAt(m, v, k) < c.descs;
        PeekMiss(m, e, RingAddr(v, k), 2);
      }
    }
    WroteSnoc(es, e, IdxAddr(v), 2);
    PeekMiss(m, e, IdxAddr(v), 2);
  }

  lemma IdxWrite(m: Memory, es: seq<Event>, v: nat, c: Counts)
    requires Progress(m, es, v, c) && c.idx < c.ring && v < 8
    ensures var e := MemWrite(IdxAddr(v), Le16(c.idx + 1));
            Progress(Apply(m, e), es + [e], v, c.(idx := c.idx + 1))
  {
    var e := MemWrite(IdxAddr(v), Le16(c.idx + 1));
    forall k | 0 <= k < 256 ensures Wrote(es + [e], DescAddr(v, k), 16) <==> k < c.descs {
      WroteSnoc(es, e, DescAddr(v, k), 16);
    }
    forall k | 0 <= k < 256 ensures Wrote(es + [e], RingAddr(v, k), 2) <==> k < c.ring {
      WroteSnoc(es, e, RingAddr(v, k), 2);
    }
    forall k | 0 <= k < c.ring ensures RingAt(Apply(m, e), v, k) < c.descs {
      assert RingAt(m, v, k) < c.descs;
      PeekMiss(m, e, RingAddr(v, k), 2);
    }
    PeekHit(m, IdxAddr(v), Le16(c.idx + 1));
  }

  // All queues together, one call at a time.

  ghost predicate Tracked(m0: Memory, log: seq<Event>, start: nat, cs: seq<Counts>) {
    && start <= |log| && |cs| <= 8
    && (forall v | 0 <= v < |cs| :: Progress(Image(m0, log), log[start..], v, cs[v]))
    && AlwaysAnnounced(m0, log, start, |cs|)
    && NoRewrite(log[start..], |cs|)
  }

  /** A call that rewrites no slot. */
  ghost predicate FreshCall(es: seq<Event>, e: Event, n: nat) {
    forall v, k | 0 <= v < n && 0 <= k < 256 ::
      (Writes(e, DescAddr(v, k), 16) ==> !Wrote(es, DescAddr(v, k), 16))
      && (Writes(e, RingAddr(v, k), 2) ==> !Wrote(es, RingAddr(v, k), 2))
  }

  lemma NoRewriteSnoc(es: seq<Event>, e: Event, n: nat)
    requires NoRewrite(es, n) && FreshCall(es, e, n)
    ensures NoRewrite(es + [e], n)
  {
    var all := es + [e];
    forall i, j | 0 <= i < j < |all| ensures !SameSlot(all[i], all[j], n) {
      if j < |es| {
        assert !SameSlot(es[i], es[j], n);
      } else {
        forall v, k | 0 <= v < n && 0 <= k < 256
          ensures !(Writes(es[i], DescAddr(v, k), 16) && Writes(e, DescAddr(v, k), 16))
          ensures !(Writes(es[i], RingAddr(v, k), 2) && Writes(e, RingAddr(v, k), 2))
        {
        }
      }
    }
  }

  lemma AnnouncedSnoc(m0: Memory, log: seq<Event>, start: nat, e: Event, n: nat)
    requires start <= |log| && AlwaysAnnounced(m0, log, start, n)
    requires forall v | 0 <= v < n :: Announced(Apply(Image(m0, log), e), log[start..] + [e], v)
    ensures AlwaysAnnounced(m0, log + [e], start, n)
  {
    var all := log + [e];
    ImageSnoc(m0, log, e);
    forall k, v | start <= k <= |all| && 0 <= v < n ensures AnnouncedAt(m0, all, start, k, v) {
      if k <= |log| {
        assert all[..k] == log[..k] && all[start..k] == log[start..k];
        assert AnnouncedAt(m0, log, start, k, v);
      } else {
        assert all[..k] == all && all[start..k] == log[start..] + [e];
      }
    }
  }

  /** One call that moves the counts of queue `v` (or of none) to `c`. */
  lemma TrackedSnoc(m0: Memory, log: seq<Event>, start: nat, cs: seq<Counts>, e: Event, v: nat, c: Counts)
    requires Tracked(m0, log, start, cs) && v < |cs|
    requires FreshCall(log[start..], e, |cs|)
    requires forall w | 0 <= w < |cs| && w != v :: MissesQueue(e, w)
    requires Progress(Apply(Image(m0, log), e), log[start..] + [e], v, c)
    ensures Tracked(m0, log + [e], start, cs[v := c])
  {
    var es := log[start..];
    var m := Image(m0, log);
    ImageSnoc(m0, log, e);
    assert (log + [e])[start..] == es + [e];
    var after := cs[v := c];
    forall w | 0 <= w < |cs|
      ensures Progress(Apply(m, e), es + [e], w, after[w]) && Announced(Apply(m, e), es + [e], w)
    {
      if w != v {
        OtherWrite(m, es, w, cs[w], e);
      }
      ProgressAnnounces(Apply(m, e), es + [e], w, after[w]);
    }
    AnnouncedSnoc(m0, log, start, e, |cs|);
    NoRewriteSnoc(es, e, |cs|);
  }

  // Pool writes and register accesses.

  lemma PoolCallIsFresh(es: seq<Event>, e: Event, n: nat)
    requires n <= 8 && PoolEvent(n, e)
    ensures FreshCall(es, e, n) && forall w | 0 <= w < n :: MissesQueue(e, w)
  {
    forall v, k | 0 <= v < n && 0 <= k < 256
      ensures !Writes(e, DescAddr(v, k), 16) && !Writes(e, RingAddr(v, k), 2)
    {
    }
  }

  lemma {:induction false} PoolCallsTracked(m0: Memory, log: seq<Event>, start: nat, cs: seq<Counts>, es: seq<Event>)
    requires Tracked(m0, log, start, cs) && PoolEvents(|cs|, es) && cs != []
    ensures Tracked(m0, log + es, start, cs)
  {
    if es == [] {
      assert log + es == log;
    } else {
      var k := |es| - 1;
      PoolCallsTracked(m0, log, start, cs, es[..k]);
      var mid := log + es[..k];
      PoolCallIsFresh(mid[start..], es[k], |cs|);
      OtherWrite(Image(m0, mid), mid[start..], 0, cs[0], es[k]);
      TrackedSnoc(m0, mid, start, cs, es[k], 0, cs[0]);
      assert cs[0 := cs[0]] == cs && log + es == mid + [es[k]];
    }
  }

  // Runs of typed submissions.

  /** Everything but raw descriptors (`VqAddDesc`) and resets: typed submissions, queue setups,
      buffer writes, raw pool writes and register accesses. */
  predicate TypedAction(a: Action) {
    !a.DoAddDesc? && !a.DoReset?
  }

  predicate TypedRun(acts: seq<Action>) {
    forall a | a in acts :: TypedAction(a)
  }

  /** The counts of a queue in state `q`. */
  function Standing(q: Vq): Counts { Counts(q.nextDesc, q.nextAvail, q.nextAvail) }

  function CountsOf(s: Core): (cs: seq<Counts>)
    ensures |cs| == |s.vqs|
    ensures forall v | 0 <= v < |cs| :: cs[v] == Standing(s.vqs[v])
  {
    seq(|s.vqs|, v requires 0 <= v < |s.vqs| => Standing(s.vqs[v]))
  }

  /** Every index published so far was below the queue size of its time. */
  ghost predicate IndicesInRange(a: AbstractQueue) {
    forall p | p in a.pubs :: p.index < p.size
  }

  ghost predicate HistoryOk(s: Core) {
    Shaped(s) && forall v | 0 <= v < |s.vqs| ::
      |s.hist.queues[v].placed| == s.vqs[v].nextDesc && IndicesInRange(s.hist.queues[v])
  }

  ghost predicate Orderly(m0: Memory, s: Core) {
    && QueuesOk(s) && HistoryOk(s)
    && Tracked(m0, s.log, s.hist.start, CountsOf(s))
  }

  lemma QuietOrderly(m0: Memory, s: Core, r: Core)
    requires Orderly(m0, s) && Quiet(s, r)
    ensures Orderly(m0, r)
  {
    var es := r.log[|s.log|..];
    assert r.log == s.log + es;
    PoolCallsTracked(m0, s.log, s.hist.start, CountsOf(s), es);
    assert CountsOf(r) == CountsOf(s);
  }

  lemma QueuesApart(v: nat, w: nat)
    requires v != w
    ensures DescBase(v) + STRIDE <= DescBase(w) || DescBase(w) + STRIDE <= DescBase(v)
  {
  }

  lemma DescFresh(es: seq<Event>, m: Memory, v: nat, n: nat, c: Counts, d: Desc)
    requires v < n <= 8 && Progress(m, es, v, c) && c.descs < 256
    ensures FreshCall(es, MemWrite(DescAddr(v, c.descs), EncodeDesc(d)), n)
  {
    var e := MemWrite(DescAddr(v, c.descs), EncodeDesc(d));
    forall w, k | 0 <= w < n && 0 <= k < 256
      ensures Writes(e, DescAddr(w, k), 16) ==> !Wrote(es, DescAddr(w, k), 16)
      ensures !Writes(e, RingAddr(w, k), 2)
    {
      if Writes(e, DescAddr(w, k), 16) {
        SameQueue(v, c.descs, w, k);
      }
    }
  }

  lemma SameQueue(v: nat, j: nat, w: nat, k: nat)
    requires j < 256 && k < 256 && DescAddr(v, j) == DescAddr(w, k)
    ensures v == w && j == k
  {
    if v != w {
      QueuesApart(v, w);
    }
  }

  lemma RingFresh(es: seq<Event>, m: Memory, v: nat, n: nat, c: Counts, index: u16)
    requires v < n <= 8 && Progress(m, es, v, c) && c.ring < 256
    ensures FreshCall(es, MemWrite(RingAddr(v, c.ring), Le16(index)), n)
  {
    var e := MemWrite(RingAddr(v, c.ring), Le16(index));
    forall w, k | 0 <= w < n && 0 <= k < 256
      ensures Writes(e, RingAddr(w, k), 2) ==> !Wrote(es, RingAddr(w, k), 2)
      ensures !Writes(e, DescAddr(w, k), 16)
    {
      if Writes(e, RingAddr(w, k), 2) {
        if v != w {
          QueuesApart(v, w);
        }
      }
    }
  }

  lemma IdxFresh(es: seq<Event>, v: nat, n: nat, value: u16)
    requires v < n <= 8
    ensures FreshCall(es, MemWrite(IdxAddr(v), Le16(value)), n)
  {
    var e := MemWrite(IdxAddr(v), Le16(value));
    forall w, k | 0 <= w < n && 0 <= k < 256
      ensures !Writes(e, RingAddr(w, k), 2) && !Writes(e, DescAddr(w, k), 16)
    {
      if v != w {
        QueuesApart(v, w);
      }
    }
  }

  lemma MissOthers(e: Event, v: nat, n: nat)
    requires e.MemWrite? && DescBase(v) <= e.gpa && e.gpa + |e.data| <= DescBase(v) + STRIDE
    ensures forall w | 0 <= w < n && w != v :: MissesQueue(e, w)
  {
    forall w | 0 <= w < n && w != v ensures MissesQueue(e, w) {
      QueuesApart(v, w);
    }
  }

  lemma DescTracked(m0: Memory, log: seq<Event>, start: nat, cs: seq<Counts>, v: nat, c: Counts, d: Desc)
    requires Tracked(m0, log, start, cs) && v < |cs| && cs[v] == c && c.descs < 256
    ensures Tracked(m0, log + [MemWrite(DescAddr(v, c.descs), EncodeDesc(d))], start, cs[v := c.(descs := c.descs + 1)])
  {
    var e := MemWrite(DescAddr(v, c.descs), EncodeDesc(d));
    var m, es := Image(m0, log), log[start..];
    DescFresh(es, m, v, |cs|, c, d);
    DescWrite(m, es, v, c, d);
    MissOthers(e, v, |cs|);
    TrackedSnoc(m0, log, start, cs, e, v, c.(descs := c.descs + 1));
  }

  lemma RingTracked(m0: Memory, log: seq<Event>, start: nat, cs: seq<Counts>, v: nat, c: Counts, index: u16)
    requires Tracked(m0, log, start, cs) && v < |cs| && cs[v] == c && c.ring < c.descs && index < c.descs
    ensures Tracked(m0, log + [MemWrite(RingAddr(v, c.ring), Le16(index))], start, cs[v := c.(ring := c.ring + 1)])
  {
    var e := MemWrite(RingAddr(v, c.ring), Le16(index));
    var m, es := Image(m0, log), log[start..];
    RingFresh(es, m, v, |cs|, c, index);
    RingSlotWrite(m, es, v, c, index);
    MissOthers(e, v, |cs|);
    TrackedSnoc(m0, log, start, cs, e, v, c.(ring := c.ring + 1));
  }

  lemma IdxTracked(m0: Memory, log: seq<Event>, start: nat, cs: seq<Counts>, v: nat, c: Counts)
    requires Tracked(m0, log, start, cs) && v < |cs| && cs[v] == c && c.idx < c.ring <= 256
    ensures Tracked(m0, log + [MemWrite(IdxAddr(v), Le16(c.idx + 1))], start, cs[v := c.(idx := c.idx + 1)])
  {
    var e := MemWrite(IdxAddr(v), Le16(c.idx + 1));
    var m, es := Image(m0, log), log[start..];
    IdxFresh(es, v, |cs|, c.idx + 1);
    IdxWrite(m, es, v, c);
    MissOthers(e, v, |cs|);
    TrackedSnoc(m0, log, start, cs, e, v, c.(idx := c.idx + 1));
  }

  /** While the counters are below the size, a placement writes the next fresh slots. */
  lemma FreshSlots(v: nat, q: Vq, d: Desc)
    requires LaidOut(q, v) && q.nextAvail <= q.nextDesc < q.size
    ensures DescEvent(q, d) == MemWrite(DescAddr(v, q.nextDesc), EncodeDesc(d))
    ensures RingEvent(q) == MemWrite(RingAddr(v, q.nextAvail), Le16(q.nextDesc))
    ensures IndexEvent(q) == MemWrite(IdxAddr(v), Le16(q.nextAvail + 1))
  {
    SmallMod(q.nextDesc, q.size);
    SmallMod(q.nextAvail, q.size);
    SmallProducts(q.nextDesc);
    SmallProducts(q.nextAvail);
    SmallCounters(q.nextDesc, q.nextAvail);
  }

  lemma SmallCounters(next: u32, avail: u32)
    requires next < 256 && avail < 256
    ensures Wrap16(next) == next && Wrap32(next + 1) == next + 1 && Wrap16(Wrap32(avail + 1)) == avail + 1
  {
  }

  lemma FreshCounts(q: Vq, more: bool)
    requires q.nextAvail <= q.nextDesc < 256
    ensures Standing(Advance(q, more)) ==
            if more then Counts(q.nextDesc + 1, q.nextAvail, q.nextAvail)
            else Counts(q.nextDesc + 1, q.nextAvail + 1, q.nextAvail + 1)
  {
  }

  /** The counts once a chain is announced. */
  function Announce(c: Counts): Counts { Counts(c.descs, c.ring + 1, c.idx + 1) }

  lemma PublishTracked(
    m0: Memory, log: seq<Event>, start: nat, cs: seq<Counts>, v: nat, c: Counts, index: u16, e: Event, f: Event)
    requires Tracked(m0, log, start, cs) && v < |cs| && cs[v] == c
    requires c.idx == c.ring < c.descs <= 256 && index < c.descs
    requires e == MemWrite(RingAddr(v, c.ring), Le16(index)) && f == MemWrite(IdxAddr(v), Le16(c.idx + 1))
    ensures Tracked(m0, log + [e] + [f], start, cs[v := Announce(c)])
  {
    var c1 := c.(ring := c.ring + 1);
    RingTracked(m0, log, start, cs, v, c, index);
    AnnounceTracked(m0, log + [e], start, cs, cs[v := c1], v, c, f);
  }

  lemma AnnounceTracked(
    m0: Memory, log: seq<Event>, start: nat, cs: seq<Counts>, cs1: seq<Counts>, v: nat, c: Counts, f: Event)
    requires v < |cs| && c.idx == c.ring < c.descs <= 256
    requires cs1 == cs[v := c.(ring := c.ring + 1)] && Tracked(m0, log, start, cs1)
    requires f == MemWrite(IdxAddr(v), Le16(c.idx + 1))
    ensures Tracked(m0, log + [f], start, cs[v := Announce(c)])
  {
    var c1 := c.(ring := c.ring + 1);
    IdxTracked(m0, log, start, cs1, v, c1);
    Overwrite(cs, v, c1, Announce(c));
  }

  lemma Overwrite(cs: seq<Counts>, v: nat, c: Counts, d: Counts)
    requires v < |cs|
    ensures cs[v := c][v := d] == cs[v := d]
  {
  }

  lemma Append3(log: seq<Event>, e: Event, f: Event, g: Event)
    ensures log + [e] + [f] + [g] == log + [e, f, g]
  {
  }

  lemma PlacementTracked(m0: Memory, log: seq<Event>, start: nat, cs: seq<Counts>, v: nat, q: Vq, d: Desc, more: bool)
    requires Tracked(m0, log, start, cs) && v < |cs| && LaidOut(q, v)
    requires q.nextAvail <= q.nextDesc < q.size && cs[v] == Standing(q)
    ensures Tracked(m0, log + PlacementLog(q, d, more), start, cs[v := Standing(Advance(q, more))])
  {
    FreshSlots(v, q, d);
    FreshCounts(q, more);
    var c := Standing(q);
    DescTracked(m0, log, start, cs, v, c, d);
    if !more {
      var cs1 := cs[v := c.(descs := c.descs + 1)];
      LastTracked(m0, log + [DescEvent(q, d)], start, cs, cs1, v, c, RingEvent(q), IndexEvent(q));
      Append3(log, DescEvent(q, d), RingEvent(q), IndexEvent(q));
    }
  }

  /** The end of a chain, once its last descriptor is in `log`. */
  lemma LastTracked(
    m0: Memory, log: seq<Event>, start: nat, cs: seq<Counts>, cs1: seq<Counts>, v: nat, c: Counts, e: Event, f: Event)
    requires v < |cs| && c.idx == c.ring <= c.descs < 256
    requires cs1 == cs[v := c.(descs := c.descs + 1)] && Tracked(m0, log, start, cs1)
    requires e == MemWrite(RingAddr(v, c.ring), Le16(c.descs)) && f == MemWrite(IdxAddr(v), Le16(c.idx + 1))
    ensures Tracked(m0, log + [e] + [f], start, cs[v := Counts(c.descs + 1, c.ring + 1, c.idx + 1)])
  {
    var c1 := c.(descs := c.descs + 1);
    PublishTracked(m0, log, start, cs1, v, c1, c.descs, e, f);
    Overwrite(cs, v, c1, Announce(c1));
  }

  lemma PlaceDescOrderly(m0: Memory, s: Core, v: nat, addr: u64, len: u32, writable: bool, more: bool)
    requires Orderly(m0, s) && CanPlace(s, v) && s.vqs[v].nextDesc < s.vqs[v].size
    ensures Orderly(m0, PlaceDesc(s, v, addr, len, writable, more))
  {
    var q := s.vqs[v];
    var d := DescFor(q, addr, len, writable, more);
    var r := PlaceDesc(s, v, addr, len, writable, more);
    assert LaidOut(q, v);
    StandingInOrder(m0, s, v);
    PlacementTracked(m0, s.log, s.hist.start, CountsOf(s), v, q, d, more);
    assert CountsOf(r) == CountsOf(s)[v := Standing(Advance(q, more))];
    PlaceDescHistory(s, v, addr, len, writable, more);
  }

  lemma StandingInOrder(m0: Memory, s: Core, v: nat)
    requires Orderly(m0, s) && v < |s.vqs|
    ensures s.vqs[v].nextAvail <= s.vqs[v].nextDesc <= 256
  {
    var c := CountsOf(s)[v];
    assert Progress(Image(m0, s.log), s.log[s.hist.start..], v, c);
  }

  lemma PlaceDescHistory(s: Core, v: nat, addr: u64, len: u32, writable: bool, more: bool)
    requires QueuesOk(s) && HistoryOk(s) && CanPlace(s, v) && s.vqs[v].nextDesc < s.vqs[v].size
    ensures var r := PlaceDesc(s, v, addr, len, writable, more); QueuesOk(r) && HistoryOk(r)
  {
    assert LaidOut(s.vqs[v], v);
    var r := PlaceDesc(s, v, addr, len, writable, more);
    var q, a, d := s.vqs[v], s.hist.queues[v], DescFor(s.vqs[v], addr, len, writable, more);
    RecordInRange(a, d, q, more);
    forall w | 0 <= w < |r.vqs|
      ensures |r.hist.queues[w].placed| == r.vqs[w].nextDesc && IndicesInRange(r.hist.queues[w])
    {
      if w != v {
        assert r.hist.queues[w] == s.hist.queues[w] && r.vqs[w] == s.vqs[w];
      }
    }
    assert LaidOut(r.vqs[v], v);
  }

  lemma RecordInRange(a: AbstractQueue, d: Desc, q: Vq, more: bool)
    requires IndicesInRange(a) && |a.placed| == q.nextDesc < q.size <= 256
    ensures var b := Record(a, d, q.size, more); IndicesInRange(b) && |b.placed| == Advance(q, more).nextDesc
  {
    SmallCounters(q.nextDesc, 0);
    PublicationInRange(a, Publication(q.nextDesc, q.size));
  }

  lemma PublicationInRange(a: AbstractQueue, p: Publication)
    requires IndicesInRange(a) && p.index < p.size
    ensures forall x | x in a.pubs + [p] :: x.index < x.size
  {
  }

  lemma {:induction false} PlaceAllOrderly(m0: Memory, s: Core, v: nat, bufs: seq<Buf>, parts: seq<Part>)
    requires Orderly(m0, s) && CanPlace(s, v) && |bufs| <= |parts| && s.vqs[v].nextDesc + |bufs| <= s.vqs[v].size
    ensures Orderly(m0, PlaceAll(s, v, bufs, parts))
    decreases |bufs|
  {
    if bufs != [] {
      assert LaidOut(s.vqs[v], v);
      PlaceDescOrderly(m0, s, v, bufs[0].gpa, bufs[0].len, parts[0].writable, |bufs| > 1);
      var s1 := PlaceDesc(s, v, bufs[0].gpa, bufs[0].len, parts[0].writable, |bufs| > 1);
      assert s1.vqs[v].nextDesc == s.vqs[v].nextDesc + 1 && s1.vqs[v].size == s.vqs[v].size;
      PlaceAllOrderly(m0, s1, v, bufs[1..], parts[1..]);
    }
  }

  lemma RoomWithoutWrap(m0: Memory, s: Core, sub: Submission)
    requires Orderly(m0, s) && sub.Valid(|s.vqs|) && HasRoom(s, sub.vq, sub.slack)
    ensures s.vqs[sub.vq].nextDesc + sub.placed <= s.vqs[sub.vq].size
  {
    StandingInOrder(m0, s, sub.vq);
    assert Wrap32(s.vqs[sub.vq].nextDesc + sub.slack) == s.vqs[sub.vq].nextDesc + sub.slack;
  }

  lemma SubmitOrderly(m0: Memory, s: Core, sub: Submission)
    requires Orderly(m0, s) && sub.Valid(|s.vqs|) && PoolOk(s, BufPoolBase(|s.vqs|))
    ensures Orderly(m0, Submit(s, sub))
  {
    AllocAllOk(s, sub.parts, sub.named, BufPoolBase(|s.vqs|));
    var (s1, bs) := AllocAll(s, sub.parts, sub.named);
    QuietOrderly(m0, s, s1);
    if HasRoom(s, sub.vq, sub.slack) && bs.Some? {
      RoomWithoutWrap(m0, s, sub);
      var s1', bufs, s2 := SubmitUnfolds(s, sub);
      PlaceAllOrderly(m0, s1, sub.vq, bufs[..sub.placed], sub.parts);
      QuietEmit(s2, Registers([RegWrite(R_QUEUE_NOTIFY, sub.vq)] + sub.tail));
      QuietOrderly(m0, s2, Submit(s, sub));
    }
  }

  lemma RegistersOrderly(m0: Memory, s: Core, es: seq<Event>)
    requires Orderly(m0, s) && forall i | 0 <= i < |es| :: es[i].Mmio?
    ensures Orderly(m0, Emit(s, es))
  {
    QuietEmit(s, es);
    QuietOrderly(m0, s, Emit(s, es));
  }

  /** A new size changes no count. */
  lemma ResizeOrderly(m0: Memory, s: Core, v: u32, size: u32)
    requires Orderly(m0, s) && v < |s.vqs| && IsPow2(size) && size <= 256
    ensures Orderly(m0, s.(vqs := s.vqs[v := s.vqs[v].(size := size)]))
  {
    var r := s.(vqs := s.vqs[v := s.vqs[v].(size := size)]);
    assert LaidOut(s.vqs[v], v);
    assert CountsOf(r) == CountsOf(s);
  }

  lemma VqSetupOrderly(m0: Memory, s: Core, v: u32, requested: u32, max: u32)
    requires Orderly(m0, s) && max <= 256
    ensures Orderly(m0, VqSetup(s, v, requested, max))
  {
    if v < |s.vqs| {
      var es := Registers([RegWrite(R_QUEUE_SEL, v), RegRead(R_QUEUE_NUM_MAX)]);
      RegistersOrderly(m0, s, es);
      if max != 0 {
        var s1, size := Emit(s, es), QueueSizeFor(requested, max);
        ResizeOrderly(m0, s1, v, size);
        var q := s.vqs[v].(size := size);
        RegistersOrderly(m0, s1.(vqs := s1.vqs[v := q]), Registers(SetupAccesses(v, size, q)));
      }
    }
  }

  lemma StepOrderly(m0: Memory, s: Core, a: Action)
    requires Orderly(m0, s) && a.Valid(|s.vqs|) && SmallDevice(a) && TypedAction(a)
    requires PoolOk(s, BufPoolBase(|s.vqs|))
    ensures Orderly(m0, Step(s, a))
  {
    match a
    case TouchRegisters(accesses) => RegistersOrderly(m0, s, Registers(accesses));
    case DoVqSetup(v, requested, max) => VqSetupOrderly(m0, s, v, requested, max);
    case DoGuestMemWrite(id, data) =>
      GuestMemWriteOk(s, id, data, BufPoolBase(|s.vqs|));
      QuietOrderly(m0, s, Step(s, a));
    case DoStage(chunks) =>
      StageOk(s, chunks, BufPoolBase(|s.vqs|));
      QuietOrderly(m0, s, Step(s, a));
    case DoMemwriteAbsolute(gpa, data) =>
      if data != [] {
        var d := Truncate(data, MAX_DATA);
        QuietEmit(s, [MemWrite(AbsoluteTarget(|s.vqs|, gpa, |d|), d)]);
        QuietOrderly(m0, s, Step(s, a));
      }
    case DoSubmit(sub) => SubmitOrderly(m0, s, sub);
  }

  lemma ResetOrderly(m0: Memory, s: Core)
    requires Shaped(s)
    ensures Orderly(m0, Reset(s))
  {
    var r := Reset(s);
    ResetConfined(s);
    assert r.log[r.hist.start..] == [];
    forall k, v | r.hist.start <= k <= |r.log| && 0 <= v < |r.vqs| ensures AnnouncedAt(m0, r.log, r.hist.start, k, v) {
      assert r.log[r.hist.start..k] == [];
    }
  }

  lemma {:induction false} RunOrderly(m0: Memory, s: Core, acts: seq<Action>)
    requires ValidActions(|s.vqs|, acts) && SmallDeviceRun(acts) && TypedRun(acts)
    requires Orderly(m0, s) && PoolOk(s, BufPoolBase(|s.vqs|)) && DescsOk(s)
    ensures Orderly(m0, Run(s, acts))
  {
    if acts != [] {
      var k := |acts| - 1;
      RunOrderly(m0, s, acts[..k]);
      RunOk(s, acts[..k]);
      StepOrderly(m0, Run(s, acts[..k]), acts[k]);
    }
  }

  lemma {:induction false} StartIsKept(s: Core, acts: seq<Action>)
    requires Shaped(s) && ValidActions(|s.vqs|, acts) && TypedRun(acts)
    requires PoolOk(s, BufPoolBase(|s.vqs|)) && DescsOk(s)
    ensures Run(s, acts).hist.start == s.hist.start
  {
    if acts != [] {
      var k := |acts| - 1;
      StartIsKept(s, acts[..k]);
      RunOk(s, acts[..k]);
      StepStart(Run(s, acts[..k]), acts[k]);
    }
  }

  lemma StepStart(s: Core, a: Action)
    requires Shaped(s) && a.Valid(|s.vqs|) && TypedAction(a) && PoolOk(s, BufPoolBase(|s.vqs|))
    ensures Step(s, a).hist.start == s.hist.start
  {
    if a.DoSubmit? {
      AllocAllOk(s, a.sub.parts, a.sub.named, BufPoolBase(|s.vqs|));
      var (s1, bs) := AllocAll(s, a.sub.parts, a.sub.named);
      if HasRoom(s, a.sub.vq, a.sub.slack) && bs.Some? {
        PlaceAllStart(s1, a.sub.vq, bs.value[..a.sub.placed], a.sub.parts);
      }
    }
  }

  lemma {:induction false} PlaceAllStart(s: Core, v: nat, bufs: seq<Buf>, parts: seq<Part>)
    requires CanPlace(s, v) && |bufs| <= |parts|
    ensures PlaceAll(s, v, bufs, parts).hist.start == s.hist.start
    decreases |bufs|
  {
    if bufs != [] {
      var s1 := PlaceDesc(s, v, bufs[0].gpa, bufs[0].len, parts[0].writable, |bufs| > 1);
      PlaceAllStart(s1, v, bufs[1..], parts[1..]);
    }
  }

  /** From a reset on, in any run of typed submissions, with queues set up again to any sizes the
      device allows in between: no descriptor slot and no ring slot is written twice, every
      published index is below the queue size of its time, and after every single write each
      queue's announced entries, and every descriptor up to the ones they name, are written. */
  lemma OrderingTheorem(m0: Memory, s: Core, acts: seq<Action>)
    requires Shaped(s) && ValidActions(|s.vqs|, acts) && SmallDeviceRun(acts) && TypedRun(acts)
    ensures var start, r := |Reset(s).log|, Run(Reset(s), acts);
            && start <= |r.log|
            && NoRewrite(r.log[start..], |s.vqs|)
            && AlwaysAnnounced(m0, r.log, start, |s.vqs|)
            && forall v | 0 <= v < |s.vqs| :: IndicesInRange(r.hist.queues[v])
  {
    ResetOrderly(m0, s);
    ResetOk(s);
    RunOrderly(m0, Reset(s), acts);
    StartIsKept(Reset(s), acts);
  }
}
