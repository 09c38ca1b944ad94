/** Where the harness writes guest memory: over any run with device maxima of at most 256, each
    write stays inside one descriptor table, one avail ring or the buffer pool. */
module Confinement {
  import opened Bytes
  import opened Guest
  import opened QueueSize
  import opened Virtqueue
  import opened Pool

  datatype Region = DescTable(v: nat) | AvailRing(v: nat) | UsedRing(v: nat) | BufferPool

  predicate RegionOf(n: nat, r: Region) {
    r.BufferPool? || r.v < n
  }

  function Lo(n: nat, r: Region): nat {
    match r
    case DescTable(v) => DescBase(v)
    case AvailRing(v) => AvailBase(v)
    case UsedRing(v) => UsedBase(v)
    case BufferPool => BufPoolBase(n)
  }

  function Hi(n: nat, r: Region): nat {
    match r
    case DescTable(v) => DescBase(v) + DESC_TABLE
    case AvailRing(v) => AvailBase(v) + AVAIL_RING
    case UsedRing(v) => UsedBase(v) + USED_RING
    case BufferPool => POOL_END
  }

  lemma RegionsDisjoint(n: nat, r: Region, t: Region)
    requires n <= 8 && RegionOf(n, r) && RegionOf(n, t) && r != t
    ensures Hi(n, r) <= Lo(n, t) || Hi(n, t) <= Lo(n, r)
  {
    InQueueArea(n, r);
    InQueueArea(n, t);
    if !r.BufferPool? && !t.BufferPool? {
      if r.v < t.v {
        assert DescBase(r.v) + STRIDE <= DescBase(t.v);
      } else if t.v < r.v {
        assert DescBase(t.v) + STRIDE <= DescBase(r.v);
      }
    }
  }

  lemma InQueueArea(n: nat, r: Region)
    requires n <= 8 && RegionOf(n, r)
    ensures POOL_BASE <= Lo(n, r) < Hi(n, r) <= POOL_END
    ensures !r.BufferPool? ==> DescBase(r.v) <= Lo(n, r) && Hi(n, r) <= DescBase(r.v) + STRIDE <= BufPoolBase(n)
  {
  }

  predicate Inside(n: nat, e: Event, r: Region) {
    e.MemWrite? ==> Lo(n, r) <= e.gpa && e.gpa + |e.data| <= Hi(n, r)
  }

  ghost predicate ConfinedEvent(n: nat, e: Event) {
    exists r: Region :: RegionOf(n, r) && !r.UsedRing? && Inside(n, e, r)
  }

  ghost predicate ConfinedFrom(n: nat, log: seq<Event>, base: nat) {
    forall i | base <= i < |log| :: ConfinedEvent(n, log[i])
  }

  /** Queue `v` has the addresses the layout gives it and a size its table can hold. */
  predicate LaidOut(q: Vq, v: nat) {
    && q.desc == DescBase(v) && q.avail == AvailBase(v) && q.used == UsedBase(v)
    && (q.size == 0 || (IsPow2(q.size) && q.size <= 256))
  }

  ghost predicate QueuesOk(s: Core) {
    && Shaped(s)
    && forall v | 0 <= v < |s.vqs| :: LaidOut(s.vqs[v], v)
  }

  /** The device never offers more than 256 entries. */
  predicate SmallDevice(a: Action) {
    a.DoVqSetup? ==> a.max <= 256
  }

  predicate SmallDeviceRun(acts: seq<Action>) {
    forall a | a in acts :: SmallDevice(a)
  }

  lemma PoolEventConfined(n: nat, e: Event)
    requires PoolEvent(n, e)
    ensures ConfinedEvent(n, e)
  {
    assert RegionOf(n, BufferPool) && Inside(n, e, BufferPool);
  }

  lemma QuietConfined(s: Core, r: Core, base: nat)
    requires QueuesOk(s) && Quiet(s, r) && ConfinedFrom(|s.vqs|, s.log, base)
    ensures QueuesOk(r) && ConfinedFrom(|r.vqs|, r.log, base)
  {
    forall i | base <= i < |r.log| ensures ConfinedEvent(|r.vqs|, r.log[i]) {
      if i >= |s.log| {
        assert r.log[i] == r.log[|s.log|..][i - |s.log|];
        PoolEventConfined(|r.vqs|, r.log[i]);
      } else {
        assert r.log[i] == s.log[i];
      }
    }
  }

  lemma QueueEventsConfined(n: nat, v: nat, q: Vq, d: Desc)
    requires v < n <= 8 && LaidOut(q, v) && q.size > 0
    ensures ConfinedEvent(n, DescEvent(q, d)) && ConfinedEvent(n, RingEvent(q)) && ConfinedEvent(n, IndexEvent(q))
  {
    assert Inside(n, DescEvent(q, d), DescTable(v));
    assert Inside(n, RingEvent(q), AvailRing(v));
    assert Inside(n, IndexEvent(q), AvailRing(v));
    assert RegionOf(n, DescTable(v)) && RegionOf(n, AvailRing(v));
  }

  lemma PlaceDescConfined(s: Core, v: nat, addr: u64, len: u32, writable: bool, more: bool, base: nat)
    requires QueuesOk(s) && CanPlace(s, v) && ConfinedFrom(|s.vqs|, s.log, base)
    ensures var r := PlaceDesc(s, v, addr, len, writable, more);
            QueuesOk(r) && ConfinedFrom(|r.vqs|, r.log, base)
  {
    QueueEventsConfined(|s.vqs|, v, s.vqs[v], DescFor(s.vqs[v], addr, len, writable, more));
  }

  lemma {:induction false} PlaceAllConfined(s: Core, v: nat, bufs: seq<Buf>, parts: seq<Part>, base: nat)
    requires QueuesOk(s) && CanPlace(s, v) && |bufs| <= |parts| && ConfinedFrom(|s.vqs|, s.log, base)
    ensures var r := PlaceAll(s, v, bufs, parts);
            QueuesOk(r) && ConfinedFrom(|r.vqs|, r.log, base)
    decreases |bufs|
  {
    if bufs != [] {
      PlaceDescConfined(s, v, bufs[0].gpa, bufs[0].len, parts[0].writable, |bufs| > 1, base);
      var s1 := PlaceDesc(s, v, bufs[0].gpa, bufs[0].len, parts[0].writable, |bufs| > 1);
      PlaceAllConfined(s1, v, bufs[1..], parts[1..], base);
    }
  }

  lemma SubmitConfined(s: Core, sub: Submission, base: nat)
    requires QueuesOk(s) && sub.Valid(|s.vqs|) && ConfinedFrom(|s.vqs|, s.log, base)
    requires PoolOk(s, BufPoolBase(|s.vqs|))
    ensures QueuesOk(Submit(s, sub)) && ConfinedFrom(|s.vqs|, Submit(s, sub).log, base)
  {
    AllocAllOk(s, sub.parts, sub.named, BufPoolBase(|s.vqs|));
    var (s1, bs) := AllocAll(s, sub.parts, sub.named);
    QuietConfined(s, s1, base);
    if HasRoom(s, sub.vq, sub.slack) && bs.Some? {
      PlaceAllConfined(s1, sub.vq, bs.value[..sub.placed], sub.parts, base);
      var s2 := PlaceAll(s1, sub.vq, bs.value[..sub.placed], sub.parts);
      QuietEmit(s2, Registers([RegWrite(R_QUEUE_NOTIFY, sub.vq)] + sub.tail));
      QuietConfined(s2, Submit(s, sub), base);
    }
  }

  lemma VqSetupConfined(s: Core, v: u32, requested: u32, max: u32, base: nat)
    requires QueuesOk(s) && ConfinedFrom(|s.vqs|, s.log, base) && max <= 256
    ensures var r := VqSetup(s, v, requested, max);
            QueuesOk(r) && ConfinedFrom(|r.vqs|, r.log, base)
  {
    var r := VqSetup(s, v, requested, max);
    forall i | base <= i < |r.log| ensures ConfinedEvent(|r.vqs|, r.log[i]) {
      if i >= |s.log| {
        PoolEventConfined(|r.vqs|, r.log[i]);
      }
    }
  }

  lemma RegistersConfined(s: Core, accesses: seq<Access>, base: nat)
    requires QueuesOk(s) && ConfinedFrom(|s.vqs|, s.log, base)
    ensures QueuesOk(Emit(s, Registers(accesses))) && ConfinedFrom(|s.vqs|, s.log + Registers(accesses), base)
  {
    QuietEmit(s, Registers(accesses));
    QuietConfined(s, Emit(s, Registers(accesses)), base);
  }

  lemma AbsoluteConfined(s: Core, a: Action, base: nat)
    requires QueuesOk(s) && a.Valid(|s.vqs|) && a.DoMemwriteAbsolute? && ConfinedFrom(|s.vqs|, s.log, base)
    ensures QueuesOk(Step(s, a)) && ConfinedFrom(|s.vqs|, Step(s, a).log, base)
  {
    if a.data != [] {
      var d := Truncate(a.data, MAX_DATA);
      QuietEmit(s, [MemWrite(AbsoluteTarget(|s.vqs|, a.gpa, |d|), d)]);
      QuietConfined(s, Step(s, a), base);
    }
  }

  lemma AddDescConfined(s: Core, a: Action, base: nat)
    requires QueuesOk(s) && a.Valid(|s.vqs|) && a.DoAddDesc? && ConfinedFrom(|s.vqs|, s.log, base)
    ensures QueuesOk(Step(s, a)) && ConfinedFrom(|s.vqs|, Step(s, a).log, base)
  {
    var e := Resolve(s, a.floor, a.id, a.len, a.exotic);
    if CanPlace(s, a.vq) && e.Some? {
      PlaceDescConfined(s, a.vq, e.value.addr, e.value.len, a.writable, a.more, base);
    }
  }

  lemma StepConfined(s: Core, a: Action, base: nat)
    requires QueuesOk(s) && a.Valid(|s.vqs|) && SmallDevice(a)
    requires PoolOk(s, BufPoolBase(|s.vqs|)) && ConfinedFrom(|s.vqs|, s.log, base)
    ensures QueuesOk(Step(s, a)) && ConfinedFrom(|s.vqs|, Step(s, a).log, base)
  {
    match a
    case TouchRegisters(accesses) => RegistersConfined(s, accesses, base);
    case DoReset => RegistersConfined(s, RESET_ACCESSES, base);
    case DoVqSetup(v, requested, max) => VqSetupConfined(s, v, requested, max, base);
    case DoGuestMemWrite(id, data) =>
      GuestMemWriteOk(s, id, data, BufPoolBase(|s.vqs|));
      QuietConfined(s, Step(s, a), base);
    case DoStage(chunks) =>
      StageOk(s, chunks, BufPoolBase(|s.vqs|));
      QuietConfined(s, Step(s, a), base);
    case DoMemwriteAbsolute(gpa, data) => AbsoluteConfined(s, a, base);
    case DoSubmit(sub) => SubmitConfined(s, sub, base);
    case DoAddDesc(floor, v, id, len, writable, more, exotic) => AddDescConfined(s, a, base);
  }

  lemma ResetConfined(s: Core)
    requires Shaped(s)
    ensures QueuesOk(Reset(s)) && ConfinedFrom(|s.vqs|, Reset(s).log, |s.log|)
  {
    var r := Reset(s);
    forall i | |s.log| <= i < |r.log| ensures ConfinedEvent(|s.vqs|, r.log[i]) {
      PoolEventConfined(|s.vqs|, r.log[i]);
    }
  }

  lemma {:induction false} RunConfined(s: Core, acts: seq<Action>, base: nat)
    requires QueuesOk(s) && ValidActions(|s.vqs|, acts) && SmallDeviceRun(acts)
    requires PoolOk(s, BufPoolBase(|s.vqs|)) && DescsOk(s) && ConfinedFrom(|s.vqs|, s.log, base)
    ensures QueuesOk(Run(s, acts)) && ConfinedFrom(|s.vqs|, Run(s, acts).log, base)
  {
    if acts != [] {
      var k := |acts| - 1;
      RunConfined(s, acts[..k], base);
      RunOk(s, acts[..k]);
      StepConfined(Run(s, acts[..k]), acts[k], base);
    }
  }

  /** Every guest-memory write of every run lies wholly inside one descriptor table, one avail ring
      or the pool; those regions and the used rings are pairwise disjoint (`RegionsDisjoint`). */
  lemma ConfinementTheorem(s: Core, acts: seq<Action>)
    requires Shaped(s) && ValidActions(|s.vqs|, acts) && SmallDeviceRun(acts)
    ensures ConfinedFrom(|s.vqs|, Run(Reset(s), acts).log, |s.log|)
  {
    ResetConfined(s);
    ResetOk(s);
    RunConfined(Reset(s), acts, |s.log|);
  }

  /** In particular no byte of a used ring is ever written. */
  lemma UsedRingsUntouched(s: Core, acts: seq<Action>, v: nat, i: nat)
    requires Shaped(s) && ValidActions(|s.vqs|, acts) && SmallDeviceRun(acts)
    requires v < |s.vqs| && |s.log| <= i < |Run(Reset(s), acts).log|
    ensures Misses(Run(Reset(s), acts).log[i], UsedBase(v), USED_RING)
  {
    ConfinementTheorem(s, acts);
    var e := Run(Reset(s), acts).log[i];
    var r: Region :| RegionOf(|s.vqs|, r) && !r.UsedRing? && Inside(|s.vqs|, e, r);
    RegionsDisjoint(|s.vqs|, r, UsedRing(v));
  }
}
