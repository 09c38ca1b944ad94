/** Queue set-up as the device sees it: the registers that one call leaves behind. */
module Setup {
  import opened Bytes
  import opened Guest
  import opened QueueSize
  import opened Virtqueue
  import opened Confinement
  import opened Refinement
  import opened Wrappers

  predicate WritesRegister(e: Event, off: nat) {
    e.Mmio? && e.access.RegWrite? && e.access.off == off
  }

  /** The last value written to a register; None if it was not written. */
  function LastWritten(es: seq<Event>, off: nat): Option<u32> {
    if es == [] then None
    else
      var k := |es| - 1;
      if WritesRegister(es[k], off) then Some(es[k].access.value) else LastWritten(es[..k], off)
  }

  lemma {:induction false} LastWriteAt(es: seq<Event>, off: nat, i: nat)
    requires i < |es| && WritesRegister(es[i], off)
    requires forall j | i < j < |es| :: !WritesRegister(es[j], off)
    ensures LastWritten(es, off) == Some(es[i].access.value)
  {
    if i < |es| - 1 {
      LastWriteAt(es[..|es| - 1], off, i);
    }
  }

  /** A 64-bit address register, low half first. */
  function AddressWritten(es: seq<Event>, off: nat): Option<u64> {
    match (LastWritten(es, off), LastWritten(es, off + 4))
    case (Some(lo), Some(hi)) => Some(lo + TWO_32 * hi)
    case _ => None
  }

  /** What a device is told by one set-up call: the queue, its size, the three areas, and, last of
      all, that it is ready. */
  ghost predicate Programmed(es: seq<Event>, v: u32, size: u32, desc: u64, avail: u64, used: u64) {
    && LastWritten(es, 0x030) == Some(v) && LastWritten(es, 0x038) == Some(size)
    && AddressWritten(es, 0x080) == Some(desc)
    && AddressWritten(es, 0x090) == Some(avail)
    && AddressWritten(es, 0x0a0) == Some(used)
    && es != [] && es[|es| - 1] == Mmio(RegWrite(0x044, 1))
  }

  function SetupEvents(v: u32, size: u32, q: Vq): seq<Event> {
    Registers([RegWrite(R_QUEUE_SEL, v), RegRead(R_QUEUE_NUM_MAX)]) + Registers(SetupAccesses(v, size, q))
  }

  lemma SetupPrograms(v: u32, size: u32, q: Vq)
    ensures Programmed(SetupEvents(v, size, q), v, size, q.desc, q.avail, q.used)
  {
    var es := SetupEvents(v, size, q);
    SetupList(v, size, q);
    LastWriteAt(es, 0x030, 0);
    LastWriteAt(es, 0x038, 2);
    AddressAt(es, 0x080, 3, q.desc);
    AddressAt(es, 0x090, 5, q.avail);
    AddressAt(es, 0x0a0, 7, q.used);
  }

  lemma AddressAt(es: seq<Event>, off: nat, i: nat, a: u64)
    requires i + 1 < |es| && es[i] == Mmio(RegWrite(off, a % TWO_32))
    requires es[i + 1] == Mmio(RegWrite(off + 4, a / TWO_32))
    requires forall j | i + 1 < j < |es| :: !WritesRegister(es[j], off) && !WritesRegister(es[j], off + 4)
    ensures AddressWritten(es, off) == Some(a)
  {
    LastWriteAt(es, off, i);
    LastWriteAt(es, off + 4, i + 1);
  }

  lemma SetupList(v: u32, size: u32, q: Vq)
    ensures SetupEvents(v, size, q) ==
            [Mmio(RegWrite(R_QUEUE_SEL, v)), Mmio(RegRead(R_QUEUE_NUM_MAX)), Mmio(RegWrite(R_QUEUE_NUM, size)),
             Mmio(RegWrite(R_QDESC, q.desc % TWO_32)), Mmio(RegWrite(R_QDESC + 4, q.desc / TWO_32)),
             Mmio(RegWrite(R_QDRV, q.avail % TWO_32)), Mmio(RegWrite(R_QDRV + 4, q.avail / TWO_32)),
             Mmio(RegWrite(R_QDEV, q.used % TWO_32)), Mmio(RegWrite(R_QDEV + 4, q.used / TWO_32)),
             Mmio(RegWrite(R_QUEUE_READY, 1))]
  {
  }

  lemma SetupLog(s: Core, v: u32, requested: u32, max: u32)
    requires v < |s.vqs| && max > 0
    ensures var size := QueueSizeFor(requested, max); var q := s.vqs[v].(size := size);
            VqSetup(s, v, requested, max) == s.(vqs := s.vqs[v := q], log := s.log + SetupEvents(v, size, q))
  {
    var size := QueueSizeFor(requested, max);
    var q := s.vqs[v].(size := size);
    var first := Registers([RegWrite(R_QUEUE_SEL, v), RegRead(R_QUEUE_NUM_MAX)]);
    assert s.log + first + Registers(SetupAccesses(v, size, q)) == s.log + SetupEvents(v, size, q);
  }

  /** In every reachable state, a set-up tells the device the greatest power of two that fits, and the
      very table and rings that the driver writes to and the theorems on memory speak of. The
      counters of the queue stay as they were. */
  lemma SetupSeen(s: Core, acts: seq<Action>, v: u32, requested: u32, max: u32)
    requires Shaped(s) && ValidActions(|s.vqs|, acts) && SmallDeviceRun(acts) && v < |s.vqs| && max > 0
    ensures SetUp(Run(Reset(s), acts), VqSetup(Run(Reset(s), acts), v, requested, max), v, QueueSizeFor(requested, max))
  {
    ReachableRefines(map[], s, acts);
    SetupSeenAt(Run(Reset(s), acts), v, requested, max);
  }

  /** From `r` to `t`, queue `v` got this size and nothing else changed; and the device was told so. */
  ghost predicate SetUp(r: Core, t: Core, v: u32, size: u32)
    requires v < |r.vqs|
  {
    var at := 0x4700_0000 + v * 0x3000;
    && r.log <= t.log && t == r.(log := t.log, vqs := r.vqs[v := r.vqs[v].(size := size)])
    && Programmed(t.log[|r.log|..], v, size, at, at + 0x1000, at + 0x2000)
  }

  lemma SetupSeenAt(r: Core, v: u32, requested: u32, max: u32)
    requires QueuesOk(r) && v < |r.vqs| && max > 0
    ensures SetUp(r, VqSetup(r, v, requested, max), v, QueueSizeFor(requested, max))
  {
    var size := QueueSizeFor(requested, max);
    var q := r.vqs[v].(size := size);
    assert LaidOut(r.vqs[v], v);
    SetupLog(r, v, requested, max);
    SetupPrograms(v, size, q);
    assert VqSetup(r, v, requested, max).log[|r.log|..] == SetupEvents(v, size, q);
  }

  /** A set-up of a queue that is not there does nothing, and one that the device answers with 0 does no
      more than ask. */
  lemma SetupRefused(s: Core, v: u32, requested: u32, max: u32)
    requires Shaped(s) && (v >= |s.vqs| || max == 0)
    ensures VqSetup(s, v, requested, max) ==
            if v >= |s.vqs| then s else s.(log := s.log + [Mmio(RegWrite(0x030, v)), Mmio(RegRead(0x034))])
  {
    assert Registers([RegWrite(0x030, v), RegRead(0x034)]) == [Mmio(RegWrite(0x030, v)), Mmio(RegRead(0x034))];
  }
}
