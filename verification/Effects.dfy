/** What a step does not do: registers it does not touch, buffers it does not change, ids it does not
    give out. */
module Effects {
  import opened Bytes
  import opened Guest
  import opened QueueSize
  import opened Virtqueue
  import opened Pool
  import opened Confinement
  import opened Refinement
  import opened SubmissionTheorems
  import opened Chain

  // Registers.

  /** The register accesses among some calls, in order. */
  function Accesses(es: seq<Event>): seq<Access> {
    if es == [] then []
    else
      var k := |es| - 1;
      Accesses(es[..k]) + if es[k].Mmio? then [es[k].access] else []
  }

  lemma {:induction false} AccessesAppend(a: seq<Event>, b: seq<Event>)
    ensures Accesses(a + b) == Accesses(a) + Accesses(b)
  {
    if b == [] {
      assert a + b == a;
    } else {
      var k := |b| - 1;
      assert (a + b)[..|a + b| - 1] == a + b[..k];
      AccessesAppend(a, b[..k]);
    }
  }

  lemma {:induction false} AccessesOfRegisters(accesses: seq<Access>)
    ensures Accesses(Registers(accesses)) == accesses
  {
    if accesses != [] {
      var k := |accesses| - 1;
      assert Registers(accesses)[..k] == Registers(accesses[..k]);
      AccessesOfRegisters(accesses[..k]);
      assert accesses[..k] + [accesses[k]] == accesses;
    }
  }

  lemma {:induction false} NoAccesses(es: seq<Event>)
    requires forall i | 0 <= i < |es| :: es[i].MemWrite?
    ensures Accesses(es) == []
  {
    if es != [] {
      NoAccesses(es[..|es| - 1]);
    }
  }

  lemma {:induction false} FillWrites(gpa: nat, chunks: seq<seq<byte>>)
    requires gpa + TotalLength(chunks) < TWO_64
    ensures forall i | 0 <= i < |Fill(gpa, chunks)| :: Fill(gpa, chunks)[i].MemWrite?
    decreases |chunks|
  {
    if chunks != [] {
      FillWrites(gpa + |chunks[0]|, chunks[1..]);
    }
  }

  lemma StageAccesses(s: Core, chunks: pieces)
    ensures Accesses(Stage(s, chunks).log) == Accesses(s.log)
  {
    if Fits(s, TotalLength(chunks)) {
      FillWrites(s.bufAlloc, chunks);
      NoAccesses(Fill(s.bufAlloc, chunks));
      AccessesAppend(s.log, Fill(s.bufAlloc, chunks));
    }
  }

  lemma {:induction false} AllocAllAccesses(s: Core, parts: seq<Part>, named: bool)
    ensures Accesses(AllocAll(s, parts, named).0.log) == Accesses(s.log)
    decreases |parts|
  {
    if parts != [] {
      StageAccesses(s, parts[0].chunks);
      AllocAllAccesses(AllocPart(s, parts[0].chunks, named).0, parts[1..], named);
    }
  }

  lemma PlaceDescAccesses(s: Core, v: nat, addr: u64, len: u32, writable: bool, more: bool)
    requires CanPlace(s, v)
    ensures Accesses(PlaceDesc(s, v, addr, len, writable, more).log) == Accesses(s.log)
  {
    var es := PlacementLog(s.vqs[v], DescFor(s.vqs[v], addr, len, writable, more), more);
    NoAccesses(es);
    AccessesAppend(s.log, es);
  }

  lemma {:induction false} PlaceAllAccesses(s: Core, v: nat, bufs: seq<Buf>, parts: seq<Part>)
    requires CanPlace(s, v) && |bufs| <= |parts|
    ensures Accesses(PlaceAll(s, v, bufs, parts).log) == Accesses(s.log)
    decreases |bufs|
  {
    if bufs != [] {
      PlaceDescAccesses(s, v, bufs[0].gpa, bufs[0].len, parts[0].writable, |bufs| > 1);
      var s1 := PlaceDesc(s, v, bufs[0].gpa, bufs[0].len, parts[0].writable, |bufs| > 1);
      PlaceAllAccesses(s1, v, bufs[1..], parts[1..]);
    }
  }

  lemma EmitAccesses(s: Core, accesses: seq<Access>)
    ensures Accesses(Emit(s, Registers(accesses)).log) == Accesses(s.log) + accesses
  {
    AccessesAppend(s.log, Registers(accesses));
    AccessesOfRegisters(accesses);
  }

  lemma SubmitAccesses(s: Core, sub: Submission)
    requires Shaped(s) && sub.Valid(|s.vqs|) && s.bufAlloc % 16 == 0
    ensures Accesses(Submit(s, sub).log) ==
            Accesses(s.log) + if GoesThrough(s, sub) then [RegWrite(0x050, sub.vq)] + sub.tail else []
  {
    AllocSucceeds(s, sub.parts, sub.named);
    AllocAllAccesses(s, sub.parts, sub.named);
    if GoesThrough(s, sub) {
      var s1, bufs, s2 := SubmitUnfolds(s, sub);
      PlaceAllAccesses(s1, sub.vq, bufs[..sub.placed], sub.parts);
      EmitAccesses(s2, [RegWrite(0x050, sub.vq)] + sub.tail);
    }
  }

  /** What a set-up tells the device, in order. */
  function SetupTold(v: u32, size: u32, q: Vq): seq<Access> {
    [RegWrite(0x030, v), RegRead(0x034), RegWrite(0x038, size),
     RegWrite(0x080, q.desc % TWO_32), RegWrite(0x084, q.desc / TWO_32),
     RegWrite(0x090, q.avail % TWO_32), RegWrite(0x094, q.avail / TWO_32),
     RegWrite(0x0a0, q.used % TWO_32), RegWrite(0x0a4, q.used / TWO_32),
     RegWrite(0x044, 1)]
  }

  lemma SetupAccessesAre(s: Core, v: u32, requested: u32, max: u32)
    requires v < |s.vqs|
    ensures Accesses(VqSetup(s, v, requested, max).log) ==
            Accesses(s.log) + if max == 0 then [RegWrite(0x030, v), RegRead(0x034)]
                              else SetupTold(v, QueueSizeFor(requested, max), s.vqs[v])
  {
    var asked := [RegWrite(0x030, v), RegRead(0x034)];
    EmitAccesses(s, asked);
    if max > 0 {
      var size := QueueSizeFor(requested, max);
      var s1 := Emit(s, Registers(asked));
      var s2 := s1.(vqs := s.vqs[v := s.vqs[v].(size := size)]);
      EmitAccesses(s2, SetupAccesses(v, size, s.vqs[v]));
      assert asked + SetupAccesses(v, size, s.vqs[v]) == SetupTold(v, size, s.vqs[v]);
    }
  }

  lemma WriteAccesses(s: Core, id: u32, data: seq<byte>)
    ensures Accesses(GuestMemWrite(s, id, data).log) == Accesses(s.log)
  {
    StageAccesses(s, Whole(Truncate(data, MAX_DATA)));
  }

  lemma RawAccesses(s: Core, gpa: u64, data: seq<byte>)
    requires |s.vqs| <= 8
    ensures Accesses(MemwriteAbsolute(s, gpa, data).log) == Accesses(s.log)
  {
    if data != [] {
      var d := Truncate(data, MAX_DATA);
      var es := [MemWrite(AbsoluteTarget(|s.vqs|, gpa, |d|), d)];
      NoAccesses(es);
      AccessesAppend(s.log, es);
    }
  }

  lemma AddDescAccesses(s: Core, a: Action)
    requires Shaped(s) && a.Valid(|s.vqs|) && a.DoAddDesc?
    ensures Accesses(Step(s, a).log) == Accesses(s.log)
  {
    var e := Resolve(s, a.floor, a.id, a.len, a.exotic);
    if CanPlace(s, a.vq) && e.Some? {
      PlaceDescAccesses(s, a.vq, e.value.addr, e.value.len, a.writable, a.more);
    }
  }

  /** The registers that each step touches, with what it writes to them and in which order; every other
      step touches none. */
  lemma StepAccesses(s: Core, a: Action)
    requires Shaped(s) && a.Valid(|s.vqs|) && s.bufAlloc % 16 == 0
    ensures Accesses(Step(s, a).log) == Accesses(s.log) +
            match a
            case TouchRegisters(accesses) => accesses
            case DoReset => [RegWrite(0x070, 0), RegWrite(0x070, 3)]
            case DoVqSetup(v, requested, max) =>
              if v >= |s.vqs| then []
              else if max == 0 then [RegWrite(0x030, v), RegRead(0x034)]
              else SetupTold(v, QueueSizeFor(requested, max), s.vqs[v])
            case DoSubmit(sub) => if GoesThrough(s, sub) then [RegWrite(0x050, sub.vq)] + sub.tail else []
            case _ => []
  {
    match a
    case TouchRegisters(accesses) => EmitAccesses(s, accesses);
    case DoReset => EmitAccesses(s, RESET_ACCESSES);
    case DoVqSetup(v, requested, max) =>
      if v < |s.vqs| {
        SetupAccessesAre(s, v, requested, max);
      }
    case DoSubmit(sub) => SubmitAccesses(s, sub);
    case DoGuestMemWrite(id, data) => WriteAccesses(s, id, data);
    case DoMemwriteAbsolute(gpa, data) => RawAccesses(s, gpa, data);
    case DoStage(chunks) => StageAccesses(s, chunks);
    case DoAddDesc(_, _, _, _, _, _, _) => AddDescAccesses(s, a);
  }

  // Buffers.

  lemma MmioKeeps(m0: Memory, log: seq<Event>, es: seq<Event>, a: nat, n: nat)
    requires forall i | 0 <= i < |es| :: es[i].Mmio?
    ensures Peek(Image(m0, log + es), a, n) == Peek(Image(m0, log), a, n)
  {
    ImageAppend(m0, log, es);
    PeekMissAll(Image(m0, log), es, a, n);
  }

  lemma StageKeeps(m0: Memory, s: Core, chunks: pieces, b: Buf)
    requires PoolOk(s, BufPoolBase(|s.vqs|)) && b in s.hist.blocks
    ensures Peek(Image(m0, Stage(s, chunks).log), b.gpa, b.len) == Peek(Image(m0, s.log), b.gpa, b.len)
  {
    if Fits(s, TotalLength(chunks)) {
      BlockBounds(s, BufPoolBase(|s.vqs|), b);
      FillAbove(s.bufAlloc, chunks);
      ImageAppend(m0, s.log, Fill(s.bufAlloc, chunks));
      PeekBelow(Image(m0, s.log), Fill(s.bufAlloc, chunks), s.bufAlloc, b.gpa, b.len);
    }
  }

  lemma PlacementKeeps(m0: Memory, s: Core, v: nat, addr: u64, len: u32, writable: bool, more: bool, b: Buf)
    requires QueuesOk(s) && CanPlace(s, v) && PoolOk(s, BufPoolBase(|s.vqs|)) && b in s.hist.blocks
    ensures var t := PlaceDesc(s, v, addr, len, writable, more);
            Peek(Image(m0, t.log), b.gpa, b.len) == Peek(Image(m0, s.log), b.gpa, b.len)
  {
    var q, lo := s.vqs[v], BufPoolBase(|s.vqs|);
    var es := PlacementLog(q, DescFor(q, addr, len, writable, more), more);
    BlockBounds(s, lo, b);
    assert LaidOut(q, v);
    SlotBelow(q, v, |s.vqs|);
    ImageAppend(m0, s.log, es);
    PeekAbove(Image(m0, s.log), es, lo, b.gpa, b.len);
  }

  lemma AddDescKeeps(m0: Memory, s: Core, a: Action, b: Buf)
    requires QueuesOk(s) && a.Valid(|s.vqs|) && a.DoAddDesc? && PoolOk(s, BufPoolBase(|s.vqs|)) && b in s.hist.blocks
    ensures Peek(Image(m0, Step(s, a).log), b.gpa, b.len) == Peek(Image(m0, s.log), b.gpa, b.len)
  {
    var e := Resolve(s, a.floor, a.id, a.len, a.exotic);
    if CanPlace(s, a.vq) && e.Some? {
      PlacementKeeps(m0, s, a.vq, e.value.addr, e.value.len, a.writable, a.more, b);
    }
  }

  lemma SetupKeeps(m0: Memory, s: Core, v: u32, requested: u32, max: u32, a: nat, n: nat)
    ensures Peek(Image(m0, VqSetup(s, v, requested, max).log), a, n) == Peek(Image(m0, s.log), a, n)
  {
    if v < |s.vqs| {
      var asked := Registers([RegWrite(R_QUEUE_SEL, v), RegRead(R_QUEUE_NUM_MAX)]);
      MmioKeeps(m0, s.log, asked, a, n);
      if max > 0 {
        var size := QueueSizeFor(requested, max);
        MmioKeeps(m0, s.log + asked, Registers(SetupAccesses(v, size, s.vqs[v].(size := size))), a, n);
      }
    }
  }

  /** In every reachable state, a step other than a raw write changes no byte of any buffer that is
      already there. */
  lemma BuffersStay(m0: Memory, s: Core, acts: seq<Action>, a: Action, b: Buf)
    requires Shaped(s) && ValidActions(|s.vqs|, acts) && SmallDeviceRun(acts) && a.Valid(|s.vqs|)
    requires !a.DoMemwriteAbsolute? && b in Run(Reset(s), acts).hist.blocks
    ensures var r := Run(Reset(s), acts);
            Peek(Image(m0, Step(r, a).log), b.gpa, b.len) == Peek(Image(m0, r.log), b.gpa, b.len)
  {
    ReachableRefines(m0, s, acts);
    BuffersStayAt(m0, Run(Reset(s), acts), a, b);
  }

  lemma BuffersStayAt(m0: Memory, r: Core, a: Action, b: Buf)
    requires QueuesOk(r) && PoolOk(r, BufPoolBase(|r.vqs|)) && a.Valid(|r.vqs|)
    requires !a.DoMemwriteAbsolute? && b in r.hist.blocks
    ensures Peek(Image(m0, Step(r, a).log), b.gpa, b.len) == Peek(Image(m0, r.log), b.gpa, b.len)
  {
    match a
    case TouchRegisters(accesses) => MmioKeeps(m0, r.log, Registers(accesses), b.gpa, b.len);
    case DoReset => MmioKeeps(m0, r.log, Registers(RESET_ACCESSES), b.gpa, b.len);
    case DoVqSetup(v, requested, max) => SetupKeeps(m0, r, v, requested, max, b.gpa, b.len);
    case DoGuestMemWrite(_, data) => StageKeeps(m0, r, Whole(Truncate(data, MAX_DATA)), b);
    case DoStage(chunks) => StageKeeps(m0, r, chunks, b);
    case DoSubmit(sub) => SubmitKeepsBuffers(m0, r, sub, b);
    case DoAddDesc(_, _, _, _, _, _, _) => AddDescKeeps(m0, r, a, b);
  }

  // The map of buffers.

  lemma {:induction false} UnnamedAlloc(s: Core, parts: seq<Part>)
    ensures var t := AllocAll(s, parts, false).0; t.bufs == s.bufs && t.synthId == s.synthId
    decreases |parts|
  {
    if parts != [] {
      UnnamedAlloc(AllocPart(s, parts[0].chunks, false).0, parts[1..]);
    }
  }

  /** Only buffer writes, named submissions and resets touch the map of buffers and the next id. */
  lemma MapStays(s: Core, a: Action)
    requires Shaped(s) && a.Valid(|s.vqs|) && !a.DoGuestMemWrite? && !a.DoReset?
    requires a.DoSubmit? ==> !a.sub.named || !HasRoom(s, a.sub.vq, a.sub.slack)
    ensures Step(s, a).bufs == s.bufs && Step(s, a).synthId == s.synthId
  {
    if a.DoSubmit? && HasRoom(s, a.sub.vq, a.sub.slack) {
      UnnamedAlloc(s, a.sub.parts);
      AllocAllKeepsQueues(s, a.sub.parts, false);
      var (s1, bs) := AllocAll(s, a.sub.parts, false);
      if bs.Some? {
        PlaceAllFrame(s1, a.sub.vq, bs.value[..a.sub.placed], a.sub.parts);
      }
    }
  }
}
