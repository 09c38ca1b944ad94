/** The gpu harness at work: slot tables updated in place, backing regions filled piece by piece. */
module GpuHarness {
  import opened Bytes
  import opened Layout
  import opened Guest
  import opened Virtqueue
  import opened DriverCore
  import opened Assembly
  import opened Gpu
  import opened GpuCommands
  import opened Wrappers

  // Filling memory.

  /** The writes still to come when `off` bytes of `total` are done. */
  function Left(gpa: cursor, unit: seq<byte>, total: u32, off: nat): seq<Event>
    requires unit != []
    decreases total - off
  {
    if off >= total then []
    else [MemWrite(gpa + off, unit[..Min(|unit|, total - off)])] + Left(gpa, unit, total, off + |unit|)
  }

  lemma RepeatStep(unit: seq<byte>, n: nat)
    requires unit != [] && n > 0
    ensures var k := Min(|unit|, n); Repeat(unit, n)[0] == unit[..k] && Repeat(unit, n)[1..] == Repeat(unit, n - k)
  {
  }

  /** All of them together fill the region with `unit` repeated. */
  lemma {:induction false} LeftFills(gpa: cursor, unit: seq<byte>, total: u32, off: nat)
    requires unit != [] && off <= total
    ensures Left(gpa, unit, total, off) == Fill(gpa + off, Repeat(unit, total - off))
    decreases total - off
  {
    if off < total {
      RepeatStep(unit, total - off);
      if off + |unit| < total {
        LeftFills(gpa, unit, total, off + |unit|);
      } else {
        assert Repeat(unit, 0) == [] && Fill(gpa + total, []) == [];
      }
    }
  }

  /** Repeats `unit` over `total` bytes from `gpa`; the last write may be shorter. */
  method WriteRepeated(d: Driver, gpa: cursor, unit: seq<byte>, total: u32)
    requires d.Valid() && unit != []
    modifies d`mem, d`log
    ensures d.Valid() && d.State() == Emit(old(d.State()), Left(gpa, unit, total, 0))
  {
    ghost var target := d.log + Left(gpa, unit, total, 0);
    var off := 0;
    while off < total
      invariant d.Valid() && d.log + Left(gpa, unit, total, off) == target
      decreases total - off
    {
      ghost var was := d.log;
      var n := Min(|unit|, total - off);
      d.MemoryWrite(gpa + off, unit[..n]);
      assert d.State().log == was + [MemWrite(gpa + off, unit[..n])];
      off := off + |unit|;
    }
    assert d.log == target;
  }

  // Sending a command.

  lemma OnePart(s: Core, p: Part)
    ensures AllocAll(s, [p], false) ==
            var (s1, b) := AllocPart(s, p.chunks, false);
            (s1, if b.None? then None else Some([b.value]))
  {
    var (s1, b) := AllocPart(s, p.chunks, false);
    assert [p][1..] == [];
    assert AllocAll(s1, [], false) == (s1, Some([]));
    if b.Some? {
      assert [b.value] + [] == [b.value];
    }
  }

  lemma TwoParts(s: Core, p: Part, q: Part)
    ensures AllocAll(s, [p, q], false) ==
            var (s1, b) := AllocPart(s, p.chunks, false);
            if b.None? then (s1, None)
            else
              var (s2, c) := AllocPart(s1, q.chunks, false);
              (s2, if c.None? then None else Some([b.value, c.value]))
  {
    var (s1, b) := AllocPart(s, p.chunks, false);
    assert [p, q][1..] == [q];
    OnePart(s1, q);
    var (s2, c) := AllocPart(s1, q.chunks, false);
    if b.Some? && c.Some? {
      assert [b.value] + [c.value] == [b.value, c.value];
    }
  }

  /** Stages the request. */
  method StageRequest(d: Driver, req: blob) returns (gpa: cursor)
    requires d.Valid() && req != [] && d.bufAlloc > 0
    modifies d
    ensures d.Valid() && d.State() == AllocPart(old(d.State()), Whole(req), false).0
    ensures var b := AllocPart(old(d.State()), Whole(req), false).1;
            if b.None? then gpa == 0 else gpa != 0 && b.value == Buf(gpa, |req|) && d.bufAlloc > 0
  {
    gpa := d.AllocGpa(|req|);
    if gpa == 0 {
      return;
    }
    StageWhole(old(d.State()), req);
    d.MemoryWrite(gpa, req);
  }

  /** Makes room for the response and clears it. */
  method StageResponse(d: Driver, len: u32) returns (gpa: cursor)
    requires d.Valid() && d.bufAlloc > 0
    modifies d
    ensures d.Valid() && d.State() == AllocPart(old(d.State()), ZeroPieces(len), false).0
    ensures var b := AllocPart(old(d.State()), ZeroPieces(len), false).1;
            if b.None? then gpa == 0 else gpa != 0 && b.value == Buf(gpa, len)
  {
    gpa := d.AllocGpa(len);
    if gpa == 0 {
      return;
    }
    WriteRepeated(d, gpa, Zeros(64), len);
    LeftFills(gpa, Zeros(64), len, 0);
  }

  method Acknowledge(d: Driver, irq: u32)
    requires d.Valid()
    modifies d
    ensures d.Valid() && d.State() == Emit(old(d.State()), Registers(Tail(irq)))
  {
    d.Register(RegRead(R_INT_STATUS));
    if irq != 0 {
      d.Register(RegWrite(R_INT_ACK, irq));
      assert Registers(Tail(irq)) == Registers([RegRead(R_INT_STATUS)]) + Registers([RegWrite(R_INT_ACK, irq)]);
    } else {
      assert Tail(irq) == [RegRead(R_INT_STATUS)];
    }
  }

  lemma SubmitCases(s: Core, v: u32, req: blob, respLen: u32, irq: u32)
    requires Shaped(s) && |s.vqs| == QUEUES && v < QUEUES && HasRoom(s, v, 2)
    ensures var sub := CommandSubmission(v, req, respLen, irq);
            var (s1, b) := AllocPart(s, Whole(req), false);
            Submit(s, sub) ==
              if b.None? then s1
              else
                var (s2, c) := AllocPart(s1, ZeroPieces(respLen), false);
                if c.None? then s2
                else (AllocPartKeepsQueues(s, Whole(req), false); AllocPartKeepsQueues(s1, ZeroPieces(respLen), false);
                  Emit(PlaceAll(s2, v, [b.value, c.value], sub.parts),
                       Registers([RegWrite(R_QUEUE_NOTIFY, v)] + Tail(irq))))
  {
    var sub := CommandSubmission(v, req, respLen, irq);
    TwoParts(s, sub.parts[0], sub.parts[1]);
    assert sub.parts == [sub.parts[0], sub.parts[1]];
    var (s1, b) := AllocPart(s, Whole(req), false);
    if b.Some? {
      var (s2, c) := AllocPart(s1, ZeroPieces(respLen), false);
      if c.Some? {
        assert [b.value, c.value][..2] == [b.value, c.value];
      }
    }
  }

  method SubmitCmd(d: Driver, v: u32, req: blob, respLen: u32, irq: u32)
    requires d.Valid() && d.vqs.Length == QUEUES && v < QUEUES && req != [] && d.bufAlloc > 0
    modifies d, d.vqs
    ensures d.Valid() && d.State() == Submit(old(d.State()), CommandSubmission(v, req, respLen, irq))
  {
    ghost var s, sub := d.State(), CommandSubmission(v, req, respLen, irq);
    var room := Room(d, v, 2);
    if !room {
      return;
    }
    SubmitCases(s, v, req, respLen, irq);
    AllocPartKeepsQueues(s, Whole(req), false);
    var reqGpa := StageRequest(d, req);
    if reqGpa == 0 {
      return;
    }
    AllocPartKeepsQueues(d.State(), ZeroPieces(respLen), false);
    var respGpa := StageResponse(d, respLen);
    if respGpa == 0 {
      return;
    }
    Finish(d, v, Buf(reqGpa, |req|), Buf(respGpa, respLen), irq, sub.parts);
  }

  method Finish(d: Driver, v: u32, req: Buf, resp: Buf, irq: u32, ghost parts: seq<Part>)
    requires d.Valid() && CanPlace(d.State(), v)
    requires |parts| == 2 && !parts[0].writable && parts[1].writable
    modifies d, d.vqs
    ensures d.Valid()
    ensures d.State() == Emit(PlaceAll(old(d.State()), v, [req, resp], parts),
                              Registers([RegWrite(R_QUEUE_NOTIFY, v)] + Tail(irq)))
  {
    SendTwo(d, v, req, resp, true, parts);
    Acknowledge(d, irq);
    assert Registers([RegWrite(R_QUEUE_NOTIFY, v)] + Tail(irq)) ==
           Registers([RegWrite(R_QUEUE_NOTIFY, v)]) + Registers(Tail(irq));
  }

  // Building a command.

  /** `memcpy` into a request string. */
  function Overwrite(s: seq<byte>, at: nat, data: seq<byte>): (r: seq<byte>)
    requires at + |data| <= |s|
    ensures |r| == |s| && r[..at] == s[..at] && r[at..at + |data|] == data
  {
    s[..at] + data + s[at + |data|..]
  }

  lemma EntryBytes(base: cursor, size: u32, i: nat, n: nat)
    requires i < n <= 16 && size <= 4096
    ensures PutAll(Entry(base, size, i)) == Put(L64(EntryAddress(base, size, i))) + Put(L32(size)) + Put(L32(0))
    ensures PutAll(Entries(base, size, i, n)) == PutAll(Entry(base, size, i)) + PutAll(Entries(base, size, i + 1, n))
    ensures |PutAll(Entry(base, size, i))| == 16
  {
    PutThree(L64(EntryAddress(base, size, i)), L32(size), L32(0));
    PutAppend(Entry(base, size, i), Entries(base, size, i + 1, n));
  }

  lemma PutThree(a: Field, b: Field, c: Field)
    ensures PutAll([a, b, c]) == Put(a) + Put(b) + Put(c)
  {
    PutTwo(b, c);
    assert [a, b, c][1..] == [b, c];
    Associate(Put(a), Put(b), Put(c));
  }

  lemma PutTwo(a: Field, b: Field)
    ensures PutAll([a, b]) == Put(a) + Put(b)
  {
    assert [a, b][1..] == [b] && [b][1..] == [];
    assert PutAll([b]) == Put(b) + [] == Put(b);
  }

  /** `rest` is what has to follow the first `at` bytes to make up `whole`. */
  predicate Remains(req: seq<byte>, at: nat, rest: seq<byte>, whole: seq<byte>) {
    at <= |req| && req[..at] + rest == whole
  }

  lemma RemainsStep(req: seq<byte>, r: seq<byte>, at: nat, data: seq<byte>, more: seq<byte>, whole: seq<byte>)
    requires Remains(req, at, data + more, whole) && at + |data| <= |req|
    requires r == Overwrite(req, at, data)
    ensures Remains(r, at + |data|, more, whole) && |r| == |req|
  {
    assert r[..at + |data|] == req[..at] + data;
    assert (req[..at] + data) + more == req[..at] + (data + more);
  }

  lemma RemainsAtStart(fixed: seq<byte>, blank: seq<byte>, rest: seq<byte>)
    ensures Remains(fixed + blank, |fixed|, rest, fixed + rest)
  {
  }

  lemma RemainsNothing(req: seq<byte>, whole: seq<byte>)
    requires Remains(req, |req|, [], whole)
    ensures req == whole
  {
    assert req[..|req|] + [] == req;
  }

  lemma EntryThenMore(base: cursor, size: u32, i: nat, more: seq<byte>)
    requires i < 16 && size <= 4096
    ensures PutAll(Entry(base, size, i)) + more
            == Put(L64(EntryAddress(base, size, i))) + (Put(L32(size)) + (Put(L32(0)) + more))
  {
    EntryBytes(base, size, i, 16);
  }

  /** Writes entry `i` into the request, field by field. */
  method PackEntry(
    req: seq<byte>, at: nat, base: cursor, size: u32, i: nat, ghost more: seq<byte>, ghost whole: seq<byte>)
    returns (r: seq<byte>)
    requires i < 16 && size <= 4096 && at + 16 <= |req| && Remains(req, at, PutAll(Entry(base, size, i)) + more, whole)
    ensures |r| == |req| && Remains(r, at + 16, more, whole)
  {
    EntryThenMore(base, size, i, more);
    var addr, len, pad := Put(L64(EntryAddress(base, size, i))), Put(L32(size)), Put(L32(0));
    r := Overwrite(req, at, addr);
    RemainsStep(req, r, at, addr, len + (pad + more), whole);
    ghost var r1 := r;
    r := Overwrite(r, at + 8, len);
    RemainsStep(r1, r, at + 8, len, pad + more, whole);
    ghost var r2 := r;
    r := Overwrite(r, at + 12, pad);
    RemainsStep(r2, r, at + 12, pad, more, whole);
  }

  /** What entries `i` onwards still have to add. */
  ghost predicate Packing(req: seq<byte>, at: nat, base: cursor, size: u32, i: nat, n: nat, whole: seq<byte>) {
    && i <= n <= 16 && size <= 4096 && |req| == at + 16 * (n - i)
    && Remains(req, at, PutAll(Entries(base, size, i, n)), whole)
  }

  method PackNext(
    req: seq<byte>, at: nat, base: cursor, size: u32, i: nat, ghost n: nat, ghost whole: seq<byte>)
    returns (r: seq<byte>)
    requires i < n && Packing(req, at, base, size, i, n, whole)
    ensures Packing(r, at + 16, base, size, i + 1, n, whole)
  {
    EntryBytes(base, size, i, n);
    r := PackEntry(req, at, base, size, i, PutAll(Entries(base, size, i + 1, n)), whole);
  }

  lemma PackingDone(req: seq<byte>, at: nat, base: cursor, size: u32, n: nat, whole: seq<byte>)
    requires Packing(req, at, base, size, n, n, whole)
    ensures req == whole
  {
    RemainsNothing(req, whole);
  }

  lemma PackingStarts(fixed: seq<byte>, base: cursor, size: u32, n: nat)
    requires n <= 16 && size <= 4096
    ensures Packing(fixed + Zeros(16 * n), |fixed|, base, size, 0, n, fixed + PutAll(Entries(base, size, 0, n)))
  {
    RemainsAtStart(fixed, Zeros(16 * n), PutAll(Entries(base, size, 0, n)));
  }

  /** The request string, sized in advance: the fixed fields, then the entries one by one. */
  method PackEntries(fixed: seq<byte>, base: cursor, size: u32, n: nat) returns (req: seq<byte>)
    requires 1 <= n <= 16 && size <= 4096
    ensures req == fixed + PutAll(Entries(base, size, 0, n))
  {
    ghost var whole := fixed + PutAll(Entries(base, size, 0, n));
    req := fixed + Zeros(16 * n);
    PackingStarts(fixed, base, size, n);
    var i: nat, at: nat := 0, |fixed|;
    while i < n
      invariant 0 <= i <= n && Packing(req, at, base, size, i, n, whole)
    {
      req := PackNext(req, at, base, size, i, n, whole);
      i, at := i + 1, at + 16;
    }
    PackingDone(req, at, base, size, n, whole);
  }

  // Steps, kind by kind.

  /** Ops that send a command and leave the harness's own tables alone. */
  predicate Plain(op: Op) {
    Sends(op) && !Creates(op) && !op.Unref? && !op.AttachBacking?
  }

  lemma SendingValid(st: GpuState, c: Call)
    requires Sound(st) && Sends(c.op)
    ensures Sending(st, c).Valid(QUEUES)
    ensures Shaped(Prepared(st, c.op)) && |Prepared(st, c.op).vqs| == QUEUES
  {
    PreparedIsRun(st, c.op);
  }

  /** The state once the command of `c`, with its backing if it needs one, is out. */
  function Sent(st: GpuState, c: Call): GpuState
    requires Sound(st) && Sends(c.op)
  {
    SendingValid(st, c);
    st.(core := Submit(Prepared(st, c.op), Sending(st, c)))
  }

  lemma SendingKeepsCursor(st: GpuState, c: Call)
    requires Sound(st) && Sends(c.op) && Prepared(st, c.op).bufAlloc > 0
    ensures Sent(st, c).core.bufAlloc > 0
  {
    SendingValid(st, c);
    CursorStaysPositive(Prepared(st, c.op), DoSubmit(Sending(st, c)));
  }

  function AfterCreate2D(st: GpuState, c: Call): GpuState
    requires Sound(st) && c.op.Create2D?
  {
    var r := Resource(st.nextId, c.op.width, c.op.height, c.op.format);
    Sent(st, c).(nextId := Following(st.nextId), resources := st.resources[c.op.slot % SLOTS := r])
  }

  function AfterUnref(st: GpuState, c: Call): GpuState
    requires Sound(st) && c.op.Unref?
  {
    Sent(st, c).(resources := st.resources[c.op.slot % SLOTS := EMPTY])
  }

  function AfterAttach(st: GpuState, c: Call): GpuState
    requires Sound(st) && c.op.AttachBacking?
  {
    var b := Backing(st.core.bufAlloc, TotalSize(c.op), c.op.slot % SLOTS);
    if Backed(st, c.op) then Sent(st, c).(backings := st.backings[c.op.backingSlot % SLOTS := b]) else st
  }

  function AfterCreateBlob(st: GpuState, c: Call): GpuState
    requires Sound(st) && c.op.CreateBlob?
  {
    var next := Following(st.nextId);
    if Backed(st, c.op) then
      Sent(st, c).(nextId := next, resources := st.resources[c.op.slot % SLOTS := Resource(st.nextId, 0, 0, 0)])
    else st.(nextId := next)
  }

  lemma PlainStep(st: GpuState, c: Call)
    requires Sound(st) && Plain(c.op)
    ensures GpuStep(st, c) == Sent(st, c)
  {
    SendingStep(st, c);
  }

  lemma Create2DStep(st: GpuState, c: Call)
    requires Sound(st) && c.op.Create2D?
    ensures GpuStep(st, c) == AfterCreate2D(st, c)
  {
    SendingStep(st, c);
  }

  lemma UnrefStep(st: GpuState, c: Call)
    requires Sound(st) && c.op.Unref?
    ensures GpuStep(st, c) == AfterUnref(st, c)
  {
    SendingStep(st, c);
  }

  lemma AttachStep(st: GpuState, c: Call)
    requires Sound(st) && c.op.AttachBacking?
    ensures GpuStep(st, c) == AfterAttach(st, c)
  {
    if Backed(st, c.op) {
      SendingStep(st, c);
    } else {
      GpuStepCore(st, c);
    }
  }

  lemma BlobStep(st: GpuState, c: Call)
    requires Sound(st) && c.op.CreateBlob?
    ensures GpuStep(st, c) == AfterCreateBlob(st, c)
  {
    if Backed(st, c.op) {
      SendingStep(st, c);
    } else {
      GpuStepCore(st, c);
    }
  }

  lemma CommonStep(st: GpuState, c: Call)
    requires Sound(st) && ValidCall(c) && c.op.Common?
    ensures c.op.action.Valid(QUEUES)
    ensures GpuStep(st, c) ==
            if c.op.action.DoReset? then ResetGpu(Step(st.core, c.op.action))
            else st.(core := Step(st.core, c.op.action))
  {
    RunOne(st.core, c.op.action);
  }

  lemma FenceStep(st: GpuState, c: Call)
    requires Sound(st) && c.op.SetFence?
    ensures GpuStep(st, c) == st.(fenceEnabled := c.op.enabled, fenceId := c.op.fenceId, fenceCtx := c.op.ctxId)
  {
  }

  lemma StagedPieces(s: Core, op: Op)
    requires NeedsBacking(op) && Fits(s, TotalSize(op))
    ensures Stage(s, Fillable(op)) == Emit(Reserve(s, TotalSize(op)), Left(s.bufAlloc, UnitOf(op), TotalSize(op), 0))
  {
    LeftFills(s.bufAlloc, UnitOf(op), TotalSize(op), 0);
  }

  // The harness itself.

  class Harness {
    const d: Driver
    const resources: array<Resource>
    const backings: array<Backing>
    var nextId: u32
    var fenceEnabled: bool
    var fenceId: u64
    var fenceCtx: u32

    ghost predicate Valid()
      reads this, d, d.vqs, resources, backings
    {
      && d.Valid() && d.vqs.Length == QUEUES && d.bufAlloc > 0
      && resources.Length == SLOTS && backings.Length == SLOTS
    }

    ghost function State(): GpuState
      reads this, d, d.vqs, resources, backings
    {
      GpuState(d.State(), resources[..], backings[..], nextId, fenceEnabled, fenceId, fenceCtx)
    }

    constructor (dram: Memory)
      ensures Valid() && fresh(d) && fresh(d.vqs) && fresh(resources) && fresh(backings)
      ensures State() == ResetGpu(Unset(QUEUES, BufPoolBase(QUEUES), SYNTH_BASE, []))
    {
      d := new Driver(QUEUES, BufPoolBase(QUEUES), SYNTH_BASE, dram);
      resources := new Resource[SLOTS](_ => EMPTY);
      backings := new Backing[SLOTS](_ => Backing(0, 0, 0));
      nextId, fenceEnabled, fenceId, fenceCtx := 1, false, 0, 0;
      new;
      assert resources[..] == NoResources() && backings[..] == NoBackings();
    }

    ghost predicate Stepped(before: GpuState, c: Call)
      reads this, d, d.vqs, resources, backings
    {
      Valid() && Sound(before) && ValidCall(c) && State() == GpuStep(before, c)
    }

    method Dispatch(c: Call)
      requires Valid() && ValidCall(c)
      modifies this, d, d.vqs, resources, backings
      ensures Stepped(old(State()), c)
    {
      if c.op.Common? {
        RunCommon(c);
      } else if c.op.SetFence? {
        FenceStep(State(), c);
        fenceEnabled, fenceId, fenceCtx := c.op.enabled, c.op.fenceId, c.op.ctxId;
      } else if Creates(c.op) {
        Create(c);
      } else {
        Use(c);
      }
    }

    method Create(c: Call)
      requires Valid() && Creates(c.op)
      modifies this, d, d.vqs, resources
      ensures Stepped(old(State()), c)
    {
      ghost var st := State();
      if c.op.Create2D? {
        DoCreate2D(c);
        Create2DStep(st, c);
      } else {
        DoCreateBlob(c);
        BlobStep(st, c);
      }
    }

    method Use(c: Call)
      requires Valid() && Sends(c.op) && !Creates(c.op)
      modifies this, d, d.vqs, resources, backings
      ensures Stepped(old(State()), c)
    {
      ghost var st := State();
      if c.op.Unref? {
        DoUnref(c);
        UnrefStep(st, c);
      } else if c.op.AttachBacking? {
        DoAttach(c);
        AttachStep(st, c);
      } else {
        var body := PlainBody(c.op);
        Send(c, body);
        PlainStep(st, c);
      }
    }

    method ForgetTables()
      requires Valid()
      modifies this, resources, backings
      ensures Valid() && State() == ResetGpu(old(d.State())) && d.State() == old(d.State())
    {
      var i := 0;
      while i < SLOTS
        invariant 0 <= i <= SLOTS
        invariant forall k | 0 <= k < i :: resources[k] == EMPTY && backings[k] == Backing(0, 0, 0)
        modifies resources, backings
      {
        resources[i], backings[i] := EMPTY, Backing(0, 0, 0);
        i := i + 1;
      }
      nextId, fenceEnabled, fenceId, fenceCtx := 1, false, 0, 0;
      assert resources[..] == NoResources() && backings[..] == NoBackings();
    }

    method RunCommon(c: Call)
      requires Valid() && ValidCall(c) && c.op.Common?
      modifies this, d, d.vqs, resources, backings
      ensures Stepped(old(State()), c)
    {
      CommonStep(State(), c);
      CursorStaysPositive(d.State(), c.op.action);
      DispatchCommon(d, c.op.action);
      if c.op.action.DoReset? {
        ForgetTables();
      }
    }

    /** `pack_ctrl_hdr` */
    method Header(command: u32) returns (fs: seq<Field>)
      requires Valid()
      ensures fs == CtrlHeader(State(), command)
    {
      var flags, id, ctx := 0, 0, 0;
      if fenceEnabled {
        flags, id, ctx := 1, fenceId, fenceCtx;
      }
      fs := [L32(command), L32(flags), L64(id), L32(ctx), L32(0)];
    }

    /** Sends a command without backing memory; `body` is its fields after the header. */
    method Send(c: Call, body: seq<Field>)
      requires Valid() && Sends(c.op) && !NeedsBacking(c.op) && body == CommandBody(State(), c.op, d.bufAlloc)
      modifies d, d.vqs
      ensures Valid() && Sound(old(State())) && State() == Sent(old(State()), c)
    {
      SendingKeepsCursor(State(), c);
      var header := Header(Command(c.op));
      CommandSize(State(), c.op, d.bufAlloc);
      SubmitCmd(d, TargetQueue(c.op), PutAll(header + body), ResponseLength(c.op), c.irq);
    }

    method SetResource(slot: u32, r: Resource)
      requires Valid() && slot < SLOTS
      modifies resources
      ensures Valid() && State() == old(State()).(resources := old(resources[..])[slot := r])
    {
      resources[slot] := r;
      assert resources[..] == old(resources[..])[slot := r];
    }

    /** The body of a command that carries no backing entries. */
    method PlainBody(op: Op) returns (body: seq<Field>)
      requires Valid() && Plain(op)
      ensures body == CommandBody(State(), op, d.bufAlloc)
    {
      body := [];
      if op.DetachBacking? {
        var id := resources[op.slot % SLOTS].id;
        body := [L32(id), L32(0)];
      } else if op.Transfer? {
        var id := resources[op.slot % SLOTS].id;
        body := [L32(op.x), L32(op.y), L32(op.width), L32(op.height), L64(op.offset), L32(id), L32(0)];
      } else if op.FlushResource? {
        var id := resources[op.slot % SLOTS].id;
        body := [L32(op.x), L32(op.y), L32(op.width), L32(op.height), L32(id), L32(0)];
      } else if op.SetScanout? {
        var id := resources[op.slot % SLOTS].id;
        body := [L32(op.x), L32(op.y), L32(op.width), L32(op.height), L32(op.scanout), L32(id)];
      } else if op.UpdateCursor? {
        var id := resources[op.slot % SLOTS].id;
        body := [L32(op.scanout), L32(op.x), L32(op.y), L32(0), L32(id), L32(op.hotX), L32(op.hotY), L32(0)];
      } else if op.MoveCursor? {
        body := [L32(op.scanout), L32(op.x), L32(op.y), L32(0), L32(0), L32(0), L32(0), L32(0)];
      } else if op.GetEdid? {
        body := [L32(op.scanout), L32(0)];
      }
    }

    /** The slot is filled even if the command was not sent. */
    method DoCreate2D(c: Call)
      requires Valid() && c.op.Create2D?
      modifies this, d, d.vqs, resources
      ensures Valid() && Sound(old(State())) && State() == AfterCreate2D(old(State()), c)
    {
      var op, slot := c.op, c.op.slot % SLOTS;
      var id := nextId;
      Send(c, [L32(id), L32(op.format), L32(op.width), L32(op.height)]);
      nextId := Following(nextId);
      SetResource(slot, Resource(id, op.width, op.height, op.format));
    }

    method DoUnref(c: Call)
      requires Valid() && c.op.Unref?
      modifies d, d.vqs, resources
      ensures Valid() && Sound(old(State())) && State() == AfterUnref(old(State()), c)
    {
      var slot := c.op.slot % SLOTS;
      Send(c, [L32(resources[slot].id), L32(0)]);
      SetResource(slot, EMPTY);
    }

    /** Takes and fills the backing region of an op, if there is room for it. */
    method StageBacking(op: Op) returns (base: cursor)
      requires Valid() && NeedsBacking(op)
      modifies d
      ensures Valid()
      ensures if Backed(old(State()), op) then base == old(d.bufAlloc) && d.State() == Prepared(old(State()), op)
              else base == 0 && d.State() == old(d.State())
    {
      var total := TotalSize(op);
      base := d.AllocGpa(total);
      if base == 0 {
        return;
      }
      var unit := Zeros(64);
      if op.AttachBacking? && op.fill != [] {
        unit := op.fill;
      }
      StagedPieces(old(d.State()), op);
      WriteRepeated(d, base, unit, total);
    }

    /** The bytes of a command with entries; `fixed` is what comes between header and entries. */
    method BuildBacked(op: Op, base: cursor, fixed: seq<Field>, ghost st: GpuState) returns (req: blob)
      requires Valid() && |st.resources| == SLOTS && NeedsBacking(op) && fixed == BeforeEntries(st, op)
      requires CtrlHeader(st, Command(op)) == CtrlHeader(State(), Command(op))
      ensures req == CommandBytes(st, op, base)
    {
      var header := Header(Command(op));
      var bytes := PackEntries(PutAll(header + fixed), base, EntrySize(op), EntryCount(op.entries));
      BackedBytes(st, op, base);
      CommandSize(st, op, base);
      req := bytes;
    }

    /** Sends the command for a region just staged; `st` is the state before. */
    method SendBacked(c: Call, req: blob, ghost st: GpuState)
      requires Valid() && Sound(st) && NeedsBacking(c.op) && Backed(st, c.op)
      requires d.State() == Prepared(st, c.op) && req == CommandBytes(st, c.op, st.core.bufAlloc)
      modifies d, d.vqs
      ensures Valid() && d.State() == Sent(st, c).core
    {
      SendingKeepsCursor(st, c);
      SubmitCmd(d, CMD_VQ, req, ResponseLength(c.op), c.irq);
    }

    method DoAttach(c: Call)
      requires Valid() && c.op.AttachBacking?
      modifies this, d, d.vqs, backings
      ensures Valid() && Sound(old(State())) && State() == AfterAttach(old(State()), c)
    {
      ghost var st := State();
      var slot := c.op.slot % SLOTS;
      var id := resources[slot].id;
      var base := StageBacking(c.op);
      if base == 0 {
        return;
      }
      var req := BuildBacked(c.op, base, [L32(id), L32(EntryCount(c.op.entries))], st);
      SendBacked(c, req, st);
      var b := c.op.backingSlot % SLOTS;
      backings[b] := Backing(base, TotalSize(c.op), slot);
      assert backings[..] == old(backings[..])[b := Backing(base, TotalSize(c.op), slot)];
    }

    /** The id is used up even if there is no room; the slot is filled only if there is. */
    method DoCreateBlob(c: Call)
      requires Valid() && c.op.CreateBlob?
      modifies this, d, d.vqs, resources
      ensures Valid() && Sound(old(State())) && State() == AfterCreateBlob(old(State()), c)
    {
      ghost var st := State();
      var op, id := c.op, nextId;
      nextId := Following(nextId);
      var base := StageBacking(op);
      if base == 0 {
        return;
      }
      var req := BuildBacked(
        op, base,
        [L32(id), L32(op.blobMem), L32(op.blobFlags), L32(EntryCount(op.entries)), L64(op.blobId), L64(op.size64)], st);
      SendBacked(c, req, st);
      SetResource(op.slot % SLOTS, Resource(id, 0, 0, 0));
    }
  }

  lemma BackedBytes(st: GpuState, op: Op, base: cursor)
    requires NeedsBacking(op) && |st.resources| == SLOTS
    ensures CommandBytes(st, op, base) ==
            PutAll(CtrlHeader(st, Command(op)) + BeforeEntries(st, op))
            + PutAll(Entries(base, EntrySize(op), 0, EntryCount(op.entries)))
  {
    BodyEntries(st, op, base);
    var h, b := CtrlHeader(st, Command(op)), BeforeEntries(st, op);
    var e := Entries(base, EntrySize(op), 0, EntryCount(op.entries));
    assert h + (b + e) == (h + b) + e;
    PutAppend(h + b, e);
  }
}
