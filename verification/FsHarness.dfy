/** The fs harness: request messages grown by appends, header patched in last, and the two submit
    functions. */
module FsHarness {
  import opened Bytes
  import opened Layout
  import opened Guest
  import opened Virtqueue
  import opened DriverCore
  import opened Assembly
  import opened Chain
  import opened Confinement
  import opened SubmissionTheorems
  import opened Fuse
  import opened Wrappers

  function RequestBytes(r: FuseRequest): blob {
    MessageLength(r);
    Message(r)
  }

  function HpBytes(m: HpReq): blob {
    HpRoundTrip(m);
    HpMessage(m)
  }

  function RequestSubmission(r: FuseRequest): Submission {
    Pair(RequestQueue(r.vqIdx), 3, RequestBytes(r), Zeros(AnswerLength(r.inBufSize)))
  }

  function HpSubmission(m: HpReq): Submission {
    Submission(0, 1, [Part(Whole(HpBytes(m)), false)], 1, true, [])
  }

  /** Appends a name: at most 256 bytes, and a NUL unless they end in one. */
  method AppendName(out: seq<byte>, name: blob) returns (r: seq<byte>)
    ensures r == out + Name(name)
  {
    var n := Min(|name|, NAME_CAP);
    r := out + name[..n];
    if n == 0 || name[n - 1] != 0 {
      r := r + [0];
    }
    assert name[..n] == Truncate(name, NAME_CAP);
  }

  method AppendData(out: seq<byte>, data: blob) returns (r: seq<byte>)
    ensures r == out + Truncate(data, DATA_CAP)
  {
    var n := Min(|data|, DATA_CAP);
    r := out;
    if n > 0 {
      r := r + data[..n];
    }
    assert data[..n] == Truncate(data, DATA_CAP);
  }

  method AppendTail(out: seq<byte>, a: Args) returns (r: seq<byte>)
    ensures r == out + Tail(a)
  {
    if a.Write? || a.Ioctl? {
      r := AppendData(out, a.data);
    } else if a.RawArgs? {
      r := AppendData(out, a.payload);
    } else if a.Setxattr? {
      r := AppendName(out, a.name);
      r := AppendData(r, a.value);
      Associate(out, Name(a.name), Truncate(a.value, DATA_CAP));
    } else if a.Lookup? || a.Mkdir? || a.Unlink? || a.Rmdir? || a.Getxattr? || a.Removexattr? {
      r := AppendName(out, a.name);
    } else {
      r := out;
      assert out == out + [];
    }
  }

  /** Appends the arguments of a request after the reserved header. */
  method AppendArgs(out: seq<byte>, a: Args) returns (r: seq<byte>)
    ensures r == out + Body(a)
  {
    r := AppendTail(out + PutAll(Fixed(a)), a);
    Associate(out, PutAll(Fixed(a)), Tail(a));
  }

  method BuildMessage(r: FuseRequest) returns (out: blob)
    ensures out == RequestBytes(r)
  {
    var bytes := AppendArgs(Zeros(HEADER), r.args);
    // The length is known only now: build the header and copy it over the reserved bytes.
    var total := Wrap32(|bytes|);
    var header := PutAll(HeaderFields(total, Opcode(r.args), r.unique, r.nodeid, r.uid, r.gid, r.pid));
    MessageLength(r);
    assert bytes[HEADER..] == Body(r.args);
    out := header + bytes[HEADER..];
  }

  method SubmitFuse(d: Driver, r: FuseRequest)
    requires d.Valid() && d.vqs.Length == 8
    modifies d, d.vqs
    ensures d.Valid() && d.State() == Submit(old(d.State()), RequestSubmission(r))
  {
    var v := r.vqIdx % 8;
    if v < 2 {
      v := 2;
    }
    var out := BuildMessage(r);
    var inLen := if r.inBufSize != 0 then r.inBufSize else 1024;
    if inLen > 4096 {
      inLen := 4096;
    }
    if inLen < 16 {
      inLen := 16;
    }
    SubmitPair(d, v, 3, out, Zeros(inLen));
  }

  method SubmitFuseHp(d: Driver, m: HpReq)
    requires d.Valid() && d.vqs.Length == 8
    modifies d, d.vqs
    ensures d.Valid() && d.State() == Submit(old(d.State()), HpSubmission(m))
  {
    ghost var s0, sub := d.State(), HpSubmission(m);
    var room := Room(d, 0, 1);
    if !room {
      return;
    }
    var out := HpBytes(m);
    assert sub.parts[..0] == [];
    var id := AllocNext(d, out, s0, sub.parts, []);
    if id == 0 {
      GaveUp(s0, d.State(), sub);
      return;
    }
    var ob := d.bufs[id];
    assert [] + [ob] == [ob];
    RemainingWhole(s0, d.State(), [ob], sub);
    PlaceNext(d, 0, ob, false, false, [ob], sub.parts);
    assert [ob][1..] == [];
    d.Notify(0);
  }

  datatype Op = Common(action: Action) | Request(r: FuseRequest) | HighPriority(m: HpReq)

  predicate ValidOp(op: Op) {
    op.Common? ==> !op.action.DoStage? && !op.action.DoSubmit? && (op.action.DoAddDesc? ==> op.action.floor == 1)
  }

  function ActionOf(op: Op): Action {
    match op
    case Common(a) => a
    case Request(r) => DoSubmit(RequestSubmission(r))
    case HighPriority(m) => DoSubmit(HpSubmission(m))
  }

  /** Every fs op is a valid action, and its submissions put the readable buffer first. */
  lemma OpsAreActions(op: Op)
    requires ValidOp(op)
    ensures ActionOf(op).Valid(8)
    ensures ActionOf(op).DoSubmit? && !op.Common? ==> ReadableFirst(ActionOf(op).sub.parts)
  {
  }

  ghost predicate Stepped(before: Core, d: Driver, op: Op)
    reads d, d.vqs
  {
    && d.Valid() && Shaped(before) && |before.vqs| == 8
    && ActionOf(op).Valid(8) && d.State() == Step(before, ActionOf(op))
  }

  method RunCommon(d: Driver, a: Action)
    requires d.Valid() && d.vqs.Length == 8 && ValidOp(Common(a))
    modifies d, d.vqs
    ensures Stepped(old(d.State()), d, Common(a))
  {
    DispatchCommon(d, a);
  }

  method RunRequest(d: Driver, r: FuseRequest)
    requires d.Valid() && d.vqs.Length == 8
    modifies d, d.vqs
    ensures Stepped(old(d.State()), d, Request(r))
  {
    OpsAreActions(Request(r));
    SubmitFuse(d, r);
  }

  method RunHighPriority(d: Driver, m: HpReq)
    requires d.Valid() && d.vqs.Length == 8
    modifies d, d.vqs
    ensures Stepped(old(d.State()), d, HighPriority(m))
  {
    OpsAreActions(HighPriority(m));
    SubmitFuseHp(d, m);
  }

  method Dispatch(d: Driver, op: Op)
    requires d.Valid() && d.vqs.Length == 8 && ValidOp(op)
    modifies d, d.vqs
    ensures Stepped(old(d.State()), d, op)
  {
    if op.Common? {
      RunCommon(d, op.action);
    } else if op.Request? {
      RunRequest(d, op.r);
    } else {
      RunHighPriority(d, op.m);
    }
  }

  /** A device that follows the chain of a typed request, in any reachable state, reads a message
      that parses to the request, and finds cleared room for the answer after it. */
  lemma RequestSeen(m0: Memory, s: Core, acts: seq<Action>, r: FuseRequest)
    requires Shaped(s) && |s.vqs| == 8 && ValidActions(8, acts) && SmallDeviceRun(acts)
    requires var c, sub := Run(Reset(s), acts), RequestSubmission(r);
             sub.Valid(8) && GoesThrough(c, sub) && Followable(c, |acts|, sub)
    ensures var c, sub := Run(Reset(s), acts), RequestSubmission(r);
            var m, q := Image(m0, Submit(c, sub).log), c.vqs[sub.vq];
            var hops := Walk(m, sub.vq, q.nextDesc % q.size, 256);
            && |hops| == 2 && !hops[0].desc.Writable()
            && MessageIs(Peek(m, hops[0].desc.addr, hops[0].desc.len), r)
            && Cleared(m, hops[1].desc, AnswerSize(r.inBufSize))
  {
    var c, sub := Run(Reset(s), acts), RequestSubmission(r);
    OpsAreActions(Request(r));
    DeviceView(m0, s, acts, sub);
    var m, q := Image(m0, Submit(c, sub).log), c.vqs[sub.vq];
    var hops := Walk(m, sub.vq, q.nextDesc % q.size, 256);
    assert SeesPart(m, hops[0].desc, sub.parts[0]) && SeesPart(m, hops[1].desc, sub.parts[1]);
    MessageCarries(r);
  }

  /** What a request says: its header and its arguments as they are on the wire; of a raw request, its
      opcode and at most 4096 bytes of its payload. */
  predicate MessageIs(s: seq<byte>, r: FuseRequest) {
    var p := ParseMessage(s);
    && p.Some? && p.value.unique == r.unique && p.value.nodeid == r.nodeid
    && p.value.uid == r.uid && p.value.gid == r.gid && p.value.pid == r.pid
    && if r.args.RawArgs? then
         p.value.opcode == r.args.rawOpcode && |s| >= 40
         && s[40..] == r.args.payload[..Min(|r.args.payload|, 4096)]
       else p.value.opcode == Opcode(r.args) && p.value.args == Some(Wire(r.args))
  }

  lemma MessageCarries(r: FuseRequest)
    ensures MessageIs(RequestBytes(r), r)
  {
    if r.args.RawArgs? {
      RawRoundTrip(r);
    } else {
      MessageRoundTrip(r);
    }
  }

  /** Bytes of room for the answer: 1024 if the op asks for none, else what it asks for between 16 and
      4096. */
  function AnswerSize(asked: u32): u32 {
    if asked == 0 then 1024 else if asked < 16 then 16 else if asked > 4096 then 4096 else asked
  }
}
