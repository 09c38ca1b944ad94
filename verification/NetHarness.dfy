/** The net harness: device-aware state that one op records and a later op uses. */
module NetHarness {
  import opened Bytes
  import opened Guest
  import opened Virtqueue
  import opened Confinement
  import opened DriverCore
  import opened Assembly
  import opened Chain
  import opened SubmissionTheorems
  import opened Net
  import opened Wrappers

  datatype Op =
    | Common(action: Action)
    | Tx(p: TxPacket)
    | CtrlCmd(vqIdx: u32, vclass: u32, cmd: u32, data: blob)
    | CtrlRx(cmd: u32, enable: u32)
    | MacAddrSet(mac: blob)
    | MacTableSet(slot: u32, macs: MacTable)
    | VlanAdd(slot: u32, vid: u32)
    | VlanDel(slot: u32, useSlot: bool, vid: u32)
    | AnnounceAck
    | MqPairsSet(pairs: u32)
    | GuestOffloads(offloads: u64)
    | Rss(m: RssConfig)

  predicate ValidOp(op: Op) {
    op.Common? ==> !op.action.DoStage? && !op.action.DoSubmit? && (op.action.DoAddDesc? ==> op.action.floor == 0)
  }

  datatype NetState = NetState(
    core: Core, activePairs: u32, currentMac: seq<byte>, vlanSlots: seq<u16>, vlanValid: seq<bool>,
    macLists: seq<MacTable>)

  ghost predicate Sound(st: NetState) {
    && Shaped(st.core) && |st.core.vqs| == QUEUES
    && 1 <= st.activePairs <= 3
    && |st.currentMac| == 6
    && |st.vlanSlots| == VLAN_SLOTS && |st.vlanValid| == VLAN_SLOTS && |st.macLists| == MAC_SLOTS
  }

  function Cvq(st: NetState): u32
    requires st.activePairs <= 3
  {
    2 * st.activePairs
  }

  const NO_MACS := MacTable([], [])

  function ResetNet(core: Core): NetState {
    NetState(core, 1, Zeros(6), seq(VLAN_SLOTS, _ => 0), seq(VLAN_SLOTS, _ => false), seq(MAC_SLOTS, _ => NO_MACS))
  }

  /** The VID a delete names: with `useSlot`, the one remembered in the slot, or 0. */
  function DelVid(st: NetState, slot: u32, useSlot: bool, vid: u32): u16
    requires |st.vlanSlots| == |st.vlanValid| == VLAN_SLOTS
  {
    if !useSlot then vid % 0x1000
    else if st.vlanValid[slot % VLAN_SLOTS] then st.vlanSlots[slot % VLAN_SLOTS] else 0
  }

  function PairsFor(requested: u32): u32 { Clamp(requested, 1, QUEUES / 2 - 1) }

  datatype Ctrl = Ctrl(vq: u32, vclass: byte, cmd: byte, payload: seq<byte>)

  function SubmissionOf(c: Ctrl): Submission { CtrlSubmission(c.vq, c.vclass, c.cmd, c.payload) }

  /** The control command an op sends. */
  function CtrlOf(st: NetState, op: Op): (c: Ctrl)
    requires !op.Common? && !op.Tx? && st.activePairs <= 3 && |st.vlanSlots| == |st.vlanValid| == VLAN_SLOTS
    ensures c.vq < QUEUES
  {
    var q := Cvq(st);
    match op
    case CtrlCmd(v, vclass, cmd, data) => Ctrl(v % QUEUES, vclass % 0x100, cmd % 0x100, Truncate(data, 1024))
    case CtrlRx(cmd, enable) => Ctrl(q, 0, cmd % 0x100, [enable % 0x100])
    case MacAddrSet(mac) => Ctrl(q, 1, 1, Pad6(mac))
    case MacTableSet(_, macs) => Ctrl(q, 1, 0, MacTablePayload(macs))
    case VlanAdd(_, vid) => Ctrl(q, 2, 0, Le16(vid % 0x1000))
    case VlanDel(slot, useSlot, vid) => Ctrl(q, 2, 1, Le16(DelVid(st, slot, useSlot, vid)))
    case AnnounceAck => Ctrl(q, 3, 0, [])
    case MqPairsSet(n) => Ctrl(q, 4, 0, Le16(PairsFor(n)))
    case GuestOffloads(offloads) => Ctrl(q, 5, 0, Le64(offloads))
    case Rss(m) => Ctrl(q, 4, 1, RssPayload(m))
  }

  /** What an op does to the core. */
  function ActionOf(st: NetState, op: Op): Action
    requires ValidOp(op) && st.activePairs <= 3 && |st.vlanSlots| == |st.vlanValid| == VLAN_SLOTS
  {
    if op.Common? then op.action
    else if op.Tx? then DoSubmit(TxSubmission(op.p))
    else DoSubmit(SubmissionOf(CtrlOf(st, op)))
  }

  lemma ActionIsValid(st: NetState, op: Op)
    requires ValidOp(op) && Sound(st)
    ensures ActionOf(st, op).Valid(QUEUES)
  {
    if !op.Common? && !op.Tx? {
      var c := CtrlOf(st, op);
      CtrlShape(c.vq, c.vclass, c.cmd, c.payload);
    }
  }

  /** What the harness itself remembers of an op. */
  function Remember(st: NetState, op: Op): NetState
    requires |st.vlanSlots| == |st.vlanValid| == VLAN_SLOTS && |st.macLists| == MAC_SLOTS
  {
    match op
    case MacAddrSet(mac) => st.(currentMac := Pad6(mac))
    case MacTableSet(slot, macs) => st.(macLists := st.macLists[slot % MAC_SLOTS := macs])
    case VlanAdd(slot, vid) =>
      st.(vlanSlots := st.vlanSlots[slot % VLAN_SLOTS := vid % 0x1000],
          vlanValid := st.vlanValid[slot % VLAN_SLOTS := true])
    case VlanDel(slot, useSlot, _) =>
      if useSlot then st.(vlanValid := st.vlanValid[slot % VLAN_SLOTS := false]) else st
    case MqPairsSet(n) => st.(activePairs := PairsFor(n))
    case _ => st
  }

  predicate IsReset(op: Op) { op.Common? && op.action.DoReset? }

  function NetStep(st: NetState, op: Op): NetState
    requires ValidOp(op) && Sound(st)
  {
    ActionIsValid(st, op);
    var core := Step(st.core, ActionOf(st, op));
    if IsReset(op) then ResetNet(core) else Remember(st, op).(core := core)
  }

  predicate ValidOps(ops: seq<Op>) {
    forall op | op in ops :: ValidOp(op)
  }

  lemma StepSound(st: NetState, op: Op)
    requires ValidOp(op) && Sound(st)
    ensures Sound(NetStep(st, op))
  {
    ActionIsValid(st, op);
    StepShape(st.core, ActionOf(st, op));
  }

  function NetRun(st: NetState, ops: seq<Op>): (r: NetState)
    requires ValidOps(ops) && Sound(st)
    ensures Sound(r)
  {
    if ops == [] then st
    else
      var k := |ops| - 1;
      var t := NetRun(st, ops[..k]);
      StepSound(t, ops[k]);
      NetStep(t, ops[k])
  }

  /** The actions a run performs on the core. */
  function Actions(st: NetState, ops: seq<Op>): (acts: seq<Action>)
    requires ValidOps(ops) && Sound(st)
    ensures |acts| == |ops|
  {
    if ops == [] then []
    else
      var k := |ops| - 1;
      Actions(st, ops[..k]) + [ActionOf(NetRun(st, ops[..k]), ops[k])]
  }

  /** A net run is a run of the core, so everything proved of core runs holds of it. */
  lemma {:induction false} NetRunIsCoreRun(st: NetState, ops: seq<Op>)
    requires ValidOps(ops) && Sound(st)
    ensures ValidActions(QUEUES, Actions(st, ops))
    ensures NetRun(st, ops).core == Run(st.core, Actions(st, ops))
  {
    if ops != [] {
      var k := |ops| - 1;
      NetRunIsCoreRun(st, ops[..k]);
      var t := NetRun(st, ops[..k]);
      ActionIsValid(t, ops[k]);
      RunSnoc(st.core, Actions(st, ops[..k]), ActionOf(t, ops[k]));
    }
  }

  // Slot state against the history of ops.

  /** The number of pairs the latest MqPairsSet since the last reset left behind, 1 if none did. */
  function LatestPairs(ops: seq<Op>): u32 {
    if ops == [] then 1
    else
      var k := |ops| - 1;
      match ops[k]
      case Common(a) => if a.DoReset? then 1 else LatestPairs(ops[..k])
      case MqPairsSet(n) => if n < 1 then 1 else if n > 3 then 3 else n
      case _ => LatestPairs(ops[..k])
  }

  /** The VID of the latest add to `slot` since that slot was last used for a delete or reset. */
  function LatestVid(ops: seq<Op>, slot: nat): u16 {
    if ops == [] then 0
    else
      var k := |ops| - 1;
      match ops[k]
      case Common(a) => if a.DoReset? then 0 else LatestVid(ops[..k], slot)
      case VlanAdd(other, vid) => if other % 16 == slot then vid % 4096 else LatestVid(ops[..k], slot)
      case VlanDel(other, useSlot, _) =>
        if useSlot && other % 16 == slot then 0 else LatestVid(ops[..k], slot)
      case _ => LatestVid(ops[..k], slot)
  }

  lemma PairsStep(st: NetState, op: Op)
    requires ValidOp(op) && Sound(st)
    ensures NetStep(st, op).activePairs ==
            match op
            case Common(a) => if a.DoReset? then 1 else st.activePairs
            case MqPairsSet(n) => PairsFor(n)
            case _ => st.activePairs
  {
  }

  lemma VidStep(st: NetState, op: Op, slot: u32)
    requires ValidOp(op) && Sound(st) && slot < VLAN_SLOTS
    ensures Sound(NetStep(st, op))
    ensures DelVid(NetStep(st, op), slot, true, 0) ==
            match op
            case Common(a) => if a.DoReset? then 0 else DelVid(st, slot, true, 0)
            case VlanAdd(other, vid) => if other % VLAN_SLOTS == slot then vid % 0x1000 else DelVid(st, slot, true, 0)
            case VlanDel(other, useSlot, _) =>
              if useSlot && other % VLAN_SLOTS == slot then 0 else DelVid(st, slot, true, 0)
            case _ => DelVid(st, slot, true, 0)
  {
    StepSound(st, op);
    TablesAfter(st, op);
    if op.VlanAdd? || op.VlanDel? {
      VidRemembered(st, op, slot);
    }
  }

  lemma TablesAfter(st: NetState, op: Op)
    requires ValidOp(op) && Sound(st)
    ensures var t, r := NetStep(st, op), Remember(st, op);
            if IsReset(op) then t == ResetNet(t.core)
            else t.vlanSlots == r.vlanSlots && t.vlanValid == r.vlanValid
  {
  }

  lemma VidRemembered(st: NetState, op: Op, slot: u32)
    requires Sound(st) && slot < VLAN_SLOTS && (op.VlanAdd? || op.VlanDel?)
    ensures DelVid(Remember(st, op), slot, true, 0) ==
            if op.VlanAdd? && op.slot % VLAN_SLOTS == slot then op.vid % 0x1000
            else if op.VlanDel? && op.useSlot && op.slot % VLAN_SLOTS == slot then 0
            else DelVid(st, slot, true, 0)
  {
  }

  lemma {:induction false} PairsFollowHistory(core: Core, ops: seq<Op>)
    requires ValidOps(ops) && Shaped(core) && |core.vqs| == QUEUES
    ensures NetRun(ResetNet(core), ops).activePairs == LatestPairs(ops)
  {
    if ops != [] {
      var k := |ops| - 1;
      PairsFollowHistory(core, ops[..k]);
      PairsStep(NetRun(ResetNet(core), ops[..k]), ops[k]);
    }
  }

  lemma {:induction false} VidsFollowHistory(core: Core, ops: seq<Op>, slot: u32)
    requires ValidOps(ops) && Shaped(core) && |core.vqs| == QUEUES && slot < VLAN_SLOTS
    ensures DelVid(NetRun(ResetNet(core), ops), slot, true, 0) == LatestVid(ops, slot)
  {
    if ops != [] {
      var k := |ops| - 1;
      VidsFollowHistory(core, ops[..k], slot);
      VidStep(NetRun(ResetNet(core), ops[..k]), ops[k], slot);
    }
  }

  /** Whatever was sent, dropped or failed before, a control command goes to queue 2, 4 or 6 as the
      last pair count says, and a delete by slot carries the VID that the history of the slot gives. */
  lemma SlotsFollowHistory(core: Core, ops: seq<Op>, slot: u32, vid: u32)
    requires ValidOps(ops) && Shaped(core) && |core.vqs| == QUEUES
    ensures var st := NetRun(ResetNet(core), ops);
            && Cvq(st) == 2 * LatestPairs(ops) && Cvq(st) in {2, 4, 6}
            && ActionOf(st, VlanDel(slot, true, vid)) ==
               DoSubmit(CtrlSubmission(2 * LatestPairs(ops), 2, 1, Le16(LatestVid(ops, slot % VLAN_SLOTS))))
  {
    PairsFollowHistory(core, ops);
    VidsFollowHistory(core, ops, slot % VLAN_SLOTS);
    DeleteAction(NetRun(ResetNet(core), ops), slot, vid, LatestPairs(ops), LatestVid(ops, slot % VLAN_SLOTS));
  }

  lemma DeleteAction(st: NetState, slot: u32, vid: u32, pairs: u32, latest: u16)
    requires Sound(st) && st.activePairs == pairs && DelVid(st, slot % VLAN_SLOTS, true, 0) == latest
    ensures Cvq(st) == 2 * pairs && Cvq(st) in {2, 4, 6}
    ensures ActionOf(st, VlanDel(slot, true, vid)) == DoSubmit(CtrlSubmission(2 * pairs, 2, 1, Le16(latest)))
  {
  }

  /** Every typed net submission is well formed for a device. */
  lemma SubmissionsReadableFirst(st: NetState, op: Op)
    requires ValidOp(op) && Sound(st) && !op.Common?
    ensures ActionOf(st, op).DoSubmit? && ReadableFirst(ActionOf(st, op).sub.parts)
    ensures ActionOf(st, op).Valid(QUEUES)
  {
    ActionIsValid(st, op);
    if !op.Tx? {
      var c := CtrlOf(st, op);
      CtrlShape(c.vq, c.vclass, c.cmd, c.payload);
    }
  }

  predicate SmallDeviceOps(ops: seq<Op>) {
    forall op | op in ops && op.Common? :: SmallDevice(op.action)
  }

  lemma {:induction false} ActionsSmall(st: NetState, ops: seq<Op>)
    requires ValidOps(ops) && Sound(st) && SmallDeviceOps(ops)
    ensures SmallDeviceRun(Actions(st, ops))
  {
    if ops != [] {
      var k := |ops| - 1;
      ActionsSmall(st, ops[..k]);
      var a := ActionOf(NetRun(st, ops[..k]), ops[k]);
      assert ops[k] in ops;
    }
  }

  /** After any net run from a reset, a device that follows the chain of a control command finds the
      class and command bytes, then exactly the payload that was sent (if any), then one writable
      byte for the acknowledgement. */
  lemma ControlSeen(m0: Memory, s: Core, ops: seq<Op>, v: u32, vclass: byte, cmd: byte, payload: seq<byte>)
    requires Shaped(s) && |s.vqs| == QUEUES && ValidOps(ops) && SmallDeviceOps(ops) && v < QUEUES
    requires Sound(ResetNet(Reset(s)))
    requires var r, sub := NetRun(ResetNet(Reset(s)), ops).core, CtrlSubmission(v, vclass, cmd, payload);
             sub.Valid(QUEUES) && GoesThrough(r, sub) && Followable(r, |ops|, sub)
    ensures var r, sub := NetRun(ResetNet(Reset(s)), ops).core, CtrlSubmission(v, vclass, cmd, payload);
            var m, q := Image(m0, Submit(r, sub).log), r.vqs[v];
            var hops := Walk(m, v, q.nextDesc % q.size, 256);
            && |hops| == (if payload == [] then 2 else 3) && ReadableHopsFirst(hops)
            && Peek(m, hops[0].desc.addr, hops[0].desc.len) == [vclass, cmd]
            && (payload != [] ==> Peek(m, hops[1].desc.addr, hops[1].desc.len) == Sent(payload))
            && hops[|hops| - 1].desc.Writable() && hops[|hops| - 1].desc.len == 1
  {
    var st, sub := ResetNet(Reset(s)), CtrlSubmission(v, vclass, cmd, payload);
    NetRunIsCoreRun(st, ops);
    ActionsSmall(st, ops);
    CtrlShape(v, vclass, cmd, payload);
    DeviceView(m0, s, Actions(st, ops), sub);
    var r := NetRun(st, ops).core;
    ControlRead(Image(m0, Submit(r, sub).log), r.vqs[v], v, vclass, cmd, payload);
  }

  lemma ControlRead(m: Memory, q: Vq, v: u32, vclass: byte, cmd: byte, payload: seq<byte>)
    requires q.size > 0 && Readable(m, q, CtrlSubmission(v, vclass, cmd, payload))
    ensures var hops := Walk(m, v, q.nextDesc % q.size, 256);
            && |hops| == (if payload == [] then 2 else 3)
            && Peek(m, hops[0].desc.addr, hops[0].desc.len) == [vclass, cmd]
            && (payload != [] ==> Peek(m, hops[1].desc.addr, hops[1].desc.len) == Sent(payload))
            && hops[|hops| - 1].desc.Writable() && hops[|hops| - 1].desc.len == 1
  {
    var parts, hops := CtrlParts(vclass, cmd, payload), Walk(m, v, q.nextDesc % q.size, 256);
    assert SeesPart(m, hops[0].desc, parts[0]);
    assert SeesPart(m, hops[|hops| - 1].desc, parts[|hops| - 1]);
    if payload != [] {
      assert SeesPart(m, hops[1].desc, parts[1]);
    }
  }

  /** The chain of a packet: the header, and the frame unless the packet is empty; nothing writable. */
  ghost predicate PacketFound(m: Memory, hops: seq<Hop>, p: TxPacket) {
    && |hops| == (if p.payload == [] then 1 else 2)
    && Peek(m, hops[0].desc.addr, hops[0].desc.len) == NetHeader(p) && !hops[0].desc.Writable()
    && (p.payload != [] ==>
          IsFrameOf(Peek(m, hops[1].desc.addr, hops[1].desc.len), p) && !hops[1].desc.Writable())
  }

  /** After any net run from a reset, a device that follows the chain of a packet finds the header
      and, unless the frame is empty, the frame, and nothing writable. */
  lemma PacketSeen(m0: Memory, s: Core, ops: seq<Op>, p: TxPacket)
    requires Shaped(s) && |s.vqs| == QUEUES && ValidOps(ops) && SmallDeviceOps(ops)
    requires Sound(ResetNet(Reset(s)))
    requires var r, sub := NetRun(ResetNet(Reset(s)), ops).core, TxSubmission(p);
             sub.Valid(QUEUES) && GoesThrough(r, sub) && Followable(r, |ops|, sub)
    ensures var r, sub := NetRun(ResetNet(Reset(s)), ops).core, TxSubmission(p);
            var m, q := Image(m0, Submit(r, sub).log), r.vqs[sub.vq];
            var hops := Walk(m, sub.vq, q.nextDesc % q.size, 256);
            PacketFound(m, hops, p)
  {
    var st, sub := ResetNet(Reset(s)), TxSubmission(p);
    NetRunIsCoreRun(st, ops);
    ActionsSmall(st, ops);
    DeviceView(m0, s, Actions(st, ops), sub);
    var r := NetRun(st, ops).core;
    PacketRead(Image(m0, Submit(r, sub).log), r.vqs[sub.vq], p);
  }

  lemma PacketRead(m: Memory, q: Vq, p: TxPacket)
    requires q.size > 0 && Readable(m, q, TxSubmission(p))
    ensures var hops := Walk(m, TxSubmission(p).vq, q.nextDesc % q.size, 256);
            PacketFound(m, hops, p)
  {
    var sub := TxSubmission(p);
    var hops := Walk(m, sub.vq, q.nextDesc % q.size, 256);
    FrameIs(p);
    assert SeesPart(m, hops[0].desc, sub.parts[0]);
    if Frame(p) != [] {
      assert SeesPart(m, hops[1].desc, sub.parts[1]);
    }
  }

  // Sending, as the harness does it.

  lemma CtrlPartsAt(vclass: byte, cmd: byte, payload: seq<byte>)
    ensures var parts := CtrlParts(vclass, cmd, payload); var k := if payload != [] then 2 else 1;
            && |parts| == k + 1 && parts[0].chunks == Whole([vclass, cmd])
            && (payload != [] ==> parts[1].chunks == Whole(Sent(payload))) && parts[k].chunks == Whole([0xff])
            && forall i | 0 <= i < |parts| :: parts[i].writable <==> i == k
  {
  }

  function CtrlIds(headerId: u32, dataId: u32, hasData: bool): seq<u32> {
    [headerId] + if hasData then [dataId] else []
  }

  method StageCtrl(d: Driver, vclass: byte, cmd: byte, payload: seq<byte>, ghost s0: Core)
    returns (headerId: u32, dataId: u32, ok: bool)
    requires d.Valid() && d.State() == s0
    modifies d
    ensures d.Valid()
    ensures if ok then Holding(d, s0, CtrlParts(vclass, cmd, payload), CtrlIds(headerId, dataId, payload != []))
            else AllocAll(s0, CtrlParts(vclass, cmd, payload), true) == (d.State(), None)
  {
    ghost var parts := CtrlParts(vclass, cmd, payload);
    CtrlPartsAt(vclass, cmd, payload);
    dataId, ok := 0, false;
    HoldingNothing(d, s0, parts);
    headerId := AllocMore(d, [vclass, cmd], s0, parts, []);
    if headerId == 0 {
      return;
    }
    assert [] + [headerId] == [headerId] == [headerId] + [];
    if payload != [] {
      dataId := AllocMore(d, payload[..Min(Wrap32(|payload|), CTRL_CAP)], s0, parts, [headerId]);
      if dataId == 0 {
        return;
      }
    }
    ok := true;
  }

  method StageAck(d: Driver, headerId: u32, dataId: u32, hasData: bool, ghost s0: Core, ghost parts: seq<Part>)
    returns (ok: bool, h: Buf, c: Buf, a: Buf)
    requires d.Valid() && Holding(d, s0, parts, CtrlIds(headerId, dataId, hasData))
    requires |parts| == (if hasData then 3 else 2) && parts[|parts| - 1].chunks == Whole([0xff])
    modifies d
    ensures d.Valid()
    ensures if ok then Staged(s0, d.State(), parts, CtrlBufs(h, c, a, hasData))
            else AllocAll(s0, parts, true) == (d.State(), None)
  {
    h, c, a := Buf(0, 0), Buf(0, 0), Buf(0, 0);
    var ackId := AllocMore(d, [0xff], s0, parts, CtrlIds(headerId, dataId, hasData));
    ok := ackId != 0;
    if ok {
      h, c, a := CtrlBuffers(d, headerId, dataId, ackId, hasData, s0, parts);
    }
  }

  /** Looks the buffers up by their ids; `c` means something only with data. */
  method CtrlBuffers(
    d: Driver, headerId: u32, dataId: u32, ackId: u32, hasData: bool, ghost s0: Core, ghost parts: seq<Part>)
    returns (h: Buf, c: Buf, a: Buf)
    requires d.Valid() && Holding(d, s0, parts, CtrlIds(headerId, dataId, hasData) + [ackId])
    ensures Staged(s0, d.State(), parts, CtrlBufs(h, c, a, hasData))
  {
    ghost var ids, k := CtrlIds(headerId, dataId, hasData) + [ackId], if hasData then 2 else 1;
    assert ids[0] == headerId && ids[k] == ackId;
    h, c, a := d.bufs[headerId], Buf(0, 0), d.bufs[ackId];
    if hasData {
      assert ids[1] == dataId;
      c := d.bufs[dataId];
    }
    assert Lookup(d.bufs, ids) == CtrlBufs(h, c, a, hasData);
  }

  function CtrlBufs(h: Buf, c: Buf, a: Buf, hasData: bool): seq<Buf> {
    [h] + (if hasData then [c] else []) + [a]
  }

  method SendCtrl(d: Driver, v: u32, h: Buf, c: Buf, a: Buf, hasData: bool, ghost parts: seq<Part>)
    requires d.Valid() && CanPlace(d.State(), v)
    requires |parts| == if hasData then 3 else 2
    requires forall i | 0 <= i < |parts| :: parts[i].writable <==> i == |parts| - 1
    modifies d, d.vqs
    ensures d.Valid()
    ensures d.State() == Emit(PlaceAll(old(d.State()), v, CtrlBufs(h, c, a, hasData), parts),
                              Registers([RegWrite(R_QUEUE_NOTIFY, v)]))
  {
    ghost var rest, left := CtrlBufs(h, c, a, hasData), parts;
    PlaceNext(d, v, h, false, true, rest, left);
    rest, left := rest[1..], left[1..];
    if hasData {
      PlaceNext(d, v, c, false, true, rest, left);
      rest, left := rest[1..], left[1..];
    }
    PlaceNext(d, v, a, true, false, rest, left);
    rest := rest[1..];
    assert rest == [];
    d.Notify(v);
  }

  method SubmitCtrl(d: Driver, v: u32, vclass: byte, cmd: byte, payload: seq<byte>)
    requires d.Valid() && d.vqs.Length == QUEUES && v < QUEUES
    modifies d, d.vqs
    ensures d.Valid() && d.State() == Submit(old(d.State()), CtrlSubmission(v, vclass, cmd, payload))
  {
    ghost var s0, sub := d.State(), CtrlSubmission(v, vclass, cmd, payload);
    var room := Room(d, v, 3);
    if !room {
      return;
    }
    CtrlPartsAt(vclass, cmd, payload);
    var headerId, dataId, ok := StageCtrl(d, vclass, cmd, payload, s0);
    if !ok {
      GaveUp(s0, d.State(), sub);
      return;
    }
    FinishCtrl(d, v, headerId, dataId, payload != [], s0, sub);
  }

  /** The acknowledgement byte, the chain and the notification. */
  method FinishCtrl(
    d: Driver, v: u32, headerId: u32, dataId: u32, hasData: bool, ghost s0: Core, ghost sub: Submission)
    requires d.Valid() && Holding(d, s0, sub.parts, CtrlIds(headerId, dataId, hasData))
    requires Shaped(s0) && sub.Valid(|s0.vqs|) && sub.vq == v && sub.named && sub.tail == []
    requires HasRoom(s0, v, sub.slack)
    requires |sub.parts| == sub.placed == (if hasData then 3 else 2)
    requires sub.parts[|sub.parts| - 1].chunks == Whole([0xff])
    requires forall i | 0 <= i < |sub.parts| :: sub.parts[i].writable <==> i == |sub.parts| - 1
    modifies d, d.vqs
    ensures d.Valid() && d.State() == Submit(s0, sub)
  {
    var ok, h, c, a := StageAck(d, headerId, dataId, hasData, s0, sub.parts);
    if !ok {
      GaveUp(s0, d.State(), sub);
      return;
    }
    ghost var bs := CtrlBufs(h, c, a, hasData);
    RemainingWhole(s0, d.State(), bs, sub);
    SendCtrl(d, v, h, c, a, hasData, sub.parts);
  }

  method SendFrame(d: Driver, v: u32, h: Buf, f: Buf, hasFrame: bool, ghost parts: seq<Part>)
    requires d.Valid() && CanPlace(d.State(), v)
    requires |parts| == 2 && !parts[0].writable && !parts[1].writable
    modifies d, d.vqs
    ensures d.Valid()
    ensures d.State() == Emit(PlaceAll(old(d.State()), v, [h, f][..if hasFrame then 2 else 1], parts),
                              Registers([RegWrite(R_QUEUE_NOTIFY, v)]))
  {
    ghost var rest := [h, f][..if hasFrame then 2 else 1];
    PlaceNext(d, v, h, false, hasFrame, rest, parts);
    if hasFrame {
      assert rest[1..] == [f];
      PlaceNext(d, v, f, false, false, rest[1..], parts[1..]);
      assert rest[1..][1..] == [];
    } else {
      assert rest[1..] == [];
    }
    d.Notify(v);
  }

  /** `pl`, built by appends, is the frame to send. */
  method BuildFrame(p: TxPacket) returns (pl: blob)
    ensures pl == Frame(p)
  {
    var full: seq<byte> := [];
    if p.vlanTci != 0 && |p.payload| >= 14 {
      full := full + p.payload[..12];
      full := full + [0x81, 0x00, p.vlanTci / 0x100 % 0x100, p.vlanTci % 0x100];
      full := full + p.payload[12..];
    } else {
      full := p.payload;
    }
    var plen := Min(|full|, FRAME_CAP);
    pl := full[..plen];
  }

  method SubmitTx(d: Driver, p: TxPacket)
    requires d.Valid() && d.vqs.Length == QUEUES
    modifies d, d.vqs
    ensures d.Valid() && d.State() == Submit(old(d.State()), TxSubmission(p))
  {
    ghost var s0, sub := d.State(), TxSubmission(p);
    var v := p.vqIdx % QUEUES;
    var room := Room(d, v, 2);
    if !room {
      return;
    }
    var pl := BuildFrame(p);
    var ok, h, f := StageTwo(d, NetHeader(p), pl, s0, sub.parts);
    if !ok {
      GaveUp(s0, d.State(), sub);
      return;
    }
    Remaining(s0, d.State(), [h, f], sub);
    assert [RegWrite(R_QUEUE_NOTIFY, v)] + sub.tail == [RegWrite(R_QUEUE_NOTIFY, v)];
    SendFrame(d, v, h, f, |pl| > 0, sub.parts);
  }

  // The harness itself.

  predicate Traceless(op: Op) { op.CtrlCmd? || op.CtrlRx? || op.AnnounceAck? || op.GuestOffloads? }

  /** The state once a control command is out and before anything is remembered. */
  function AfterCtrl(st: NetState, c: Ctrl): NetState
    requires Sound(st) && c.vq < QUEUES
  {
    CtrlShape(c.vq, c.vclass, c.cmd, c.payload);
    st.(core := Submit(st.core, SubmissionOf(c)))
  }

  lemma CtrlStep(st: NetState, op: Op)
    requires Sound(st) && !op.Common? && !op.Tx?
    ensures NetStep(st, op) == Remember(st, op).(core := AfterCtrl(st, CtrlOf(st, op)).core)
  {
  }

  class Harness {
    const d: Driver
    var activePairs: u32
    var currentMac: seq<byte>
    const vlanSlots: array<u16>
    const vlanValid: array<bool>
    const macLists: array<MacTable>

    ghost predicate Valid()
      reads this, d, d.vqs, vlanSlots, vlanValid, macLists
    {
      && d.Valid() && d.vqs.Length == QUEUES
      && vlanSlots.Length == VLAN_SLOTS && vlanValid.Length == VLAN_SLOTS && macLists.Length == MAC_SLOTS
      && 1 <= activePairs <= 3 && |currentMac| == 6
    }

    ghost function State(): NetState
      reads this, d, d.vqs, vlanSlots, vlanValid, macLists
    {
      NetState(d.State(), activePairs, currentMac, vlanSlots[..], vlanValid[..], macLists[..])
    }

    constructor (dram: Memory)
      ensures Valid() && fresh(d) && fresh(d.vqs) && fresh(vlanSlots) && fresh(vlanValid) && fresh(macLists)
      ensures State() == ResetNet(Unset(QUEUES, BufPoolBase(QUEUES), SYNTH_BASE, []))
    {
      d := new Driver(QUEUES, BufPoolBase(QUEUES), SYNTH_BASE, dram);
      activePairs, currentMac := 1, Zeros(6);
      vlanSlots := new u16[VLAN_SLOTS](_ => 0);
      vlanValid := new bool[VLAN_SLOTS](_ => false);
      macLists := new MacTable[MAC_SLOTS](_ => NO_MACS);
      new;
      assert vlanSlots[..] == ResetNet(d.State()).vlanSlots;
      assert vlanValid[..] == ResetNet(d.State()).vlanValid;
      assert macLists[..] == ResetNet(d.State()).macLists;
    }

    /** The device-aware half of the reset. */
    method ForgetSlots()
      requires Valid()
      modifies this, vlanSlots, vlanValid, macLists
      ensures Valid() && State() == ResetNet(old(d.State())) && d.State() == old(d.State())
    {
      activePairs, currentMac := 1, Zeros(6);
      var i := 0;
      while i < VLAN_SLOTS
        invariant 0 <= i <= VLAN_SLOTS
        invariant forall k | 0 <= k < i :: vlanSlots[k] == 0 && vlanValid[k] == false
        modifies vlanSlots, vlanValid
      {
        vlanSlots[i], vlanValid[i] := 0, false;
        i := i + 1;
      }
      i := 0;
      while i < MAC_SLOTS
        invariant 0 <= i <= MAC_SLOTS
        invariant forall k | 0 <= k < i :: macLists[k] == NO_MACS
        modifies macLists
      {
        macLists[i] := NO_MACS;
        i := i + 1;
      }
      assert vlanSlots[..] == ResetNet(d.State()).vlanSlots;
      assert vlanValid[..] == ResetNet(d.State()).vlanValid;
      assert macLists[..] == ResetNet(d.State()).macLists;
    }

    ghost predicate Stepped(before: NetState, op: Op)
      reads this, d, d.vqs, vlanSlots, vlanValid, macLists
    {
      Valid() && Sound(before) && ValidOp(op) && State() == NetStep(before, op)
    }

    method Dispatch(op: Op)
      requires Valid() && ValidOp(op)
      modifies this, d, d.vqs, vlanSlots, vlanValid, macLists
      ensures Stepped(old(State()), op)
    {
      if op.Common? {
        RunCommon(op.action);
      } else if op.Tx? {
        RunTx(op.p);
      } else if Traceless(op) {
        RunTraceless(op);
      } else if op.VlanAdd? || op.VlanDel? {
        RunVlan(op);
      } else {
        RunConfig(op);
      }
    }

    method RunCommon(a: Action)
      requires Valid() && ValidOp(Common(a))
      modifies this, d, d.vqs, vlanSlots, vlanValid, macLists
      ensures Stepped(old(State()), Common(a))
    {
      DispatchCommon(d, a);
      if a.DoReset? {
        ForgetSlots();
      }
    }

    method RunTx(p: TxPacket)
      requires Valid()
      modifies this, d, d.vqs
      ensures Stepped(old(State()), Tx(p))
    {
      SubmitTx(d, p);
    }

    /** Control commands that leave no trace in the harness. */
    method RunTraceless(op: Op)
      requires Valid() && Traceless(op)
      modifies this, d, d.vqs
      ensures Stepped(old(State()), op)
    {
      ghost var st := State();
      if op.CtrlCmd? {
        SendCtrlCmd(op.vqIdx, op.vclass, op.cmd, op.data);
      } else if op.CtrlRx? {
        SendOn(0, op.cmd % 0x100, [op.enable % 0x100]);
      } else if op.AnnounceAck? {
        SendOn(3, 0, []);
      } else {
        SendOn(5, 0, Le64(op.offloads));
      }
      CtrlStep(st, op);
    }

    method RunVlan(op: Op)
      requires Valid() && (op.VlanAdd? || op.VlanDel?)
      modifies this, d, d.vqs, vlanSlots, vlanValid
      ensures Stepped(old(State()), op)
    {
      ghost var st := State();
      if op.VlanAdd? {
        AddVlan(op.slot, op.vid);
      } else {
        DelVlan(op.slot, op.useSlot, op.vid);
      }
      CtrlStep(st, op);
    }

    method RunConfig(op: Op)
      requires Valid() && (op.MacAddrSet? || op.MacTableSet? || op.MqPairsSet? || op.Rss?)
      modifies this, d, d.vqs, macLists
      ensures Stepped(old(State()), op)
    {
      ghost var st := State();
      if op.MacAddrSet? {
        SetMacAddr(op.mac);
      } else if op.MacTableSet? {
        SetMacTable(op.slot, op.macs);
      } else if op.MqPairsSet? {
        SetPairs(op.pairs);
      } else {
        ConfigureRss(op.m);
      }
      CtrlStep(st, op);
    }

    method SendCtrlCmd(vqIdx: u32, vclass: u32, cmd: u32, data: blob)
      requires Valid()
      modifies d, d.vqs
      ensures Valid() && Sound(old(State()))
      ensures State() ==
              AfterCtrl(old(State()), Ctrl(vqIdx % QUEUES, vclass % 0x100, cmd % 0x100, Truncate(data, 1024)))
    {
      SubmitCtrl(d, vqIdx % QUEUES, vclass % 0x100, cmd % 0x100, Truncate(data, 1024));
    }

    /** Sends on the control queue, wherever the pair count has put it. */
    method SendOn(vclass: byte, cmd: byte, payload: seq<byte>)
      requires Valid()
      modifies d, d.vqs
      ensures Valid() && Sound(old(State()))
      ensures State() == AfterCtrl(old(State()), Ctrl(2 * old(activePairs), vclass, cmd, payload))
    {
      SubmitCtrl(d, 2 * activePairs, vclass, cmd, payload);
    }

    method ConfigureRss(m: RssConfig)
      requires Valid()
      modifies d, d.vqs
      ensures Valid() && Sound(old(State()))
      ensures State() == AfterCtrl(old(State()), Ctrl(2 * old(activePairs), 4, 1, RssPayload(m)))
    {
      var payload := BuildRss(m);
      SendOn(4, 1, payload);
    }

    method SetMacAddr(mac: blob)
      requires Valid()
      modifies this, d, d.vqs
      ensures Valid() && Sound(old(State()))
      ensures State() == AfterCtrl(old(State()), Ctrl(2 * old(activePairs), 1, 1, Pad6(mac))).(currentMac := Pad6(mac))
    {
      var mac6 := Resize(mac, 6);
      SendOn(1, 1, mac6);
      currentMac := mac6;
    }

    /** The count is recorded only after the command went out on the old control queue. */
    method SetPairs(n: u32)
      requires Valid()
      modifies this, d, d.vqs
      ensures Valid() && Sound(old(State()))
      ensures State() ==
              AfterCtrl(old(State()), Ctrl(2 * old(activePairs), 4, 0, Le16(PairsFor(n)))).(activePairs := PairsFor(n))
    {
      var pairs := Clamp(n, 1, QUEUES / 2 - 1);
      SendOn(4, 0, Le16(pairs));
      activePairs := pairs;
    }

    method SetMacTable(slot: u32, macs: MacTable)
      requires Valid()
      modifies d, d.vqs, macLists
      ensures Valid() && Sound(old(State()))
      ensures State() == AfterCtrl(old(State()), Ctrl(2 * old(activePairs), 1, 0, MacTablePayload(macs))).(
                macLists := old(macLists[..])[slot % MAC_SLOTS := macs])
    {
      var payload := BuildMacTable(macs);
      SendOn(1, 0, payload);
      macLists[slot % MAC_SLOTS] := macs;
      assert macLists[..] == old(macLists[..])[slot % MAC_SLOTS := macs];
    }

    /** Remembers a VID before the command goes out. */
    method KeepVlan(i: nat, id: u16)
      requires Valid() && i < VLAN_SLOTS
      modifies vlanSlots, vlanValid
      ensures Valid()
      ensures State() ==
              old(State()).(vlanSlots := old(vlanSlots[..])[i := id], vlanValid := old(vlanValid[..])[i := true])
    {
      vlanSlots[i] := id;
      vlanValid[i] := true;
      assert vlanSlots[..] == old(vlanSlots[..])[i := id];
      assert vlanValid[..] == old(vlanValid[..])[i := true];
    }

    method AddVlan(slot: u32, vid: u32)
      requires Valid()
      modifies d, d.vqs, vlanSlots, vlanValid
      ensures Valid() && Sound(old(State()))
      ensures State() == AfterCtrl(old(State()), Ctrl(2 * old(activePairs), 2, 0, Le16(vid % 0x1000))).(
                vlanSlots := old(vlanSlots[..])[slot % VLAN_SLOTS := vid % 0x1000],
                vlanValid := old(vlanValid[..])[slot % VLAN_SLOTS := true])
    {
      KeepVlan(slot % VLAN_SLOTS, vid % 0x1000);
      SendOn(2, 0, Le16(vid % 0x1000));
    }

    /** The VID a slot holds, which is used up by the delete; 0 for an empty slot. */
    method TakeVlan(slot: u32) returns (id: u16)
      requires Valid()
      modifies vlanValid
      ensures Valid() && id == DelVid(old(State()), slot, true, 0)
      ensures State() == old(State()).(vlanValid := old(vlanValid[..])[slot % VLAN_SLOTS := false])
    {
      var i := slot % VLAN_SLOTS;
      id := if vlanValid[i] then vlanSlots[i] else 0;
      if vlanValid[i] {
        vlanValid[i] := false;
      }
      assert vlanValid[..] == old(vlanValid[..])[i := false];
    }

    /** Deletes the VID remembered in a slot. */
    method DelVlanAt(slot: u32)
      requires Valid()
      modifies d, d.vqs, vlanValid
      ensures Valid() && Sound(old(State()))
      ensures State() ==
              AfterCtrl(old(State()), Ctrl(2 * old(activePairs), 2, 1, Le16(DelVid(old(State()), slot, true, 0)))).(
                vlanValid := old(vlanValid[..])[slot % VLAN_SLOTS := false])
    {
      var id := TakeVlan(slot);
      SendOn(2, 1, Le16(id));
    }

    method DelVlan(slot: u32, useSlot: bool, vid: u32)
      requires Valid()
      modifies d, d.vqs, vlanValid
      ensures Valid() && Sound(old(State()))
      ensures State() ==
              AfterCtrl(old(State()),
                        Ctrl(2 * old(activePairs), 2, 1, Le16(DelVid(old(State()), slot, useSlot, vid)))).(
                vlanValid := if useSlot then old(vlanValid[..])[slot % VLAN_SLOTS := false] else old(vlanValid[..]))
    {
      if useSlot {
        DelVlanAt(slot);
      } else {
        SendOn(2, 1, Le16(vid % 0x1000));
      }
    }
  }

  /** The payload builders append field after field. */
  method BuildMacTable(t: MacTable) returns (payload: seq<byte>)
    ensures payload == MacTablePayload(t)
  {
    payload := Le32(Wrap32(|t.unicast|));
    var i := 0;
    while i < |t.unicast|
      invariant 0 <= i <= |t.unicast|
      invariant payload + Macs(t.unicast[i..]) == Le32(Wrap32(|t.unicast|)) + Macs(t.unicast)
    {
      payload := payload + Pad6(t.unicast[i]);
      assert t.unicast[i..][1..] == t.unicast[i + 1..];
      i := i + 1;
    }
    ghost var front := CountedMacs(t.unicast) + Le32(Wrap32(|t.multicast|));
    payload := payload + Le32(Wrap32(|t.multicast|));
    assert t.unicast[i..] == [] && payload == front;
    i := 0;
    while i < |t.multicast|
      invariant 0 <= i <= |t.multicast|
      invariant payload + Macs(t.multicast[i..]) == front + Macs(t.multicast)
    {
      payload := payload + Pad6(t.multicast[i]);
      assert t.multicast[i..][1..] == t.multicast[i + 1..];
      i := i + 1;
    }
    assert t.multicast[i..] == [];
    assert front + Macs(t.multicast) == CountedMacs(t.unicast) + CountedMacs(t.multicast);
  }

  /** What goes out fits the cap and reads back as the configuration. */
  method BuildRss(m: RssConfig) returns (payload: blob)
    ensures payload == RssPayload(m) && |payload| <= CTRL_CAP && ParseRss(payload) == Some(RssSeen(m))
  {
    RssRoundTrip(m);
    var bytes: seq<byte> := Le32(m.hashTypes);
    var mask := m.mask % 128;
    bytes := bytes + Le16(mask);
    bytes := bytes + Le16(m.unclassified % TWO_16);
    var want := (mask + 1) * 2;
    bytes := bytes + Resize(m.table, want);
    bytes := bytes + Le16(m.maxTx % TWO_16);
    var hk := Truncate(m.key, 40);
    bytes := bytes + [|hk|];
    payload := bytes + hk;
  }
}
