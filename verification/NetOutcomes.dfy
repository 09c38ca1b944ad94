/** What each typed net op puts before the device, from the fields of the op and the ops before it. */
module NetOutcomes {
  import opened Bytes
  import opened Guest
  import opened Virtqueue
  import opened Chain
  import opened Counting
  import opened Guards
  import opened Net
  import opened NetHarness
  import opened Wrappers

  // Transmit.

  /** The length of the frame of a packet. */
  function FrameLength(p: TxPacket): nat {
    Min(|p.payload| + if p.vlanTci != 0 && |p.payload| >= 14 then 4 else 0, 9018)
  }

  lemma TxParts(p: TxPacket)
    ensures var sub := TxSubmission(p);
            && sub.Valid(8) && ReadableFirst(sub.parts) && Lengths(sub.parts) == [12, FrameLength(p)]
            && sub.vq == p.vqIdx % 8 && sub.slack == 2 && sub.named && sub.tail == []
            && sub.placed == if p.payload == [] then 1 else 2
  {
    FrameIs(p);
    assert Lengths(TxSubmission(p).parts) == [12, |Frame(p)|];
  }

  /** What a packet does to the queue its index names: sent with two slots to spare, or not at all. */
  ghost predicate PacketSent(m0: Memory, r: Core, t: Core, p: TxPacket)
    requires |r.vqs| == |r.hist.queues| == 8
  {
    var v := p.vqIdx % 8;
    if Free(r, v, 2) && Fitting(r, [12, FrameLength(p)]) then
      && Gained(r, t, v, if p.payload == [] then 1 else 2) && EndsWith(t.log, [Mmio(RegWrite(0x050, v))])
      && PacketFound(Image(m0, t.log), ChainFrom(Image(m0, t.log), r, v), p)
      && Published(Image(m0, t.log), r.vqs[v], TxSubmission(p))
    else Unmoved(r, t) && (!Free(r, v, 2) ==> t == r)
  }

  lemma PacketSentAt(m0: Memory, r: Core, p: TxPacket)
    requires Shaped(r) && |r.vqs| == 8 && TxSubmission(p).Valid(8) && IdsLeft(r, 2)
    requires LeftBehind(m0, r, Submit(r, TxSubmission(p)), TxSubmission(p))
    ensures PacketSent(m0, r, Submit(r, TxSubmission(p)), p)
  {
    TxParts(p);
    var sub := TxSubmission(p);
    OneNotification(sub);
    if Admits(r, sub) {
      PacketRead(Image(m0, Submit(r, sub).log), r.vqs[sub.vq], p);
    }
  }

  /** After any net run of fewer than 429 million ops, a packet goes out on queue `vqIdx` mod 8 exactly if
      that queue has a size, its descriptors so far and two more stay below it, and the pool has room
      for 12 bytes and the frame. The device then finds the header and the frame; otherwise no queue
      changes. */
  lemma TxOutcome(m0: Memory, s: Core, ops: seq<Op>, p: TxPacket)
    requires Shaped(s) && |s.vqs| == 8 && ValidOps(ops) && SmallDeviceOps(ops) && Brief(|ops|)
    ensures Sound(ResetNet(Reset(s)))
    ensures var st := NetRun(ResetNet(Reset(s)), ops);
            PacketSent(m0, st.core, NetStep(st, Tx(p)).core, p)
  {
    TxParts(p);
    StepTransmits(NetRun(ResetNet(Reset(s)), ops), p);
    PacketSentFrom(m0, s, ops, p);
  }

  lemma StepTransmits(st: NetState, p: TxPacket)
    requires Sound(st) && TxSubmission(p).Valid(8)
    ensures NetStep(st, Tx(p)).core == Submit(st.core, TxSubmission(p))
  {
    ActionIsValid(st, Tx(p));
  }

  lemma PacketSentFrom(m0: Memory, s: Core, ops: seq<Op>, p: TxPacket)
    requires Shaped(s) && |s.vqs| == 8 && ValidOps(ops) && SmallDeviceOps(ops) && Brief(|ops|)
    requires Sound(ResetNet(Reset(s))) && TxSubmission(p).Valid(8)
    ensures var st := NetRun(ResetNet(Reset(s)), ops);
            PacketSent(m0, st.core, Submit(st.core, TxSubmission(p)), p)
  {
    var g := ResetNet(Reset(s));
    NetRunIsCoreRun(g, ops);
    ActionsSmall(g, ops);
    TxParts(p);
    SubmissionTheorem(m0, s, Actions(g, ops), TxSubmission(p));
    IdsAlwaysLeft(s, Actions(g, ops), 2);
    PacketSentAt(m0, NetRun(g, ops).core, p);
  }

  // Control commands.

  /** The little-endian bytes of a 16-bit number. */
  function Two(n: u16): seq<byte> { [n % 0x100, n / 0x100] }

  /** Which queue an op's command goes to: the one the op names, or the one behind the data queues. */
  function QueueOf(ops: seq<Op>, op: Op): nat {
    if op.CtrlCmd? then op.vqIdx % 8 else 2 * LatestPairs(ops)
  }

  /** `c` is what an op says after the ops `ops`: class, command and payload. */
  ghost predicate Says(ops: seq<Op>, op: Op, c: Ctrl) {
    match op
    case CtrlCmd(_, vclass, cmd, data) =>
      c.vclass == vclass % 256 && c.cmd == cmd % 256 && c.payload == data[..Min(|data|, 1024)]
    case CtrlRx(cmd, enable) => c.vclass == 0 && c.cmd == cmd % 256 && c.payload == [enable % 256]
    case MacAddrSet(mac) =>
      && c.vclass == 1 && c.cmd == 1 && |c.payload| == 6
      && forall j | 0 <= j < 6 :: c.payload[j] == if j < |mac| then mac[j] else 0
    case MacTableSet(_, macs) =>
      && c.vclass == 1 && c.cmd == 0 && |c.payload| == 8 + 6 * (|macs.unicast| + |macs.multicast|)
      && (|macs.unicast| < TWO_32 && |macs.multicast| < TWO_32 ==>
            ParseMacTable(c.payload) == Some(MacTable(Padded(macs.unicast), Padded(macs.multicast))))
    case VlanAdd(_, vid) => c.vclass == 2 && c.cmd == 0 && c.payload == Two(vid % 4096)
    case VlanDel(slot, useSlot, vid) =>
      c.vclass == 2 && c.cmd == 1 && c.payload == Two(if useSlot then LatestVid(ops, slot % 16) else vid % 4096)
    case AnnounceAck => c.vclass == 3 && c.cmd == 0 && c.payload == []
    case MqPairsSet(n) =>
      c.vclass == 4 && c.cmd == 0 && c.payload == Two(if n < 1 then 1 else if n > 3 then 3 else n)
    case GuestOffloads(offloads) =>
      c.vclass == 5 && c.cmd == 0 && |c.payload| == 8 && UnLe64(c.payload) == offloads
    case Rss(m) => c.vclass == 4 && c.cmd == 1 && ParseRss(c.payload) == Some(RssSeen(m))
    case _ => true
  }

  lemma SaysTable(ops: seq<Op>, op: Op, c: Ctrl)
    requires op.MacTableSet? && c.vclass == 1 && c.cmd == 0 && c.payload == MacTablePayload(op.macs)
    ensures Says(ops, op, c)
  {
    if |op.macs.unicast| < TWO_32 && |op.macs.multicast| < TWO_32 {
      WholeTableParses(op.macs);
    }
  }

  lemma SaysIt(ops: seq<Op>, st: NetState, op: Op)
    requires Sound(st) && !op.Common? && !op.Tx? && st.activePairs == LatestPairs(ops)
    requires op.VlanDel? ==> DelVid(st, op.slot % VLAN_SLOTS, true, 0) == LatestVid(ops, op.slot % 16)
    ensures Says(ops, op, CtrlOf(st, op)) && CtrlOf(st, op).vq == QueueOf(ops, op)
  {
    var c := CtrlOf(st, op);
    match op
    case MacTableSet(_, macs) => SaysTable(ops, op, c);
    case GuestOffloads(offloads) => Le64RoundTrip(offloads);
    case Rss(m) => RssRoundTrip(m);
    case _ =>
  }

  /** The lengths of the buffers of a control command. */
  function CtrlLengths(payload: seq<byte>): seq<nat> {
    if payload == [] then [2, 1] else [2, Min(|payload| % 0x1_0000_0000, 2048), 1]
  }

  lemma CtrlPieces(c: Ctrl)
    requires c.vq < 8
    ensures var sub := SubmissionOf(c);
            && sub.Valid(8) && ReadableFirst(sub.parts) && Lengths(sub.parts) == CtrlLengths(c.payload)
            && sub.vq == c.vq && sub.slack == 3 && sub.named && sub.tail == []
            && sub.placed == |sub.parts| == if c.payload == [] then 2 else 3
  {
    CtrlShape(c.vq, c.vclass, c.cmd, c.payload);
    var parts := SubmissionOf(c).parts;
    assert parts[|parts| - 1].chunks == Whole([0xff]) && parts[0].chunks == Whole([c.vclass, c.cmd]);
    assert Lengths(parts) == CtrlLengths(c.payload);
  }

  /** The chain of a control command: class and command, the payload if there is one, cut at 2048
      bytes, and one writable byte that holds 0xff until the device answers. */
  ghost predicate CtrlFound(m: Memory, hops: seq<Hop>, c: Ctrl) {
    && |hops| == (if c.payload == [] then 2 else 3) && ReadableHopsFirst(hops)
    && Peek(m, hops[0].desc.addr, hops[0].desc.len) == [c.vclass, c.cmd] && !hops[0].desc.Writable()
    && (c.payload != [] ==>
          && Peek(m, hops[1].desc.addr, hops[1].desc.len) == c.payload[..Min(|c.payload| % 0x1_0000_0000, 2048)]
          && !hops[1].desc.Writable())
    && Peek(m, hops[|hops| - 1].desc.addr, hops[|hops| - 1].desc.len) == [0xff] && hops[|hops| - 1].desc.Writable()
  }

  lemma CtrlReadAt(m: Memory, q: Vq, c: Ctrl)
    requires q.size > 0 && c.vq < 8 && SubmissionOf(c).Valid(8) && Readable(m, q, SubmissionOf(c))
    ensures CtrlFound(m, Walk(m, c.vq, q.nextDesc % q.size, 256), c)
  {
    var parts, hops := SubmissionOf(c).parts, Walk(m, c.vq, q.nextDesc % q.size, 256);
    assert SeesPart(m, hops[0].desc, parts[0]);
    assert SeesPart(m, hops[|hops| - 1].desc, parts[|hops| - 1]);
    if c.payload != [] {
      assert SeesPart(m, hops[1].desc, parts[1]);
    }
  }

  /** What a control command does: sent with three slots to spare, or not at all. */
  ghost predicate CtrlSent(m0: Memory, r: Core, t: Core, c: Ctrl)
    requires |r.vqs| == |r.hist.queues| == 8 && c.vq < 8
  {
    if Free(r, c.vq, 3) && Fitting(r, CtrlLengths(c.payload)) then
      && Gained(r, t, c.vq, if c.payload == [] then 2 else 3) && EndsWith(t.log, [Mmio(RegWrite(0x050, c.vq))])
      && CtrlFound(Image(m0, t.log), ChainFrom(Image(m0, t.log), r, c.vq), c)
      && Published(Image(m0, t.log), r.vqs[c.vq], SubmissionOf(c))
    else Unmoved(r, t) && (!Free(r, c.vq, 3) ==> t == r)
  }

  lemma CtrlSentAt(m0: Memory, r: Core, c: Ctrl)
    requires Shaped(r) && |r.vqs| == 8 && c.vq < 8 && SubmissionOf(c).Valid(8) && IdsLeft(r, 3)
    requires LeftBehind(m0, r, Submit(r, SubmissionOf(c)), SubmissionOf(c))
    ensures CtrlSent(m0, r, Submit(r, SubmissionOf(c)), c)
  {
    CtrlPieces(c);
    var sub := SubmissionOf(c);
    OneNotification(sub);
    if Admits(r, sub) {
      CtrlReadAt(Image(m0, Submit(r, sub).log), r.vqs[c.vq], c);
    }
  }

  lemma StepSends(st: NetState, op: Op)
    requires Sound(st) && !op.Common? && !op.Tx?
    ensures SubmissionOf(CtrlOf(st, op)).Valid(8)
    ensures NetStep(st, op).core == Submit(st.core, SubmissionOf(CtrlOf(st, op)))
  {
    ActionIsValid(st, op);
  }

  /** After any net run of fewer than 429 million ops, a control op goes out exactly if its queue has a
      size, the descriptors so far and three more stay below it, and the pool has room. The device then
      finds the class, the command and the payload that the op and the history of pair counts and VLAN
      slots call for; otherwise no queue changes. */
  lemma CtrlOutcome(m0: Memory, s: Core, ops: seq<Op>, op: Op)
    requires Shaped(s) && |s.vqs| == 8 && ValidOps(ops) && SmallDeviceOps(ops) && Brief(|ops|)
    requires !op.Common? && !op.Tx?
    ensures Sound(ResetNet(Reset(s)))
    ensures var st := NetRun(ResetNet(Reset(s)), ops); var c := CtrlOf(st, op);
            && Says(ops, op, c) && c.vq == QueueOf(ops, op) < 8
            && CtrlSent(m0, st.core, NetStep(st, op).core, c)
  {
    var st := NetRun(ResetNet(Reset(s)), ops);
    SaysByHistory(Reset(s), ops, op);
    StepSends(st, op);
    CtrlSentFrom(m0, s, ops, CtrlOf(st, op));
  }

  lemma SaysByHistory(core: Core, ops: seq<Op>, op: Op)
    requires Shaped(core) && |core.vqs| == 8 && ValidOps(ops) && !op.Common? && !op.Tx?
    requires Sound(ResetNet(core))
    ensures var c := CtrlOf(NetRun(ResetNet(core), ops), op);
            Says(ops, op, c) && c.vq == QueueOf(ops, op) < 8
  {
    PairsFollowHistory(core, ops);
    if op.VlanDel? {
      VidsFollowHistory(core, ops, op.slot % VLAN_SLOTS);
    }
    SaysIt(ops, NetRun(ResetNet(core), ops), op);
  }

  lemma CtrlSentFrom(m0: Memory, s: Core, ops: seq<Op>, c: Ctrl)
    requires Shaped(s) && |s.vqs| == 8 && ValidOps(ops) && SmallDeviceOps(ops) && Brief(|ops|)
    requires Sound(ResetNet(Reset(s))) && c.vq < 8 && SubmissionOf(c).Valid(8)
    ensures var st := NetRun(ResetNet(Reset(s)), ops);
            CtrlSent(m0, st.core, Submit(st.core, SubmissionOf(c)), c)
  {
    var g := ResetNet(Reset(s));
    NetRunIsCoreRun(g, ops);
    ActionsSmall(g, ops);
    CtrlPieces(c);
    SubmissionTheorem(m0, s, Actions(g, ops), SubmissionOf(c));
    IdsAlwaysLeft(s, Actions(g, ops), 3);
    CtrlSentAt(m0, NetRun(g, ops).core, c);
  }

  // What the harness remembers besides.

  /** The address of the latest MacAddrSet since the last reset; zeros if there was none. */
  function LatestMac(ops: seq<Op>): (s: seq<byte>)
    ensures |s| == 6
  {
    if ops == [] then [0, 0, 0, 0, 0, 0]
    else
      var k := |ops| - 1;
      match ops[k]
      case Common(a) => if a.DoReset? then [0, 0, 0, 0, 0, 0] else LatestMac(ops[..k])
      case MacAddrSet(mac) => Resize(mac, 6)
      case _ => LatestMac(ops[..k])
  }

  /** The lists of the latest MacTableSet for that slot since the last reset. */
  function LatestLists(ops: seq<Op>, slot: nat): MacTable {
    if ops == [] then MacTable([], [])
    else
      var k := |ops| - 1;
      match ops[k]
      case Common(a) => if a.DoReset? then MacTable([], []) else LatestLists(ops[..k], slot)
      case MacTableSet(other, macs) => if other % 4 == slot then macs else LatestLists(ops[..k], slot)
      case _ => LatestLists(ops[..k], slot)
  }

  lemma MacsAfter(st: NetState, op: Op, slot: nat)
    requires Sound(st) && ValidOp(op) && slot < 4
    ensures Sound(NetStep(st, op))
    ensures NetStep(st, op).currentMac ==
            match op
            case Common(a) => if a.DoReset? then Zeros(6) else st.currentMac
            case MacAddrSet(mac) => Resize(mac, 6)
            case _ => st.currentMac
    ensures NetStep(st, op).macLists[slot] ==
            match op
            case Common(a) => if a.DoReset? then NO_MACS else st.macLists[slot]
            case MacTableSet(other, macs) => if other % 4 == slot then macs else st.macLists[slot]
            case _ => st.macLists[slot]
  {
    StepSound(st, op);
  }

  /** The MAC address and the address lists the harness remembers are those of the latest ops. */
  lemma {:induction false} MacsFollowHistory(core: Core, ops: seq<Op>, slot: nat)
    requires ValidOps(ops) && Shaped(core) && |core.vqs| == 8 && slot < 4
    ensures Sound(ResetNet(core))
    ensures var st := NetRun(ResetNet(core), ops);
            st.currentMac == LatestMac(ops) && st.macLists[slot] == LatestLists(ops, slot)
  {
    if ops == [] {
      assert Zeros(6) == [0, 0, 0, 0, 0, 0];
    } else {
      var k := |ops| - 1;
      MacsFollowHistory(core, ops[..k], slot);
      MacsAfter(NetRun(ResetNet(core), ops[..k]), ops[k], slot);
      assert Zeros(6) == [0, 0, 0, 0, 0, 0];
    }
  }
}
