/** virtio-net requests: transmit frames, control-queue payloads, and the slot state that later
    ops refer back to. */
module Net {
  import opened Bytes
  import opened QueueSize
  import opened Virtqueue
  import opened Wrappers

  const QUEUES := 8
  const VLAN_SLOTS := 16
  const MAC_SLOTS := 4
  const CTRL_CAP := 2048
  const FRAME_CAP := 9018

  // Transmit.

  datatype TxPacket = TxPacket(
    vqIdx: u32, flags: u32, gsoType: u32, hdrLen: u32, gsoSize: u32, csumStart: u32, csumOffset: u32,
    numBuffers: u32, payload: blob, vlanTci: u32)

  function NetHeader(p: TxPacket): (s: blob)
    ensures |s| == 12
  {
    [p.flags % 0x100, p.gsoType % 0x100] + Le16(p.hdrLen % TWO_16) + Le16(p.gsoSize % TWO_16)
    + Le16(p.csumStart % TWO_16) + Le16(p.csumOffset % TWO_16) + Le16(p.numBuffers % TWO_16)
  }

  /** The fields of a packet sit where the device expects them, each under its width. */
  lemma HeaderRoundTrip(p: TxPacket)
    ensures var s := NetHeader(p);
            && s[0] == p.flags % 0x100 && s[1] == p.gsoType % 0x100
            && UnLe16(s[2..4]) == p.hdrLen % TWO_16 && UnLe16(s[4..6]) == p.gsoSize % TWO_16
            && UnLe16(s[6..8]) == p.csumStart % TWO_16 && UnLe16(s[8..10]) == p.csumOffset % TWO_16
            && UnLe16(s[10..]) == p.numBuffers % TWO_16
  {
    var s := NetHeader(p);
    assert s[2..4] == Le16(p.hdrLen % TWO_16) && s[4..6] == Le16(p.gsoSize % TWO_16);
    assert s[6..8] == Le16(p.csumStart % TWO_16) && s[8..10] == Le16(p.csumOffset % TWO_16);
    assert s[10..] == Le16(p.numBuffers % TWO_16);
  }

  /** The frame, with an 802.1Q tag spliced in after the addresses when one is asked for and the
      frame has an Ethernet header. */
  function Tagged(payload: seq<byte>, tci: u32): seq<byte> {
    if tci != 0 && |payload| >= 14 then
      payload[..12] + [0x81, 0x00, tci / 0x100 % 0x100, tci % 0x100] + payload[12..]
    else payload
  }

  function Frame(p: TxPacket): (s: blob) {
    Truncate(Tagged(p.payload, p.vlanTci), FRAME_CAP)
  }

  /** Taking the tag out of a tagged frame gives back the frame and the low 16 bits of the TCI. */
  lemma TagRoundTrip(payload: seq<byte>, tci: u32)
    requires tci != 0 && |payload| >= 14
    ensures var t := Tagged(payload, tci);
            && |t| == |payload| + 4 && t[..12] + t[16..] == payload
            && UnBe16(t[12..14]) == 0x8100 && UnBe16(t[14..16]) == tci % TWO_16
  {
    var t, hi, lo := Tagged(payload, tci), tci / 0x100 % 0x100, tci % 0x100;
    Spliced(payload[..12], [0x81, 0x00], [hi, lo], payload[12..]);
    assert t == payload[..12] + [0x81, 0x00] + [hi, lo] + payload[12..];
  }

  lemma Spliced(front: seq<byte>, a: seq<byte>, b: seq<byte>, back: seq<byte>)
    ensures var t, n := front + a + b + back, |front| + |a|;
            && t[..|front|] == front && t[|front|..n] == a && t[n..n + |b|] == b && t[n + |b|..] == back
  {
  }

  /** What goes out for a packet, byte by byte: an untagged packet unchanged, and a tagged one with
      0x8100 and the TCI between its addresses and the rest; never more than 9018 bytes. A packet of
      fewer than 14 bytes is never tagged. */
  predicate IsFrameOf(f: seq<byte>, p: TxPacket) {
    if p.vlanTci == 0 || |p.payload| < 14 then f == p.payload[..Min(|p.payload|, 9018)]
    else
      && |f| == Min(|p.payload| + 4, 9018) && f[..12] == p.payload[..12]
      && f[12..16] == [0x81, 0x00, p.vlanTci / 0x100 % 0x100, p.vlanTci % 0x100]
      && f[16..] == p.payload[12..|f| - 4]
  }

  lemma FrameIs(p: TxPacket)
    ensures IsFrameOf(Frame(p), p)
  {
    if p.vlanTci != 0 && |p.payload| >= 14 {
      var tag := [0x81, 0x00, p.vlanTci / 0x100 % 0x100, p.vlanTci % 0x100];
      SplicedAndCut(p.payload[..12], tag, p.payload[12..], |Frame(p)|);
      assert Frame(p) == (p.payload[..12] + tag + p.payload[12..])[..|Frame(p)|];
    }
  }

  lemma SplicedAndCut(front: seq<byte>, tag: seq<byte>, back: seq<byte>, n: nat)
    requires |front| == 12 && |tag| == 4 && 16 <= n <= 16 + |back|
    ensures var f := (front + tag + back)[..n];
            f[..12] == front && f[12..16] == tag && f[16..] == back[..n - 16]
  {
  }

  function TxSubmission(p: TxPacket): Submission {
    Submission(p.vqIdx % QUEUES, 2, [Part(Whole(NetHeader(p)), false), Part(Whole(Frame(p)), false)],
               if Frame(p) == [] then 1 else 2, true, [])
  }

  // Control commands.

  /** The part of a payload that is sent: its 32-bit length, capped. */
  function Sent(payload: seq<byte>): (s: blob)
    ensures s <= payload && |s| == Min(|payload| % 0x1_0000_0000, 2048)
    ensures |payload| <= CTRL_CAP ==> s == payload
  {
    payload[..Min(Wrap32(|payload|), CTRL_CAP)]
  }

  function CtrlParts(vclass: byte, cmd: byte, payload: seq<byte>): seq<Part> {
    [Part(Whole([vclass, cmd]), false)]
    + (if payload != [] then [Part(Whole(Sent(payload)), false)] else [])
    + [Part(Whole([0xff]), true)]
  }

  function CtrlSubmission(vq: u32, vclass: byte, cmd: byte, payload: seq<byte>): Submission {
    Submission(vq, 3, CtrlParts(vclass, cmd, payload), |CtrlParts(vclass, cmd, payload)|, true, [])
  }

  lemma CtrlShape(vq: u32, vclass: byte, cmd: byte, payload: seq<byte>)
    requires vq < QUEUES
    ensures CtrlSubmission(vq, vclass, cmd, payload).Valid(QUEUES) && ReadableFirst(CtrlParts(vclass, cmd, payload))
  {
    var parts := CtrlParts(vclass, cmd, payload);
    forall i | 0 <= i < |parts| ensures parts[i].writable <==> i == |parts| - 1 {
    }
  }

  // Receive-side scaling.

  datatype RssConfig = RssConfig(
    hashTypes: u32, mask: u32, unclassified: u32, table: blob, maxTx: u32, key: blob)

  datatype RssView = RssView(
    hashTypes: u32, mask: u16, unclassified: u16, table: seq<byte>, maxTx: u16, key: seq<byte>)

  function RssPayload(m: RssConfig): (s: blob)
    ensures |s| == 11 + (m.mask % 128 + 1) * 2 + Min(|m.key|, 40)
  {
    var mask := m.mask % 128;
    var key := Truncate(m.key, 40);
    Le32(m.hashTypes) + Le16(mask) + Le16(m.unclassified % TWO_16)
    + Resize(m.table, (mask + 1) * 2)
    + Le16(m.maxTx % TWO_16) + [|key|] + key
  }

  /** Reads an RSS_CONFIG payload: the table has mask + 1 entries of two bytes, and the key is as
      long as its length byte says; nothing may follow. */
  function ParseRss(s: seq<byte>): Option<RssView> {
    if |s| < 8 then None
    else
      var mask := UnLe16(s[4..6]);
      var t := 8 + (mask + 1) * 2;
      if |s| < t + 3 then None
      else
        var key := s[t + 3..];
        if |key| != s[t + 2] then None
        else Some(RssView(UnLe32(s[..4]), mask, UnLe16(s[6..8]), s[8..t], UnLe16(s[t..t + 2]), key))
  }

  lemma RssParts(m: RssConfig)
    ensures var s, mask := RssPayload(m), m.mask % 128;
            var t := 8 + (mask + 1) * 2;
            && |s| >= t + 3
            && s[..4] == Le32(m.hashTypes) && s[4..6] == Le16(mask) && s[6..8] == Le16(m.unclassified % TWO_16)
            && s[8..t] == Resize(m.table, (mask + 1) * 2) && s[t..t + 2] == Le16(m.maxTx % TWO_16)
            && s[t + 2] == |Truncate(m.key, 40)| && s[t + 3..] == Truncate(m.key, 40)
  {
    var mask := m.mask % 128;
    var a := Le32(m.hashTypes) + Le16(mask) + Le16(m.unclassified % TWO_16);
    var b := Resize(m.table, (mask + 1) * 2);
    var c := Le16(m.maxTx % TWO_16);
    var key := Truncate(m.key, 40);
    var s := RssPayload(m);
    assert s == a + (b + (c + ([|key|] + key)));
    assert s[..8] == a && s[8..] == b + (c + ([|key|] + key));
    assert a[..4] == Le32(m.hashTypes) && a[4..6] == Le16(mask) && a[6..8] == Le16(m.unclassified % TWO_16);
    assert s[..8][..4] == s[..4] && s[..8][4..6] == s[4..6] && s[..8][6..8] == s[6..8];
  }

  /** What a device makes of a configuration. */
  function RssSeen(m: RssConfig): RssView {
    RssView(m.hashTypes, m.mask % 128, m.unclassified % TWO_16,
            Resize(m.table, (m.mask % 128 + 1) * 2), m.maxTx % TWO_16, Truncate(m.key, 40))
  }

  /** An RSS payload survives the cap and reads back as its fields: the table padded or cut to
      exactly mask + 1 entries, the key cut to 40 bytes. */
  lemma RssRoundTrip(m: RssConfig)
    ensures Sent(RssPayload(m)) == RssPayload(m)
    ensures |RssPayload(m)| <= CTRL_CAP && ParseRss(RssPayload(m)) == Some(RssSeen(m))
  {
    RssParts(m);
    Le32RoundTrip(m.hashTypes);
  }

  // MAC filter tables.

  datatype MacTable = MacTable(unicast: seq<seq<byte>>, multicast: seq<seq<byte>>)

  function Pad6(mac: seq<byte>): (s: seq<byte>)
    ensures |s| == 6
  {
    Resize(mac, 6)
  }

  function Macs(macs: seq<seq<byte>>): (s: seq<byte>)
    ensures |s| == 6 * |macs|
  {
    if macs == [] then [] else Pad6(macs[0]) + Macs(macs[1..])
  }

  /** One list as it is sent: the count, then the addresses. */
  function CountedMacs(macs: seq<seq<byte>>): (s: seq<byte>)
    ensures |s| == 4 + 6 * |macs|
  {
    Le32(Wrap32(|macs|)) + Macs(macs)
  }

  function MacTablePayload(t: MacTable): seq<byte> {
    CountedMacs(t.unicast) + CountedMacs(t.multicast)
  }

  /** Cuts `n` six-byte addresses off the front. */
  function TakeMacs(s: seq<byte>, n: nat): (r: seq<seq<byte>>)
    requires 6 * n <= |s|
    ensures |r| == n
    decreases n
  {
    if n == 0 then [] else [s[..6]] + TakeMacs(s[6..], n - 1)
  }

  /** Reads a count and that many addresses, and says what is left. */
  function ParseMacs(s: seq<byte>): Option<(seq<seq<byte>>, seq<byte>)> {
    if |s| < 4 then None
    else
      var n := UnLe32(s[..4]);
      if |s| < 4 + 6 * n then None else Some((TakeMacs(s[4..], n), s[4 + 6 * n..]))
  }

  /** Reads a MAC_TABLE_SET payload: two lists, with nothing missing and nothing left over. */
  function ParseMacTable(s: seq<byte>): Option<MacTable> {
    match ParseMacs(s)
    case None => None
    case Some((unicast, more)) =>
      match ParseMacs(more)
      case None => None
      case Some((multicast, rest)) => if rest == [] then Some(MacTable(unicast, multicast)) else None
  }

  function Padded(macs: seq<seq<byte>>): (r: seq<seq<byte>>)
    ensures |r| == |macs| && forall i | 0 <= i < |macs| :: r[i] == Pad6(macs[i])
  {
    seq(|macs|, i requires 0 <= i < |macs| => Pad6(macs[i]))
  }

  lemma {:induction false} TakeMacsBack(macs: seq<seq<byte>>, rest: seq<byte>)
    ensures TakeMacs(Macs(macs) + rest, |macs|) == Padded(macs)
    decreases |macs|
  {
    if macs != [] {
      var s := Macs(macs) + rest;
      assert s[..6] == Pad6(macs[0]);
      assert s[6..] == Macs(macs[1..]) + rest;
      TakeMacsBack(macs[1..], rest);
      assert Padded(macs) == [Pad6(macs[0])] + Padded(macs[1..]);
    }
  }

  lemma ParseLength(s: seq<byte>)
    ensures var t := ParseMacTable(s);
            t.Some? ==> |s| == 8 + 6 * (|t.value.unicast| + |t.value.multicast|)
  {
  }

  lemma ParseMacsFrom(head: seq<byte>, body: seq<byte>, rest: seq<byte>)
    requires |head| == 4 && |body| == 6 * UnLe32(head)
    ensures ParseMacs(head + body + rest) == Some((TakeMacs(body + rest, UnLe32(head)), rest))
  {
    var s := head + body + rest;
    assert s[..4] == head;
    assert s[4..] == body + rest;
    assert s[4 + |body|..] == rest;
  }

  lemma ParseMacsBack(macs: seq<seq<byte>>, rest: seq<byte>)
    requires |macs| < TWO_32
    ensures ParseMacs(Le32(|macs|) + Macs(macs) + rest) == Some((Padded(macs), rest))
  {
    Le32RoundTrip(|macs|);
    ParseMacsFrom(Le32(|macs|), Macs(macs), rest);
    TakeMacsBack(macs, rest);
  }

  lemma ParseTwice(s: seq<byte>, unicast: seq<seq<byte>>, more: seq<byte>, multicast: seq<seq<byte>>)
    requires ParseMacs(s) == Some((unicast, more)) && ParseMacs(more) == Some((multicast, []))
    ensures ParseMacTable(s) == Some(MacTable(unicast, multicast))
  {
  }

  lemma ParseCounted(macs: seq<seq<byte>>, rest: seq<byte>)
    requires |macs| < TWO_32
    ensures ParseMacs(CountedMacs(macs) + rest) == Some((Padded(macs), rest))
  {
    SmallMod(|macs|, TWO_32);
    ParseMacsBack(macs, rest);
  }

  lemma WholeTableParses(t: MacTable)
    requires |t.unicast| < TWO_32 && |t.multicast| < TWO_32
    ensures ParseMacTable(MacTablePayload(t)) == Some(MacTable(Padded(t.unicast), Padded(t.multicast)))
  {
    ParseCounted(t.unicast, CountedMacs(t.multicast));
    ParseCounted(t.multicast, []);
    NothingBehind(CountedMacs(t.multicast));
    ParseTwice(MacTablePayload(t), Padded(t.unicast), CountedMacs(t.multicast), Padded(t.multicast));
  }

  lemma NothingBehind(s: seq<byte>)
    ensures s + [] == s
  {
  }

  /** The table a device reads back is the one given, addresses padded or cut to 6 bytes, exactly
      when it has at most 340 addresses in total: more do not fit the 2048-byte cap. */
  lemma MacTableRoundTrip(t: MacTable)
    ensures ParseMacTable(Sent(MacTablePayload(t))) == Some(MacTable(Padded(t.unicast), Padded(t.multicast)))
            <==> |t.unicast| + |t.multicast| <= 340
  {
    assert |MacTablePayload(t)| == 8 + 6 * (|t.unicast| + |t.multicast|);
    if |t.unicast| + |t.multicast| <= 340 {
      WholeTableParses(t);
    } else {
      ParseLength(Sent(MacTablePayload(t)));
    }
  }
}
