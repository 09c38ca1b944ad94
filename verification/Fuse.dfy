/** virtio-fs: FUSE requests, built by appending fields and patching the header in at the end. */
module Fuse {
  import opened Bytes
  import opened Layout
  import opened Wrappers

  const HEADER := 40
  const NAME_CAP := 256
  const DATA_CAP := 4096

  datatype Args =
    | Init(major: u32, minor: u32, maxReadahead: u32, flags: u32)
    | Lookup(name: blob)
    | Getattr(getattrFlags: u32, fh: u64)
    | Setattr(valid: u32, fh: u64, size64: u64, lockOwner: u64, atime: u64, mtime: u64, ctime: u64,
              mode: u32, uid: u32, gid: u32)
    | Open(flags: u32, openFlags: u32)
    | Read(fh: u64, offset: u64, size: u32, readFlags: u32, lockOwner: u64, flags: u32)
    | Write(fh: u64, offset: u64, size: u32, writeFlags: u32, lockOwner: u64, flags: u32, data: blob)
    | Release(fh: u64, flags: u32, releaseFlags: u32, lockOwner: u64)
    | Mkdir(mode: u32, umask: u32, name: blob)
    | Unlink(name: blob)
    | Rmdir(name: blob)
    | Flush(fh: u64, unused: u32, padding: u32, lockOwner: u64)
    | Getxattr(size: u32, name: blob)
    | Setxattr(flags: u32, name: blob, value: blob)
    | Listxattr(size: u32)
    | Removexattr(name: blob)
    | Ioctl(fh: u64, flags: u32, cmd: u32, arg: u64, inSize: u32, outSize: u32, data: blob)
    | RawArgs(rawOpcode: u32, payload: blob)
    | NoArgs

  datatype FuseRequest = FuseRequest(
    vqIdx: u32, unique: u64, nodeid: u64, uid: u32, gid: u32, pid: u32, inBufSize: u32, args: Args)

  function Opcode(a: Args): u32 {
    match a
    case Init(_, _, _, _) => 26
    case Lookup(_) => 1
    case Getattr(_, _) => 3
    case Setattr(_, _, _, _, _, _, _, _, _, _) => 4
    case Open(_, _) => 14
    case Read(_, _, _, _, _, _) => 15
    case Write(_, _, _, _, _, _, _) => 16
    case Release(_, _, _, _) => 18
    case Mkdir(_, _, _) => 9
    case Unlink(_) => 10
    case Rmdir(_) => 11
    case Flush(_, _, _, _) => 25
    case Getxattr(_, _) => 22
    case Setxattr(_, _, _) => 21
    case Listxattr(_) => 23
    case Removexattr(_) => 24
    case Ioctl(_, _, _, _, _, _, _) => 39
    case RawArgs(opcode, _) => opcode
    case NoArgs => 26
  }

  /** The fixed-size arguments that follow the header. */
  function Fixed(a: Args): seq<Field> {
    match a
    case Init(major, minor, readahead, flags) => [L32(major), L32(minor), L32(readahead), L32(flags)]
    case Getattr(flags, fh) => [L32(flags), L32(0), L64(fh)]
    case Setattr(valid, fh, size, owner, atime, mtime, ctime, mode, uid, gid) =>
      [L32(valid), L32(0), L64(fh), L64(size), L64(owner), L64(atime), L64(mtime), L64(ctime),
       L32(0), L32(0), L32(0), L32(mode), L32(0), L32(uid), L32(gid)]
    case Open(flags, openFlags) => [L32(flags), L32(openFlags)]
    case Read(fh, offset, size, readFlags, owner, flags) =>
      [L64(fh), L64(offset), L32(size), L32(readFlags), L64(owner), L32(flags), L32(0)]
    case Write(fh, offset, size, writeFlags, owner, flags, _) =>
      [L64(fh), L64(offset), L32(size), L32(writeFlags), L64(owner), L32(flags), L32(0)]
    case Release(fh, flags, releaseFlags, owner) => [L64(fh), L32(flags), L32(releaseFlags), L64(owner)]
    case Mkdir(mode, umask, _) => [L32(mode), L32(umask)]
    case Flush(fh, unused, padding, owner) => [L64(fh), L32(unused), L32(padding), L64(owner)]
    case Getxattr(size, _) => [L32(size), L32(0)]
    case Setxattr(flags, _, value) => [L32(|Truncate(value, DATA_CAP)|), L32(flags)]
    case Listxattr(size) => [L32(size), L32(0)]
    case Ioctl(fh, flags, cmd, arg, inSize, outSize, _) =>
      [L64(fh), L32(flags), L32(cmd), L64(arg), L32(inSize), L32(outSize)]
    case NoArgs => [L32(7), L32(38), L32(0), L32(0)]
    case _ => []
  }

  /** At most 256 bytes of the name, with a NUL added unless one is there already. */
  function Name(name: blob): (s: seq<byte>)
    ensures 1 <= |s| <= 257 && s[|s| - 1] == 0
    ensures var n := Min(|name|, 256);
            s == name[..n] + if n == 0 || name[n - 1] != 0 then [0] else []
  {
    var head := Truncate(name, NAME_CAP);
    if head == [] || head[|head| - 1] != 0 then head + [0] else head
  }

  /** The variable-size part. */
  function Tail(a: Args): seq<byte> {
    match a
    case Lookup(name) => Name(name)
    case Write(_, _, _, _, _, _, data) => Truncate(data, DATA_CAP)
    case Mkdir(_, _, name) => Name(name)
    case Unlink(name) => Name(name)
    case Rmdir(name) => Name(name)
    case Getxattr(_, name) => Name(name)
    case Setxattr(_, name, value) => Name(name) + Truncate(value, DATA_CAP)
    case Removexattr(name) => Name(name)
    case Ioctl(_, _, _, _, _, _, data) => Truncate(data, DATA_CAP)
    case RawArgs(_, payload) => Truncate(payload, DATA_CAP)
    case _ => []
  }

  function HeaderFields(len: u32, opcode: u32, unique: u64, nodeid: u64, uid: u32, gid: u32, pid: u32): seq<Field> {
    [L32(len), L32(opcode), L64(unique), L64(nodeid), L32(uid), L32(gid), L32(pid), L32(0)]
  }

  const HEADER_KINDS := [K32, K32, K64, K64, K32, K32, K32, K32]

  function Body(a: Args): seq<byte> { PutAll(Fixed(a)) + Tail(a) }

  function Header(len: u32, r: FuseRequest): seq<byte> {
    PutAll(HeaderFields(len, Opcode(r.args), r.unique, r.nodeid, r.uid, r.gid, r.pid))
  }

  /** The message: a header whose length field counts the header and everything after it. */
  function Message(r: FuseRequest): seq<byte> {
    Header(Wrap32(HEADER + |Body(r.args)|), r) + Body(r.args)
  }

  // Reading a message back.

  /** The fixed arguments of each opcode; `None` for opcodes the typed requests do not use. */
  function FixedKinds(opcode: u32): Option<seq<Kind>> {
    match opcode
    case 26 => Some([K32, K32, K32, K32])
    case 3 => Some([K32, K32, K64])
    case 4 => Some([K32, K32, K64, K64, K64, K64, K64, K64, K32, K32, K32, K32, K32, K32, K32])
    case 14 => Some([K32, K32])
    case 15 => Some([K64, K64, K32, K32, K64, K32, K32])
    case 16 => Some([K64, K64, K32, K32, K64, K32, K32])
    case 18 => Some([K64, K32, K32, K64])
    case 9 => Some([K32, K32])
    case 25 => Some([K64, K32, K32, K64])
    case 22 => Some([K32, K32])
    case 21 => Some([K32, K32])
    case 23 => Some([K32, K32])
    case 39 => Some([K64, K32, K32, K64, K32, K32])
    case 1 => Some([])
    case 10 => Some([])
    case 11 => Some([])
    case 24 => Some([])
    case _ => None
  }

  /** The 32-bit and the 64-bit field number `i`. */
  function F32(fs: seq<Field>, i: nat): u32 { if i < |fs| && fs[i].L32? then fs[i].l32 else 0 }

  function F64(fs: seq<Field>, i: nat): u64 { if i < |fs| && fs[i].L64? then fs[i].l64 else 0 }

  /** These fields are there and 0. */
  predicate Padding(fs: seq<Field>, at: set<nat>) { forall i | i in at :: i < |fs| && fs[i] == L32(0) }

  /** The arguments from their fixed fields, padding included, and what follows them. In SETXATTR the
      value is the last `size` bytes and the name is what comes before. */
  function Rebuild(opcode: u32, fs: seq<Field>, tail: blob): Option<Args> {
    if opcode in {26, 3, 4, 14, 23} then RebuildFixed(opcode, fs)
    else if opcode in {15, 16, 18, 25, 39} then RebuildFile(opcode, fs, tail)
    else RebuildNamed(opcode, fs, tail)
  }

  function RebuildFixed(opcode: u32, fs: seq<Field>): Option<Args> {
    match opcode
    case 26 => Some(Init(F32(fs, 0), F32(fs, 1), F32(fs, 2), F32(fs, 3)))
    case 3 => if Padding(fs, {1}) then Some(Getattr(F32(fs, 0), F64(fs, 2))) else None
    case 4 =>
      if !Padding(fs, {1, 8, 9, 10, 12}) then None
      else
        Some(Setattr(F32(fs, 0), F64(fs, 2), F64(fs, 3), F64(fs, 4), F64(fs, 5), F64(fs, 6), F64(fs, 7),
                     F32(fs, 11), F32(fs, 13), F32(fs, 14)))
    case 14 => Some(Open(F32(fs, 0), F32(fs, 1)))
    case 23 => if Padding(fs, {1}) then Some(Listxattr(F32(fs, 0))) else None
    case _ => None
  }

  function RebuildFile(opcode: u32, fs: seq<Field>, tail: blob): Option<Args> {
    match opcode
    case 15 =>
      if Padding(fs, {6}) then Some(Read(F64(fs, 0), F64(fs, 1), F32(fs, 2), F32(fs, 3), F64(fs, 4), F32(fs, 5)))
      else None
    case 16 =>
      if Padding(fs, {6}) then
        Some(Write(F64(fs, 0), F64(fs, 1), F32(fs, 2), F32(fs, 3), F64(fs, 4), F32(fs, 5), tail))
      else None
    case 18 => Some(Release(F64(fs, 0), F32(fs, 1), F32(fs, 2), F64(fs, 3)))
    case 25 => Some(Flush(F64(fs, 0), F32(fs, 1), F32(fs, 2), F64(fs, 3)))
    case 39 => Some(Ioctl(F64(fs, 0), F32(fs, 1), F32(fs, 2), F64(fs, 3), F32(fs, 4), F32(fs, 5), tail))
    case _ => None
  }

  function RebuildNamed(opcode: u32, fs: seq<Field>, tail: blob): Option<Args> {
    match opcode
    case 9 => Some(Mkdir(F32(fs, 0), F32(fs, 1), tail))
    case 22 => if Padding(fs, {1}) then Some(Getxattr(F32(fs, 0), tail)) else None
    case 21 =>
      var n := F32(fs, 0);
      if |tail| < n then None else Some(Setxattr(F32(fs, 1), tail[..|tail| - n], tail[|tail| - n..]))
    case 1 => Some(Lookup(tail))
    case 10 => Some(Unlink(tail))
    case 11 => Some(Rmdir(tail))
    case 24 => Some(Removexattr(tail))
    case _ => None
  }

  datatype Received = Received(
    opcode: u32, unique: u64, nodeid: u64, uid: u32, gid: u32, pid: u32, args: Option<Args>)

  /** Reads a whole message: the header, whose length must be the message's and whose padding must be 0,
      then the arguments. */
  function ParseMessage(s: seq<byte>): Option<Received> {
    match Parse(HEADER_KINDS, s)
    case TooShort => None
    case Parsed(h, body) =>
      assert forall i | 0 <= i < |h| :: KindOf(h[i]) == HEADER_KINDS[i];
      if h[0].l32 != |s| || h[7].l32 != 0 then None
      else Some(Received(h[1].l32, h[2].l64, h[3].l64, h[4].l32, h[5].l32, h[6].l32, ParseArgs(h[1].l32, body)))
  }

  function ParseArgs(opcode: u32, body: seq<byte>): Option<Args> {
    var kinds := FixedKinds(opcode);
    if kinds.None? then None
    else
      match Parse(kinds.value, body)
      case TooShort => None
      case Parsed(fs, tail) => if |tail| >= 0x8000_0000 then None else Rebuild(opcode, fs, tail)
  }

  /** The request as it is on the wire: names cut and terminated, data cut. */
  function Wire(a: Args): Args {
    match a
    case Lookup(name) => Lookup(Name(name))
    case Write(fh, offset, size, writeFlags, owner, flags, data) =>
      Write(fh, offset, size, writeFlags, owner, flags, Truncate(data, 4096))
    case Mkdir(mode, umask, name) => Mkdir(mode, umask, Name(name))
    case Unlink(name) => Unlink(Name(name))
    case Rmdir(name) => Rmdir(Name(name))
    case Getxattr(size, name) => Getxattr(size, Name(name))
    case Setxattr(flags, name, value) => Setxattr(flags, Name(name), Truncate(value, 4096))
    case Removexattr(name) => Removexattr(Name(name))
    case Ioctl(fh, flags, cmd, arg, inSize, outSize, data) =>
      Ioctl(fh, flags, cmd, arg, inSize, outSize, Truncate(data, 4096))
    case NoArgs => Init(7, 38, 0, 0)
    case _ => a
  }

  predicate IsFile(a: Args) { a.Read? || a.Write? || a.Release? || a.Flush? || a.Ioctl? }

  predicate IsNamed(a: Args) {
    a.Mkdir? || a.Getxattr? || a.Setxattr? || a.Lookup? || a.Unlink? || a.Rmdir? || a.Removexattr?
  }

  lemma FileKinds(a: Args)
    requires IsFile(a)
    ensures FixedKinds(Opcode(a)) == Some(Kinds(Fixed(a)))
  {
    assert Kinds(Fixed(a)) == FixedKinds(Opcode(a)).value;
  }

  lemma NamedKinds(a: Args)
    requires IsNamed(a)
    ensures FixedKinds(Opcode(a)) == Some(Kinds(Fixed(a)))
  {
    assert Kinds(Fixed(a)) == FixedKinds(Opcode(a)).value;
  }

  lemma PlainKinds(a: Args)
    requires !a.RawArgs? && !IsFile(a) && !IsNamed(a)
    ensures FixedKinds(Opcode(a)) == Some(Kinds(Fixed(a)))
  {
    assert Kinds(Fixed(a)) == FixedKinds(Opcode(a)).value;
  }

  lemma FixedHasItsKinds(a: Args)
    requires !a.RawArgs?
    ensures FixedKinds(Opcode(a)) == Some(Kinds(Fixed(a)))
  {
    if IsFile(a) {
      FileKinds(a);
    } else if IsNamed(a) {
      NamedKinds(a);
    } else {
      PlainKinds(a);
    }
  }

  lemma FileWire(a: Args)
    requires IsFile(a) && |Tail(a)| < 0x8000_0000
    ensures Rebuild(Opcode(a), Fixed(a), Tail(a)) == Some(Wire(a))
  {
  }

  lemma NamedWire(a: Args)
    requires IsNamed(a) && |Tail(a)| < 0x8000_0000
    ensures Rebuild(Opcode(a), Fixed(a), Tail(a)) == Some(Wire(a))
  {
    if a.Setxattr? {
      XattrWire(a);
    } else if a.Mkdir? || a.Getxattr? {
      FieldsAndName(a);
    }
  }

  lemma FieldsAndName(a: Args)
    requires (a.Mkdir? || a.Getxattr?) && |Tail(a)| < 0x8000_0000
    ensures Rebuild(Opcode(a), Fixed(a), Tail(a)) == Some(Wire(a))
  {
  }

  lemma XattrWire(a: Args)
    requires a.Setxattr? && |Tail(a)| < 0x8000_0000
    ensures Rebuild(Opcode(a), Fixed(a), Tail(a)) == Some(Wire(a))
  {
  }

  lemma RebuildWire(a: Args)
    requires !a.RawArgs? && |Tail(a)| < 0x8000_0000
    ensures Rebuild(Opcode(a), Fixed(a), Tail(a)) == Some(Wire(a))
  {
    if IsFile(a) {
      FileWire(a);
    } else if IsNamed(a) {
      NamedWire(a);
    }
  }

  lemma ParseArgsOf(opcode: u32, fs: seq<Field>, tail: blob)
    requires FixedKinds(opcode) == Some(Kinds(fs))
    ensures ParseArgs(opcode, PutAll(fs) + tail) == Rebuild(opcode, fs, tail)
  {
    ParsePut(fs, tail);
  }

  lemma TailLength(a: Args)
    ensures |Tail(a)| <= NAME_CAP + 1 + DATA_CAP
  {
  }

  lemma ArgsRoundTrip(a: Args)
    requires !a.RawArgs?
    ensures ParseArgs(Opcode(a), Body(a)) == Some(Wire(a))
  {
    FixedHasItsKinds(a);
    TailLength(a);
    ParseArgsOf(Opcode(a), Fixed(a), Tail(a));
    RebuildWire(a);
  }

  // Whole messages.

  lemma HeaderHasItsKinds(len: u32, opcode: u32, unique: u64, nodeid: u64, uid: u32, gid: u32, pid: u32)
    ensures var fs := HeaderFields(len, opcode, unique, nodeid, uid, gid, pid);
            Kinds(fs) == HEADER_KINDS && |PutAll(fs)| == HEADER
  {
    var fs := HeaderFields(len, opcode, unique, nodeid, uid, gid, pid);
    KindsOfHeader(len, opcode, unique, nodeid, uid, gid, pid);
    PutAllLength(fs);
    HeaderWidth();
  }

  lemma KindsOfHeader(len: u32, opcode: u32, unique: u64, nodeid: u64, uid: u32, gid: u32, pid: u32)
    ensures Kinds(HeaderFields(len, opcode, unique, nodeid, uid, gid, pid)) == HEADER_KINDS
  {
  }

  lemma HeaderWidth()
    ensures TotalWidth(HEADER_KINDS) == 40
  {
    assert HEADER_KINDS[1..] == [K32, K64, K64, K32, K32, K32, K32];
    assert TotalWidth([K32, K32, K32, K32]) == 16;
  }

  lemma {:induction false} AllWidths(ks: seq<Kind>)
    ensures TotalWidth(ks) <= 8 * |ks|
  {
    if ks != [] {
      AllWidths(ks[1..]);
    }
  }

  lemma MessageLength(r: FuseRequest)
    ensures |Message(r)| == HEADER + |Body(r.args)| < 0x1_0000
  {
    HeaderHasItsKinds(Wrap32(HEADER + |Body(r.args)|), Opcode(r.args), r.unique, r.nodeid, r.uid, r.gid, r.pid);
    FixedLength(r.args);
    TailLength(r.args);
  }

  lemma FixedLength(a: Args)
    ensures |PutAll(Fixed(a))| <= 120
  {
    FewFields(a);
    PutAllLength(Fixed(a));
    AllWidths(Kinds(Fixed(a)));
  }

  lemma FewFields(a: Args)
    ensures |Fixed(a)| <= 15
  {
  }

  lemma ParseHeader(len: u32, opcode: u32, unique: u64, nodeid: u64, uid: u32, gid: u32, pid: u32, body: seq<byte>)
    requires len == HEADER + |body| && |body| < 0x1_0000
    ensures ParseMessage(PutAll(HeaderFields(len, opcode, unique, nodeid, uid, gid, pid)) + body) ==
            Some(Received(opcode, unique, nodeid, uid, gid, pid, ParseArgs(opcode, body)))
  {
    HeaderHasItsKinds(len, opcode, unique, nodeid, uid, gid, pid);
    ParsePut(HeaderFields(len, opcode, unique, nodeid, uid, gid, pid), body);
  }

  /** Every typed message parses back to its opcode, ids and arguments, with the header length equal
      to the message length. */
  lemma MessageRoundTrip(r: FuseRequest)
    requires !r.args.RawArgs?
    ensures |Message(r)| < 0x1_0000
    ensures ParseMessage(Message(r)) ==
            Some(Received(Opcode(r.args), r.unique, r.nodeid, r.uid, r.gid, r.pid, Some(Wire(r.args))))
  {
    MessageLength(r);
    ArgsRoundTrip(r.args);
    MessageParses(r, Body(r.args));
  }

  lemma MessageParses(r: FuseRequest, body: seq<byte>)
    requires body == Body(r.args) && HEADER + |body| < 0x1_0000
    ensures ParseMessage(Message(r)) ==
            Some(Received(Opcode(r.args), r.unique, r.nodeid, r.uid, r.gid, r.pid, ParseArgs(Opcode(r.args), body)))
  {
    LengthFits(HEADER + |body|);
    ParseHeader(HEADER + |body|, Opcode(r.args), r.unique, r.nodeid, r.uid, r.gid, r.pid, body);
  }

  lemma LengthFits(n: nat)
    requires n < 0x1_0000
    ensures Wrap32(n) == n
  {
  }

  /** A raw message keeps its opcode, its ids and at most 4096 bytes of payload. */
  lemma RawRoundTrip(r: FuseRequest)
    requires r.args.RawArgs?
    ensures |Message(r)| < 0x1_0000 && |Message(r)| >= HEADER
    ensures Message(r)[HEADER..] == Truncate(r.args.payload, DATA_CAP)
    ensures var p := ParseMessage(Message(r));
            p.Some? && p.value.opcode == r.args.rawOpcode && p.value.unique == r.unique && p.value.nodeid == r.nodeid
            && p.value.uid == r.uid && p.value.gid == r.gid && p.value.pid == r.pid
  {
    MessageLength(r);
    BehindHeader(r);
    assert Body(r.args) == Truncate(r.args.payload, DATA_CAP);
    MessageParses(r, Body(r.args));
  }

  lemma BehindHeader(r: FuseRequest)
    ensures |Message(r)| >= HEADER && Message(r)[HEADER..] == Body(r.args)
  {
    HeaderHasItsKinds(Wrap32(HEADER + |Body(r.args)|), Opcode(r.args), r.unique, r.nodeid, r.uid, r.gid, r.pid);
  }

  // High-priority requests.

  datatype HpReq = HpReq(opcode: u32, unique: u64, nodeid: u64, payload: blob)

  function HpMessage(m: HpReq): seq<byte> {
    var body := Truncate(m.payload, NAME_CAP);
    PutAll(HeaderFields(HEADER + |body|, m.opcode, m.unique, m.nodeid, 0, 0, 0)) + body
  }

  lemma HpLength(m: HpReq)
    ensures HEADER <= |HpMessage(m)| <= HEADER + NAME_CAP && HpMessage(m)[HEADER..] == Truncate(m.payload, NAME_CAP)
  {
    HeaderHasItsKinds(HEADER + |Truncate(m.payload, NAME_CAP)|, m.opcode, m.unique, m.nodeid, 0, 0, 0);
  }

  /** A high-priority message reads back as its opcode and ids, with no sender, and its payload. */
  lemma HpRoundTrip(m: HpReq)
    ensures HEADER <= |HpMessage(m)| <= HEADER + NAME_CAP && HpMessage(m)[HEADER..] == Truncate(m.payload, NAME_CAP)
    ensures ParseMessage(HpMessage(m)) ==
            Some(Received(m.opcode, m.unique, m.nodeid, 0, 0, 0, ParseArgs(m.opcode, Truncate(m.payload, NAME_CAP))))
  {
    HpLength(m);
    var body := Truncate(m.payload, NAME_CAP);
    ParseHeader(HEADER + |body|, m.opcode, m.unique, m.nodeid, 0, 0, 0, body);
  }

  /** Room for the answer: 1024 by default, between 16 and 4096. */
  function AnswerLength(requested: u32): u32 {
    Clamp(if requested != 0 then requested else 1024, 16, 4096)
  }

  function RequestQueue(vqIdx: u32): u32 { Max(vqIdx % 8, 2) }
}
