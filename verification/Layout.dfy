/** Records laid out field after field, and the parser that undoes the layout. */
module Layout {
  import opened Bytes

  datatype Field = L32(l32: u32) | L64(l64: u64)

  datatype Kind = K32 | K64

  datatype Parsed = Parsed(fields: seq<Field>, rest: seq<byte>) | TooShort

  function KindOf(f: Field): Kind { if f.L32? then K32 else K64 }

  function Width(k: Kind): nat { if k.K32? then 4 else 8 }

  function Put(f: Field): (s: seq<byte>)
    ensures |s| == Width(KindOf(f))
  {
    match f
    case L32(n) => Le32(n)
    case L64(n) => Le64(n)
  }

  function Get(k: Kind, s: seq<byte>): (f: Field)
    requires |s| == Width(k)
    ensures KindOf(f) == k
  {
    match k
    case K32 => L32(UnLe32(s))
    case K64 => L64(UnLe64(s))
  }

  function PutAll(fs: seq<Field>): seq<byte> {
    if fs == [] then [] else Put(fs[0]) + PutAll(fs[1..])
  }

  function Kinds(fs: seq<Field>): (ks: seq<Kind>)
    ensures |ks| == |fs| && forall i | 0 <= i < |fs| :: ks[i] == KindOf(fs[i])
  {
    seq(|fs|, i requires 0 <= i < |fs| => KindOf(fs[i]))
  }

  function TotalWidth(ks: seq<Kind>): nat {
    if ks == [] then 0 else Width(ks[0]) + TotalWidth(ks[1..])
  }

  function Parse(ks: seq<Kind>, s: seq<byte>): (p: Parsed)
    ensures p.Parsed? ==> Kinds(p.fields) == ks
  {
    if ks == [] then Parsed([], s)
    else
      var w := Width(ks[0]);
      if |s| < w then TooShort
      else
        match Parse(ks[1..], s[w..])
        case TooShort => TooShort
        case Parsed(fs, rest) => Parsed([Get(ks[0], s[..w])] + fs, rest)
  }

  lemma GetPut(f: Field)
    ensures Get(KindOf(f), Put(f)) == f
  {
    match f
    case L32(n) => Le32RoundTrip(n);
    case L64(n) => Le64RoundTrip(n);
  }

  lemma ParseCons(k: Kind, ks: seq<Kind>, head: seq<byte>, tail: seq<byte>)
    requires |head| == Width(k)
    ensures Parse([k] + ks, head + tail) ==
            match Parse(ks, tail)
            case TooShort => TooShort
            case Parsed(fs, rest) => Parsed([Get(k, head)] + fs, rest)
  {
    var w := |head|;
    assert ([k] + ks)[1..] == ks;
    assert (head + tail)[..w] == head && (head + tail)[w..] == tail;
  }

  lemma PutAllCons(f: Field, more: seq<Field>, rest: seq<byte>)
    ensures PutAll([f] + more) + rest == Put(f) + (PutAll(more) + rest)
    ensures Kinds([f] + more) == [KindOf(f)] + Kinds(more)
  {
    assert ([f] + more)[0] == f && ([f] + more)[1..] == more;
    Associate(Put(f), PutAll(more), rest);
  }

  lemma Associate(x: seq<byte>, y: seq<byte>, z: seq<byte>)
    ensures x + y + z == x + (y + z)
  {
  }

  /** Parsing a record under its own layout gives back every field and leaves what follows. */
  lemma {:induction false} ParsePut(fs: seq<Field>, rest: seq<byte>)
    ensures Parse(Kinds(fs), PutAll(fs) + rest) == Parsed(fs, rest)
  {
    if fs == [] {
      assert PutAll(fs) + rest == rest;
      assert Kinds(fs) == [];
    } else {
      var f, more := fs[0], fs[1..];
      assert fs == [f] + more;
      ParsePut(more, rest);
      PutAllCons(f, more, rest);
      ParseCons(KindOf(f), Kinds(more), Put(f), PutAll(more) + rest);
      GetPut(f);
    }
  }

  lemma {:induction false} PutAppend(a: seq<Field>, b: seq<Field>)
    ensures PutAll(a + b) == PutAll(a) + PutAll(b)
  {
    if a == [] {
      assert a + b == b;
    } else {
      assert (a + b)[1..] == a[1..] + b;
      PutAppend(a[1..], b);
    }
  }

  lemma {:induction false} PutAllLength(fs: seq<Field>)
    ensures |PutAll(fs)| == TotalWidth(Kinds(fs))
  {
    if fs != [] {
      PutAllLength(fs[1..]);
      assert Kinds(fs)[1..] == Kinds(fs[1..]);
    }
  }
}
