/** The outside world as the harness sees it: the calls it makes to the qtest layer, in order,
    and the guest memory those calls leave behind. */
module Guest {
  import opened Bytes

  /** One access to a virtio-mmio register; `off` is relative to the device window. */
  datatype Access = RegRead(off: nat) | RegWrite(off: nat, value: u32)

  datatype Event = MemWrite(gpa: u64, data: seq<byte>) | Mmio(access: Access)

  type Memory = map<int, byte>

  function At(m: Memory, a: int): byte {
    if a in m then m[a] else 0
  }

  function Peek(m: Memory, a: int, n: nat): (s: seq<byte>)
    ensures |s| == n && forall i :: 0 <= i < n ==> s[i] == At(m, a + i)
  {
    seq<byte>(n, i requires 0 <= i < n => At(m, a + i))
  }

  /** The byte that writing `data` at `gpa` leaves at address `a`. */
  function ByteAt(data: seq<byte>, gpa: int, a: int): byte
    requires gpa <= a < gpa + |data|
  {
    data[a - gpa]
  }

  function Apply(m: Memory, e: Event): Memory {
    match e
    case MemWrite(gpa, data) => m + (map a: int | gpa <= a < gpa + |data| :: ByteAt(data, gpa, a))
    case Mmio(_) => m
  }

  /** Memory after the calls in `log`, starting from `m`. */
  function Image(m: Memory, log: seq<Event>): Memory {
    if log == [] then m else Apply(Image(m, log[..|log| - 1]), log[|log| - 1])
  }

  predicate Misses(e: Event, a: int, n: nat) {
    e.MemWrite? ==> e.gpa + |e.data| <= a || a + n <= e.gpa
  }

  lemma ImageSnoc(m: Memory, log: seq<Event>, e: Event)
    ensures Image(m, log + [e]) == Apply(Image(m, log), e)
  {
    assert (log + [e])[..|log|] == log;
  }

  lemma {:induction false} ImageAppend(m: Memory, log: seq<Event>, more: seq<Event>)
    ensures Image(m, log + more) == Image(Image(m, log), more)
  {
    if more == [] {
      assert log + more == log;
    } else {
      var k := |more| - 1;
      assert (log + more)[..|log + more| - 1] == log + more[..k];
      ImageAppend(m, log, more[..k]);
    }
  }

  lemma ImageCons(m: Memory, e: Event, more: seq<Event>)
    ensures Image(m, [e] + more) == Image(Apply(m, e), more)
  {
    assert [e][..0] == [] && Image(m, []) == m;
    assert Image(m, [e]) == Apply(m, e);
    ImageAppend(m, [e], more);
  }

  lemma PeekHit(m: Memory, gpa: u64, data: seq<byte>)
    ensures Peek(Apply(m, MemWrite(gpa, data)), gpa, |data|) == data
  {
    var after := Apply(m, MemWrite(gpa, data));
    forall i | 0 <= i < |data| ensures At(after, gpa + i) == data[i] {
      assert ByteAt(data, gpa, gpa + i) == data[i];
    }
  }

  lemma PeekMiss(m: Memory, e: Event, a: int, n: nat)
    requires Misses(e, a, n)
    ensures Peek(Apply(m, e), a, n) == Peek(m, a, n)
  {
    assert forall x | a <= x < a + n :: At(Apply(m, e), x) == At(m, x);
  }

  lemma {:induction false} PeekMissAll(m: Memory, log: seq<Event>, a: int, n: nat)
    requires forall e | e in log :: Misses(e, a, n)
    ensures Peek(Image(m, log), a, n) == Peek(m, a, n)
  {
    if log != [] {
      var k := |log| - 1;
      PeekMissAll(m, log[..k], a, n);
      PeekMiss(Image(m, log[..k]), log[k], a, n);
    }
  }
}
