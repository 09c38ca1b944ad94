/** The driver core as the harnesses run it: state updated in place, one call at a time. Every
    method computes the step of `Virtqueue` named in its postcondition. */
module DriverCore {
  import opened Bytes
  import opened Guest
  import opened QueueSize
  import opened Virtqueue
  import opened Wrappers

  class Driver {
    /** One entry per queue; its length is `kMaxQueues`. */
    const vqs: array<Vq>
    var bufAlloc: cursor
    var bufs: map<u32, Buf>
    var synthId: u32
    /** Guest DRAM, and its contents before the first call. */
    var mem: Memory
    ghost const mem0: Memory
    /** Every call made to the qtest layer so far. */
    ghost var log: seq<Event>
    ghost var hist: History

    ghost predicate Valid()
      reads this, vqs
    {
      1 <= vqs.Length == |hist.queues| <= 8 && mem == Image(mem0, log)
    }

    ghost function State(): Core
      reads this, vqs
    {
      Core(vqs[..], bufAlloc, bufs, synthId, log, hist)
    }

    /** A thread's state before its first reset. */
    constructor (queues: u32, start: cursor, synth: u32, dram: Memory)
      requires 1 <= queues <= 8
      ensures Valid() && fresh(vqs)
      ensures mem0 == dram && State() == Unset(queues, start, synth, [])
    {
      vqs := new Vq[queues](_ => Vq(0, 0, 0, 0, 0, 0));
      bufAlloc, bufs, synthId := start, map[], synth;
      mem, mem0, log := dram, dram, [];
      hist := History([], [], seq(queues, _ => EMPTY_QUEUE), 0);
      new;
      assert vqs[..] == seq(queues, _ => Vq(0, 0, 0, 0, 0, 0));
    }

    // The qtest layer.

    method MemoryWrite(gpa: u64, data: seq<byte>)
      requires Valid()
      modifies this`mem, this`log
      ensures Valid() && State() == Emit(old(State()), [MemWrite(gpa, data)])
    {
      ImageSnoc(mem0, log, MemWrite(gpa, data));
      mem := Apply(mem, MemWrite(gpa, data));
      log := log + [MemWrite(gpa, data)];
    }

    method Register(access: Access)
      requires Valid()
      modifies this`log
      ensures Valid() && State() == Emit(old(State()), Registers([access]))
    {
      ImageSnoc(mem0, log, Mmio(access));
      assert Registers([access]) == [Mmio(access)];
      log := log + [Mmio(access)];
    }

    /** A list of register accesses, in order. */
    method Touch(accesses: seq<Access>)
      requires Valid()
      modifies this`log
      ensures Valid() && State() == Emit(old(State()), Registers(accesses))
    {
      var i := 0;
      while i < |accesses|
        invariant 0 <= i <= |accesses| && Valid()
        invariant log == old(log) + Registers(accesses[..i])
      {
        Register(accesses[i]);
        assert Registers(accesses[..i + 1]) == Registers(accesses[..i]) + Registers([accesses[i]]);
        i := i + 1;
      }
      assert accesses[..|accesses|] == accesses;
    }

    method ResetIteration()
      requires Valid()
      modifies this, vqs
      ensures Valid() && State() == Reset(old(State()))
    {
      Touch(RESET_ACCESSES);
      ResetQueues();
      bufAlloc := BufPoolBase(vqs.Length);
      bufs := map[];
      synthId := SYNTH_BASE;
      hist := History([], hist.all, seq(vqs.Length, _ => EMPTY_QUEUE), |log|);
    }

    method ResetQueues()
      requires Valid()
      modifies vqs
      ensures vqs[..] == seq(vqs.Length, i requires 0 <= i < vqs.Length => InitialVq(i))
    {
      var i := 0;
      while i < vqs.Length
        invariant 0 <= i <= vqs.Length
        invariant forall k | 0 <= k < i :: vqs[k] == InitialVq(k)
      {
        vqs[i] := InitialVq(i);
        i := i + 1;
      }
    }

    method SetupQueue(v: u32, requested: u32, max: u32)
      requires Valid()
      modifies this, vqs
      ensures Valid() && State() == VqSetup(old(State()), v, requested, max)
    {
      if v >= vqs.Length {
        return;
      }
      Touch([RegWrite(R_QUEUE_SEL, v), RegRead(R_QUEUE_NUM_MAX)]);
      if max == 0 {
        return;
      }
      var size := RoundQueueSize(requested, max);
      vqs[v] := vqs[v].(size := size);
      Touch(SetupAccesses(v, size, vqs[v]));
      assert vqs[..] == old(vqs[..])[v := vqs[v]];
    }

    // Buffers.

    /** Moves the allocator past a block. */
    method Take(len: u32)
      requires Valid() && Fits(State(), len)
      modifies this`bufAlloc, this`hist
      ensures Valid() && State() == Reserve(old(State()), len)
    {
      hist := hist.(blocks := hist.blocks + [Buf(bufAlloc, len)], all := hist.all + [Buf(bufAlloc, len)]);
      bufAlloc := AlignDown(bufAlloc + len + 16);
    }

    method WriteBlock(data: blob)
      requires Valid() && Fits(State(), |data|)
      modifies this
      ensures Valid() && State() == Stage(old(State()), Whole(data))
    {
      StageWhole(State(), data);
      var gpa := bufAlloc;
      Take(|data|);
      if |data| > 0 {
        MemoryWrite(gpa, data);
      }
    }

    /** `alloc_buf`: 0 means failure. */
    method AllocBuf(data: blob) returns (id: u32)
      requires Valid()
      modifies this
      ensures Valid() && State() == AllocPart(old(State()), Whole(data), true).0
      ensures var b := AllocPart(old(State()), Whole(data), true).1;
              if b.None? then id == 0
              else id == old(synthId) != 0 && id in bufs && bufs[id] == b.value
    {
      if bufAlloc + |data| + 16 > POOL_END {
        return 0;
      }
      var gpa := bufAlloc;
      WriteBlock(data);
      id := synthId;
      synthId := Wrap32(synthId + 1);
      bufs := bufs[id := Buf(gpa, |data|)];
    }

    /** `alloc_gpa`: takes the space and leaves its contents to the caller; 0 means failure. */
    method AllocGpa(len: u32) returns (gpa: cursor)
      requires Valid()
      modifies this
      ensures Valid()
      ensures if Fits(old(State()), len) then gpa == old(bufAlloc) && State() == Reserve(old(State()), len)
              else gpa == 0 && State() == old(State())
    {
      if bufAlloc + len + 16 > POOL_END {
        return 0;
      }
      gpa := bufAlloc;
      Take(len);
    }

    method GuestWrite(id: u32, data: seq<byte>)
      requires Valid()
      modifies this
      ensures Valid() && State() == GuestMemWrite(old(State()), id, data)
    {
      var d: blob := Truncate(data, MAX_DATA);
      if bufAlloc + |d| + 16 > POOL_END {
        return;
      }
      var gpa := bufAlloc;
      WriteBlock(d);
      bufs := bufs[id := Buf(gpa, |d|)];
    }

    // Descriptors.

    /** Ring entry and index for the chain that ends in the descriptor just written. */
    method Publish(v: u32)
      requires Valid() && CanPlace(State(), v)
      modifies this`mem, this`log
      ensures Valid()
      ensures State() == Emit(old(State()), [RingEvent(old(vqs[v])), IndexEvent(old(vqs[v]))])
    {
      var q := vqs[v];
      var head := Wrap16(q.nextDesc);
      MemoryWrite(q.avail + 4 + Wrap32(q.nextAvail % q.size * 2), Le16(head));
      var aidx := Wrap16(Wrap32(q.nextAvail + 1));
      MemoryWrite(q.avail + 2, Le16(aidx));
      assert log == old(log) + [RingEvent(q), IndexEvent(q)];
    }

    /** Writes descriptor `d` to the next slot of the table. */
    method WriteDescriptor(v: u32, d: Desc)
      requires Valid() && CanPlace(State(), v)
      modifies this`mem, this`log
      ensures Valid() && State() == Emit(old(State()), [DescEvent(old(vqs[v]), d)])
    {
      var q := vqs[v];
      var idx := q.nextDesc % q.size;
      MemoryWrite(q.desc + Wrap32(idx * 16), EncodeDesc(d));
    }

    /** Moves the counters past the descriptor, and past the ring entry if there is one. */
    method Count(v: u32, ghost d: Desc, more: bool)
      requires Valid() && CanPlace(State(), v)
      modifies this`hist, vqs
      ensures Valid()
      ensures State() == old(State()).(
                vqs := old(vqs[..])[v := Advance(old(vqs[v]), more)],
                hist := old(hist).(
                  queues := old(hist).queues[v := Record(old(hist).queues[v], d, old(vqs[v]).size, more)]))
    {
      var q := vqs[v];
      vqs[v] := q.(nextDesc := Wrap32(q.nextDesc + 1),
                   nextAvail := if more then q.nextAvail else Wrap32(q.nextAvail + 1));
      assert vqs[..] == old(vqs[..])[v := Advance(q, more)];
      hist := hist.(queues := hist.queues[v := Record(hist.queues[v], d, q.size, more)]);
    }

    method Place(v: u32, addr: u64, len: u32, writable: bool, more: bool)
      requires Valid() && CanPlace(State(), v)
      modifies this, vqs
      ensures Valid() && State() == PlaceDesc(old(State()), v, addr, len, writable, more)
    {
      var idx := vqs[v].nextDesc % vqs[v].size;
      var flags := 0;
      if writable {
        flags := flags + F_WRITE;
      }
      if more {
        flags := flags + F_NEXT;
      }
      var d := Desc(addr, len, flags, Wrap16(Wrap32(idx + 1) % vqs[v].size));
      PlaceOne(v, d, more);
    }

    method PlaceOne(v: u32, d: Desc, more: bool)
      requires Valid() && CanPlace(State(), v)
      modifies this, vqs
      ensures Valid()
      ensures State() == Emit(old(State()), PlacementLog(old(vqs[v]), d, more)).(
                vqs := old(vqs[..])[v := Advance(old(vqs[v]), more)],
                hist := old(hist).(
                  queues := old(hist).queues[v := Record(old(hist).queues[v], d, old(vqs[v]).size, more)]))
    {
      ghost var was := log;
      WriteDescriptor(v, d);
      if !more {
        Publish(v);
        assert log == was + PlacementLog(old(vqs[v]), d, more);
      }
      Count(v, d, more);
    }

    method AddDescriptor(floor: u32, v: u32, id: u32, len: u32, writable: bool, more: bool, exotic: u32)
      requires Valid() && floor <= 1
      modifies this, vqs
      ensures Valid() && State() == AddDesc(old(State()), floor, v, id, len, writable, more, exotic)
    {
      if v >= vqs.Length || vqs[v].size == 0 {
        return;
      }
      var e := Named(floor, id, len, exotic);
      if e.None? {
        return;
      }
      Place(v, e.value.addr, e.value.len, writable, more);
    }

    /** The extent a descriptor op names, if its buffer exists. */
    method Named(floor: u32, id: u32, len: u32, exotic: u32) returns (e: Option<Extent>)
      requires floor <= 1
      ensures e == Resolve(State(), floor, id, len, exotic)
    {
      var addr: u64, dlen: u32 := 0, 0;
      if exotic != 0 {
        var r := (exotic - 1) % 4;
        addr := EXOTIC_BASES[r] + id % (EXOTIC_SIZES[r] / 4) * 4;
        dlen := Min(len, 4);
      } else {
        if id !in bufs {
          return None;
        }
        addr := bufs[id].gpa;
        dlen := Min(len, bufs[id].len);
      }
      if dlen < floor {
        dlen := floor;
      }
      return Some(Extent(addr, dlen));
    }

    method WriteAbsolute(gpa: u64, data: seq<byte>)
      requires Valid()
      modifies this
      ensures Valid() && State() == MemwriteAbsolute(old(State()), gpa, data)
    {
      if data == [] {
        return;
      }
      var d := Truncate(data, MAX_DATA);
      var len := |d|;
      var target := gpa;
      if gpa < BufPoolBase(vqs.Length) || gpa > POOL_END - len {
        var span := POOL_END - BufPoolBase(vqs.Length) - len;
        target := BufPoolBase(vqs.Length) + gpa % span;
      }
      MemoryWrite(target, d);
    }

    method Notify(v: u32)
      requires Valid()
      modifies this`log
      ensures Valid() && State() == Emit(old(State()), Registers([RegWrite(R_QUEUE_NOTIFY, v)]))
    {
      Register(RegWrite(R_QUEUE_NOTIFY, v));
    }
  }
}
