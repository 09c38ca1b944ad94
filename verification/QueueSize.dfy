/** Queue sizes: the rounding loop of `op_vq_setup`, and why reducing the free-running counters
    modulo such a size is safe. */
module QueueSize {
  import opened Bytes

  /** Bitwise and of two naturals. */
  function BitAnd(a: nat, b: nat): nat
    decreases a + b
  {
    if a == 0 || b == 0 then 0
    else 2 * BitAnd(a / 2, b / 2) + (if a % 2 == 1 && b % 2 == 1 then 1 else 0)
  }

  predicate IsPow2(n: nat) {
    n == 1 || (n > 0 && n % 2 == 0 && IsPow2(n / 2))
  }

  function FloorPow2(n: nat): (p: nat)
    requires n > 0
    ensures IsPow2(p) && p <= n < 2 * p
  {
    if n == 1 then 1 else 2 * FloorPow2(n / 2)
  }

  lemma {:induction false} FloorPow2Greatest(n: nat, p: nat)
    requires n > 0 && IsPow2(p) && p <= n
    ensures p <= FloorPow2(n)
  {
    if p > 1 {
      FloorPow2Greatest(n / 2, p / 2);
    }
  }

  lemma {:induction false} FloorPow2Fixed(n: nat)
    requires IsPow2(n)
    ensures FloorPow2(n) == n
  {
    FloorPow2Greatest(n, n);
  }

  lemma {:induction false} AndSelf(n: nat)
    ensures BitAnd(n, n) == n
    decreases n
  {
    if n > 0 {
      AndSelf(n / 2);
    }
  }

  /** `n & (n - 1)` clears the lowest set bit: zero for a power of two, otherwise smaller but
      with the same highest bit. */
  lemma {:induction false} ClearLowestBit(n: nat)
    requires n > 0
    ensures BitAnd(n, n - 1) < n
    ensures BitAnd(n, n - 1) == 0 <==> IsPow2(n)
    ensures BitAnd(n, n - 1) > 0 ==> FloorPow2(BitAnd(n, n - 1)) == FloorPow2(n)
    decreases n
  {
    if n == 1 {
    } else if n % 2 == 1 {
      ClearOdd(n);
    } else {
      var h := n / 2;
      ClearLowestBit(h);
      ClearEven(h);
      Doubled(h);
      if BitAnd(h, h - 1) > 0 {
        Doubled(BitAnd(h, h - 1));
      }
    }
  }

  lemma {:induction false} Doubled(h: nat)
    requires h > 0
    ensures IsPow2(2 * h) <==> IsPow2(h)
    ensures FloorPow2(2 * h) == 2 * FloorPow2(h)
  {
    var n := 2 * h;
    assert n != 1 && n % 2 == 0 && n / 2 == h;
  }

  lemma ClearOdd(n: nat)
    requires n > 1 && n % 2 == 1
    ensures BitAnd(n, n - 1) == n - 1 && FloorPow2(n - 1) == FloorPow2(n)
  {
    AndSelf(n / 2);
    assert (n - 1) / 2 == n / 2;
  }

  lemma ClearEven(h: nat)
    requires h > 0
    ensures BitAnd(2 * h, 2 * h - 1) == 2 * BitAnd(h, h - 1)
  {
    assert 2 * h / 2 == h && (2 * h - 1) / 2 == h - 1;
  }

  /** The size a queue gets for a request, given the device's non-zero QUEUE_NUM_MAX. */
  function QueueSizeFor(requested: u32, max: u32): (size: u32)
    requires max > 0
    ensures IsPow2(size) && 0 < size <= max
  {
    FloorPow2(Min(if requested != 0 then requested else 64, max))
  }

  /** The greatest power of two that exceeds neither the request (64 when it is 0) nor the maximum. */
  lemma QueueSizeIsGreatest(requested: u32, max: u32, p: nat)
    requires max > 0 && IsPow2(p)
    ensures p <= QueueSizeFor(requested, max) <==> p <= (if requested != 0 then requested else 64) && p <= max
  {
    var n := Min(if requested != 0 then requested else 64, max);
    if p <= n {
      FloorPow2Greatest(n, p);
    }
  }

  method RoundQueueSize(requested: u32, max: u32) returns (size: u32)
    requires max > 0
    ensures size == QueueSizeFor(requested, max)
  {
    size := if requested != 0 then requested else 64;
    if size > max {
      size := max;
    }
    ghost var capped := size;
    if size > 0 {
      ClearLowestBit(size);
    }
    while size != 0 && BitAnd(size, size - 1) != 0
      invariant 0 < size <= capped && FloorPow2(size) == FloorPow2(capped)
      decreases size
    {
      ClearLowestBit(size);
      size := BitAnd(size, size - 1);
    }
    // The size never reaches 0 here, so the source's last fallback (0 becomes 1) is not taken.
    ClearLowestBit(size);
    FloorPow2Fixed(size);
  }

  // Reduction of the counters.

  lemma Distribute(s: nat, a: nat, k: nat)
    ensures s * (a + k) == s * a + s * k
  {
  }

  lemma MulStep(s: nat, a: nat, b: nat)
    requires a < b
    ensures s * a + s <= s * b
  {
    var k := b - a - 1;
    Distribute(s, a + 1, k);
    Distribute(s, a, 1);
    assert 0 <= s * k;
  }

  lemma ModUnique(x: nat, s: nat, q: nat, r: nat)
    requires x == s * q + r && r < s
    ensures x % s == r
  {
    var q' := x / s;
    if q < q' {
      MulStep(s, q, q');
    } else if q' < q {
      MulStep(s, q', q);
    }
  }

  lemma SmallMod(x: nat, s: nat)
    requires x < s
    ensures x % s == x
  {
    ModUnique(x, s, 0, x);
  }

  lemma AddMultiple(r: nat, s: nat, k: nat)
    requires s > 0
    ensures (r + s * k) % s == r % s
  {
    var q := r / s;
    assert s * (q + k) == s * q + s * k;
    ModUnique(r + s * k, s, q + k, r % s);
  }

  lemma {:induction false} Pow2Divides(p: nat, q: nat) returns (c: nat)
    requires IsPow2(p) && IsPow2(q) && p <= q
    ensures q == p * c
  {
    if p == 1 {
      c := q;
    } else {
      c := Pow2Divides(p / 2, q / 2);
      assert q == 2 * (q / 2) == (2 * (p / 2)) * c;
    }
  }

  lemma ModOfMultiple(n: nat, s: nat, t: nat, c: nat, q: nat, r: nat)
    requires s > 0 && t == s * c && n == t * q + r
    ensures n % s == r % s
  {
    assert t * q == s * (c * q);
    AddMultiple(r, s, c * q);
  }

  lemma DivMod(n: nat, t: nat) returns (q: nat, r: nat)
    requires t > 0
    ensures n == t * q + r && r == n % t
  {
    q, r := n / t, n % t;
  }

  lemma ModOfMod(n: nat, s: nat, t: nat)
    requires IsPow2(s) && IsPow2(t) && s <= t
    ensures (n % t) % s == n % s
  {
    var c := Pow2Divides(s, t);
    var q, r := DivMod(n, t);
    ModOfMultiple(n, s, t, c, q, r);
  }

  lemma Double(n: nat)
    requires IsPow2(n)
    ensures IsPow2(2 * n)
  {
    assert 2 * n / 2 == n;
  }

  lemma Times16(n: nat)
    requires IsPow2(n)
    ensures IsPow2(16 * n)
  {
    var a, b, c := 2 * n, 4 * n, 8 * n;
    Double(n);
    Double(a);
    Double(b);
    Double(c);
  }

  lemma Powers()
    ensures IsPow2(TWO_16) && IsPow2(TWO_32)
  {
    Times16(1);
    Times16(0x10);
    Times16(0x100);
    Times16(0x1000);
    Times16(0x1_0000);
    Times16(0x10_0000);
    Times16(0x100_0000);
    Times16(0x1000_0000);
  }

  /** The 32-bit counter picks the slot that the true, unbounded count picks. */
  lemma CounterSlot(count: nat, size: u32)
    requires IsPow2(size)
    ensures Wrap32(count) % size == count % size
  {
    Powers();
    ModOfMod(count, size, TWO_32);
  }

  /** A device only sees the low 16 bits of the counter. Reducing them modulo the size reaches
      the slot the harness wrote, for every count, exactly when the size is at most 2^16. */
  lemma DeviceSlotAgrees(size: u32)
    requires IsPow2(size)
    ensures (forall count: nat :: DeviceSlot(count, size) == HarnessSlot(count, size)) <==> size <= TWO_16
  {
    if size <= TWO_16 {
      forall count: nat ensures DeviceSlot(count, size) == HarnessSlot(count, size) {
        DeviceSlotIsHarnessSlot(count, size);
      }
    } else {
      LargeQueueSlots(size);
      assert DeviceSlot(TWO_16, size) != HarnessSlot(TWO_16, size);
    }
  }

  function DeviceSlot(count: nat, size: u32): nat
    requires size > 0
  {
    Wrap16(Wrap32(count)) % size
  }

  function HarnessSlot(count: nat, size: u32): nat
    requires size > 0
  {
    Wrap32(count) % size
  }

  lemma DeviceSlotIsHarnessSlot(count: nat, size: u32)
    requires IsPow2(size) && size <= TWO_16
    ensures DeviceSlot(count, size) == HarnessSlot(count, size) == count % size
  {
    Powers();
    ModOfMod(Wrap32(count), size, TWO_16);
    CounterSlot(count, size);
  }

  lemma LargeQueueSlots(size: u32)
    requires size > TWO_16
    ensures DeviceSlot(TWO_16, size) == 0 && HarnessSlot(TWO_16, size) == TWO_16
  {
    SmallMod(0, size);
    SmallMod(TWO_16, size);
  }
}
