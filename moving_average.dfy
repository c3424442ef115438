/**
 * The oscillator test's `MovingAverageFilter`: a ring buffer of the last
 * `filterSize` uint16 readings, a running uint32 sum and a write index. The
 * output is the sum divided by the size: the mean of the last `filterSize`
 * inputs, counting zeros for the slots not yet written.
 */
module MovingAverage {
  import opened IntArith

  /** What slot j of a ring of n slots holds after the inputs h: its last write, or 0. */
  function Slot(h: seq<int>, n: nat, j: int): int
    requires n > 0
  {
    if |h| == 0 then 0
    else if (|h| - 1) % n == j then h[|h| - 1]
    else Slot(h[..|h| - 1], n, j)
  }

  /** The whole ring after the inputs h. */
  function Slots(h: seq<int>, n: nat): (r: seq<int>)
    requires n > 0
    ensures |r| == n
  {
    seq(n, j => Slot(h, n, j))
  }

  /** The last n inputs, padded in front with zeros while fewer than n have arrived. */
  function Window(h: seq<int>, n: nat): (w: seq<int>)
    ensures |w| == n
  {
    if |h| >= n then h[|h| - n..] else Zeros(n - |h|) + h
  }

  function Zeros(n: nat): (z: seq<int>)
    ensures |z| == n && forall j :: 0 <= j < n ==> z[j] == 0
  {
    seq(n, _ => 0)
  }

  lemma ZerosSum(n: nat)
    ensures SeqSum(Zeros(n)) == 0
  {
    SeqSumConst(n, 0);
    assert Zeros(n) == seq(n, _ => 0);
  }

  predicate AllU16(s: seq<int>)
  {
    forall j :: 0 <= j < |s| ==> IsU16(s[j])
  }

  /** The ring after one more input: only the slot at the old length changes. */
  lemma SlotsStep(h: seq<int>, n: nat, x: int)
    requires n > 0
    ensures Slots(h + [x], n) == Slots(h, n)[|h| % n := x]
  {
    var h2 := h + [x];
    assert h2[..|h2| - 1] == h;
  }

  lemma {:induction false} SlotsU16(h: seq<int>, n: nat)
    requires n > 0 && AllU16(h)
    ensures AllU16(Slots(h, n))
  {
    forall j | 0 <= j < n
      ensures IsU16(Slot(h, n, j))
    {
      SlotU16(h, n, j);
    }
  }

  lemma {:induction false} SlotU16(h: seq<int>, n: nat, j: int)
    requires n > 0 && AllU16(h)
    ensures IsU16(Slot(h, n, j))
    decreases |h|
  {
    if |h| > 0 && (|h| - 1) % n != j {
      SlotU16(h[..|h| - 1], n, j);
    }
  }

  /** Dropping inputs whose slots differ from j does not change slot j. */
  lemma {:induction false} SlotSkip(h: seq<int>, n: nat, j: int, q: int)
    requires n > 0 && 0 <= q <= |h|
    requires forall k :: q <= k < |h| ==> k % n != j
    ensures Slot(h, n, j) == Slot(h[..q], n, j)
    decreases |h| - q
  {
    if q < |h| {
      var t := h[..|h| - 1];
      assert t[..q] == h[..q];
      SlotSkip(t, n, j, q);
    } else {
      assert h[..q] == h;
    }
  }

  /** Once n inputs have arrived, the slot the next input overwrites holds the one leaving the window. */
  lemma OverwrittenSlotFull(h: seq<int>, n: nat)
    requires n > 0 && |h| >= n
    ensures Slot(h, n, |h| % n) == h[|h| - n]
  {
    var L := |h|;
    var j := L % n;
    forall k | L - n + 1 <= k < L
      ensures k % n != j
    {
      ResidueDistinct(k, L, n);
    }
    SlotSkip(h, n, j, L - n + 1);
    var p := h[..L - n + 1];
    DivModUnique(L - n, n, L / n - 1, j);
    assert (|p| - 1) % n == j;
  }

  /** While the ring is filling, the slot the next input writes is still 0. */
  lemma OverwrittenSlotFilling(h: seq<int>, n: nat)
    requires n > 0 && |h| < n
    ensures Slot(h, n, |h| % n) == 0
  {
    var L := |h|;
    DivModUnique(L, n, 0, L);
    forall k | 0 <= k < L
      ensures k % n != L % n
    {
      DivModUnique(k, n, 0, k);
    }
    SlotSkip(h, n, L % n, 0);
    assert h[..0] == [];
  }

  lemma OverwrittenSlot(h: seq<int>, n: nat)
    requires n > 0
    ensures |h| >= n ==> Slot(h, n, |h| % n) == h[|h| - n]
    ensures |h| < n ==> Slot(h, n, |h| % n) == 0
  {
    if |h| >= n { OverwrittenSlotFull(h, n); } else { OverwrittenSlotFilling(h, n); }
  }

  /** The ring always sums to the window: the output is the mean of the last n inputs, zeros first. */
  lemma {:induction false} RingSumIsWindowSum(h: seq<int>, n: nat)
    requires n > 0
    ensures SeqSum(Slots(h, n)) == SeqSum(Window(h, n))
    decreases |h|
  {
    if |h| == 0 {
      assert Slots(h, n) == Zeros(n);
      assert Window(h, n) == Zeros(n) + [];
      assert Zeros(n) + [] == Zeros(n);
      ZerosSum(n);
    } else {
      var p := h[..|h| - 1];
      var x := h[|h| - 1];
      assert h == p + [x];
      RingSumIsWindowSum(p, n);
      SlotsStep(p, n, x);
      DivModUnique(|p| % n, n, 0, |p| % n);
      SeqSumUpdate(Slots(p, n), |p| % n, x);
      OverwrittenSlot(p, n);
      WindowStep(p, n, x);
    }
  }

  /** One more input adds itself to the window sum and removes the input that leaves, or a padding 0. */
  lemma WindowStep(p: seq<int>, n: nat, x: int)
    requires n > 0
    ensures SeqSum(Window(p + [x], n)) == SeqSum(Window(p, n)) - (if |p| >= n then p[|p| - n] else 0) + x
  {
    var h := p + [x];
    assert SeqSum([x]) == x by { assert [x][..0] == []; }
    if |p| >= n {
      var w := Window(p, n);
      assert w == [p[|p| - n]] + w[1..];
      assert Window(h, n) == w[1..] + [x];
      SeqSumAppend([p[|p| - n]], w[1..]);
      SeqSumAppend(w[1..], [x]);
      assert SeqSum([p[|p| - n]]) == p[|p| - n] by { assert [p[|p| - n]][..0] == []; }
    } else if |h| == n {
      assert Window(h, n) == h;
      assert Window(p, n) == [0] + p;
      SeqSumAppend([0], p);
      assert SeqSum([0]) == 0 by { assert [0][..0] == []; }
      SeqSumAppend(p, [x]);
    } else {
      var z := Zeros(n - |p|);
      var z2 := Zeros(n - |h|);
      ZerosSum(n - |p|);
      ZerosSum(n - |h|);
      assert Window(h, n) == z2 + (p + [x]);
      SeqSumAppend(z2, p + [x]);
      SeqSumAppend(z, p);
      SeqSumAppend(p, [x]);
    }
  }

  /** After n equal inputs the window holds only that value, so the mean is exactly it. */
  lemma ConstantInputSettles(h: seq<int>, n: nat, c: int)
    requires n > 0 && |h| >= n
    requires forall k :: |h| - n <= k < |h| ==> h[k] == c
    ensures SeqSum(Window(h, n)) / n == c
  {
    assert Window(h, n) == seq(n, _ => c);
    SeqSumConst(n, c);
    DivModUnique(n * c, n, c, 0);
  }

  /**
   * One `process` step on the ring: the new ring, its sum, and the bounds
   * that make the uint32 subtraction and addition and the uint16 narrowing
   * of the mean exact.
   */
  lemma RingStep(h: seq<int>, n: nat, x: int)
    requires 0 < n <= 255 && AllU16(h) && IsU16(x)
    ensures var b := Slots(h, n); var b2 := Slots(h + [x], n);
      b2 == b[|h| % n := x] && AllU16(b2)
      && 0 <= b[|h| % n] <= SeqSum(b)
      && SeqSum(b2) == SeqSum(b) - b[|h| % n] + x
      && 0 <= SeqSum(b2) < TWO32
      && SeqSum(b2) == SeqSum(Window(h + [x], n))
      && IsU16(SeqSum(b2) / n)
  {
    var b := Slots(h, n);
    var b2 := Slots(h + [x], n);
    var i := |h| % n;
    SlotsU16(h, n);
    SlotsStep(h, n, x);
    SeqSumBounds(b, TWO16 - 1);
    SeqSumUpdate(b, i, x);
    assert AllU16(b2);
    SeqSumBounds(b2, TWO16 - 1);
    MulLe(n, 255, TWO16 - 1);
    RingSumIsWindowSum(h + [x], n);
    DivMonotone(SeqSum(b2), n * (TWO16 - 1), n);
    DivModUnique(n * (TWO16 - 1), n, TWO16 - 1, 0);
    FloorDivBetween(SeqSum(b2), n);
  }

  /** The filter's invariant over its ring contents, inputs, index and running sum. */
  predicate RingOk(buf: seq<int>, h: seq<int>, index: int, sum: int, n: nat)
  {
    0 < n <= 255 && AllU16(h) && 0 <= index < n && index == |h| % n
    && buf == Slots(h, n) && sum == SeqSum(buf)
  }

  /** The freshly zeroed ring satisfies the invariant. */
  lemma InitialRing(n: nat)
    requires 0 < n <= 255
    ensures RingOk(Zeros(n), [], 0, 0, n)
  {
    assert Slots([], n) == Zeros(n);
    ZerosSum(n);
  }

  /** `process` keeps the invariant, and its uint32 arithmetic is exact. */
  lemma ProcessKeepsRing(buf: seq<int>, h: seq<int>, index: int, sum: int, n: nat, x: int)
    requires RingOk(buf, h, index, sum, n) && IsU16(x)
    ensures RingOk(buf[index := x], h + [x], (index + 1) % n, U32(U32(sum - buf[index]) + x), n)
    ensures U32(U32(sum - buf[index]) + x) == SeqSum(Window(h + [x], n))
    ensures IsU16(SeqSum(Window(h + [x], n)) / n)
  {
    RingStep(h, n, x);
    NextIndex(|h|, n);
  }

  lemma NextIndex(L: nat, n: nat)
    requires n > 0
    ensures (L % n + 1) % n == (L + 1) % n
  {
    var i := L % n;
    DivModUnique(L + 1, n, L / n + (i + 1) / n, (i + 1) % n);
  }

  class MovingAverageFilter {
    const buffer: array<int>
    const filterSize: int
    var index: int
    var sum: int
    /** The inputs so far; the ring's contents are a function of them. */
    ghost var history: seq<int>

    ghost predicate Valid()
      reads this, buffer
    {
      IsU8(filterSize) && buffer.Length == filterSize
      && (filterSize > 0 ==> RingOk(buffer[..], history, index, sum, filterSize))
    }

    /** The buffer starts all zero. */
    constructor(size: int)
      requires IsU8(size)
      ensures Valid() && filterSize == size && history == [] && index == 0 && sum == 0
      ensures fresh(buffer) && buffer[..] == Zeros(size)
    {
      filterSize := size;
      buffer := new int[size];
      index := 0;
      sum := 0;
      history := [];
      new;
      for i := 0 to size
        invariant forall j :: 0 <= j < i ==> buffer[j] == 0
        invariant index == 0 && sum == 0 && history == []
      {
        buffer[i] := 0;
      }
      assert buffer[..] == Zeros(size);
      if size > 0 {
        InitialRing(size);
      }
    }

    /**
     * `process`: the oldest reading in the ring replaced by the input, the
     * index advanced modulo the size, and the mean of the last `filterSize`
     * inputs returned.
     */
    method Process(input: int) returns (avg: int)
      requires Valid() && filterSize > 0 && IsU16(input)
      modifies this, buffer
      ensures Valid() && history == old(history) + [input]
      ensures buffer[..] == old(buffer[..])[old(index) := input]
      ensures index == (old(index) + 1) % filterSize
      ensures avg == SeqSum(Window(history, filterSize)) / filterSize
    {
      ProcessKeepsRing(buffer[..], history, index, sum, filterSize, input);
      sum := U32(sum - buffer[index]);
      buffer[index] := input;
      sum := U32(sum + input);
      history := history + [input];
      index := (index + 1) % filterSize;
      avg := U16(sum / filterSize);
    }
  }
}
