/** The sample buffers and edge counting of MotorServerCpp/MotorMonitor.hpp.
    Sensor readings arrive as parameters (the INA219 register reads are not
    modelled) and are integers rather than floats. The magnet interrupt is an
    input sequence: for each poll of a measurement loop, whether an edge arrived
    since the previous poll. */
module MotorMonitoring {

  /** Capacity of the voltage buffer. */
  const VSize: int := 10000
  /** Capacity of the current buffer. */
  const ISize: int := 10000

  // ---------------------------------------------------------------------------
  // Specification functions

  ghost predicate NonIncreasing(s: seq<int>)
  {
    forall p, q :: 0 <= p < q < |s| ==> s[p] >= s[q]
  }

  /** Number of zero entries. */
  function CountZeros(s: seq<int>): nat
  {
    if |s| == 0 then 0 else CountZeros(s[..|s| - 1]) + (if s[|s| - 1] == 0 then 1 else 0)
  }

  /** The zero count is the multiplicity of 0, so any permutation has the same count. */
  lemma {:induction false} CountZerosIsMultiplicity(s: seq<int>)
    ensures CountZeros(s) == multiset(s)[0]
  {
    if |s| > 0 {
      CountZerosIsMultiplicity(s[..|s| - 1]);
      assert s == s[..|s| - 1] + [s[|s| - 1]];
    }
  }

  /** Number of true entries. */
  function CountTrue(s: seq<bool>): nat
  {
    if |s| == 0 then 0 else CountTrue(s[..|s| - 1]) + (if s[|s| - 1] then 1 else 0)
  }

  lemma {:induction false} CountTrueAppend(a: seq<bool>, b: seq<bool>)
    ensures CountTrue(a + b) == CountTrue(a) + CountTrue(b)
    decreases |b|
  {
    if |b| > 0 {
      CountTrueAppend(a, b[..|b| - 1]);
      assert (a + b)[..|a + b| - 1] == a + b[..|b| - 1];
    } else {
      assert a + b == a;
    }
  }

  /** What the polls of a window observe: the first poll also sees a flag that
      was already set when the window opened; a later poll sees exactly the edges
      that arrived since the poll before it. */
  function Observed(flag: bool, edges: seq<bool>): (o: seq<bool>)
    ensures |o| == |edges|
  {
    if |edges| == 0 then [] else [flag || edges[0]] + edges[1..]
  }

  /** Every edge is counted once, and a flag left pending from before the window
      is counted once more unless an edge merges with it before the first poll;
      so a window never counts more hits than polls. */
  lemma HitsPerWindow(flag: bool, edges: seq<bool>)
    requires |edges| > 0
    ensures CountTrue(Observed(flag, edges)) ==
      CountTrue(edges) + (if flag && !edges[0] then 1 else 0)
    ensures CountTrue(Observed(flag, edges)) <= |edges|
  {
    CountTrueAppend([flag || edges[0]], edges[1..]);
    CountTrueAppend([edges[0]], edges[1..]);
    assert edges == [edges[0]] + edges[1..];
    CountTrueAtMostLength(Observed(flag, edges));
  }

  lemma {:induction false} CountTrueAtMostLength(s: seq<bool>)
    ensures CountTrue(s) <= |s|
  {
    if |s| > 0 {
      CountTrueAtMostLength(s[..|s| - 1]);
    }
  }

  lemma ObservedAt(flag: bool, edges: seq<bool>, k: nat)
    requires k < |edges|
    ensures Observed(flag, edges)[k] == if k == 0 then flag || edges[0] else edges[k]
  {
  }

  lemma ObservedPrefix(flag: bool, edges: seq<bool>, k: nat)
    requires k < |edges|
    ensures Observed(flag, edges[..k + 1]) ==
      Observed(flag, edges[..k]) + [if k == 0 then flag || edges[0] else edges[k]]
  {
    if k > 0 {
      assert edges[..k + 1][1..] == edges[..k][1..] + [edges[k]];
    }
  }

  // ---------------------------------------------------------------------------
  // Buffers

  /** A sample buffer written at a wrapping index: V_buffer with V_index, or
      I_buffer with I_index. */
  class SampleBuffer {
    const data: array<int>
    var index: int

    ghost predicate Valid()
      reads this
    {
      0 < data.Length && 0 <= index <= data.Length
    }

    /** A zero-filled buffer with its index at 0, as the globals start. */
    constructor (size: nat)
      requires size > 0
      ensures Valid() && fresh(data) && data.Length == size
      ensures index == 0 && data[..] == seq(size, _ => 0)
    {
      data := new int[size](_ => 0);
      index := 0;
    }

    /** The store half of getLoadVoltage / getLoadCurrent: wrap the index to 0 once
        it reaches the capacity, store at the index, then advance it. Only the
        written slot changes. */
    method Record(v: int)
      requires Valid()
      modifies this`index, data
      ensures Valid() && 1 <= index <= data.Length
      ensures var w := if old(index) >= data.Length then 0 else old(index);
              index == w + 1 && data[..] == old(data[..])[w := v]
    {
      if index >= data.Length {
        index := 0;
      }
      data[index] := v;
      index := index + 1;
    }
  }

  /** Exchanges two entries. */
  method Swap(a: array<int>, i: int, j: int)
    requires 0 <= i < a.Length && 0 <= j < a.Length
    modifies a
    ensures a[i] == old(a[j]) && a[j] == old(a[i])
    ensures forall m :: 0 <= m < a.Length && m != i && m != j ==> a[m] == old(a[m])
    ensures multiset(a[..]) == old(multiset(a[..]))
  {
    var temp := a[i];
    a[i] := a[j];
    a[j] := temp;
  }

  /** The inner loop of the exchange sort: every later entry larger than a[i] is
      swapped into place i, which ends up holding a maximum of a[i..]. Entries
      before i are untouched, so an ordered prefix stays ordered. */
  method PlaceLargest(a: array<int>, i: int)
    requires 0 <= i < a.Length
    requires forall p, q :: 0 <= p < i <= q < a.Length ==> a[p] >= a[q]
    modifies a
    ensures forall m :: 0 <= m < i ==> a[m] == old(a[m])
    ensures forall p, q :: 0 <= p < i <= q < a.Length ==> a[p] >= a[q]
    ensures forall m :: i <= m < a.Length ==> a[i] >= a[m]
    ensures multiset(a[..]) == old(multiset(a[..]))
  {
    var j := i;
    while j < a.Length
      invariant i <= j <= a.Length
      invariant forall m :: 0 <= m < i ==> a[m] == old(a[m])
      invariant forall p, q :: 0 <= p < i <= q < a.Length ==> a[p] >= a[q]
      invariant forall m :: i <= m < j ==> a[i] >= a[m]
      invariant multiset(a[..]) == old(multiset(a[..]))
    {
      if a[j] > a[i] {
        Swap(a, i, j);
      }
      j := j + 1;
    }
  }

  /** The nested exchange loop of printSortedVoltage / printSortedCurrent, which
      leaves the array in non-increasing order. */
  method SortDescending(a: array<int>)
    modifies a
    ensures NonIncreasing(a[..])
    ensures multiset(a[..]) == old(multiset(a[..]))
  {
    var i := 0;
    while i < a.Length
      invariant 0 <= i <= a.Length
      invariant forall p, q :: 0 <= p < q < i ==> a[p] >= a[q]
      invariant forall p, q :: 0 <= p < i <= q < a.Length ==> a[p] >= a[q]
      invariant multiset(a[..]) == old(multiset(a[..]))
    {
      PlaceLargest(a, i);
      i := i + 1;
    }
  }

  /** The copy, zero count and sort shared by printSortedVoltage and
      printSortedCurrent: `buf` is copied, the zeros among the copy's first
      `zeroBound` entries are counted, and the copy is sorted; `buf` itself is
      only read. (Printing the top entries is not modelled.) */
  method SortedSnapshot(buf: array<int>, zeroBound: int) returns (sorted: seq<int>, zeros: nat)
    requires 0 <= zeroBound <= buf.Length
    ensures NonIncreasing(sorted)
    ensures multiset(sorted) == multiset(buf[..])
    ensures zeros == CountZeros(buf[..zeroBound])
  {
    var copy := new int[buf.Length];
    var i := 0;
    while i < buf.Length
      invariant 0 <= i <= buf.Length
      invariant copy[..i] == buf[..i]
    {
      copy[i] := buf[i];
      i := i + 1;
    }
    assert copy[..] == buf[..];
    zeros := 0;
    i := 0;
    while i < zeroBound
      invariant 0 <= i <= zeroBound
      invariant zeros == CountZeros(copy[..i])
    {
      assert copy[..i + 1][..i] == copy[..i];
      if copy[i] == 0 {
        zeros := zeros + 1;
      }
      i := i + 1;
    }
    assert copy[..zeroBound] == buf[..zeroBound];
    SortDescending(copy);
    sorted := copy[..];
  }

  // ---------------------------------------------------------------------------
  // The monitor's state

  class Monitor {
    const voltage: SampleBuffer
    const current: SampleBuffer
    /** Set by the magnet's rising-edge interrupt, cleared by the measurement loops. */
    var detectMagnetRE: bool

    ghost predicate Valid()
      reads this, voltage, current
    {
      voltage.Valid() && current.Valid() &&
      voltage.data.Length == VSize && current.data.Length == ISize &&
      voltage != current && voltage.data != current.data
    }

    constructor ()
      ensures Valid() && fresh(voltage) && fresh(voltage.data) && fresh(current) && fresh(current.data)
      ensures voltage.index == 0 && current.index == 0 && !detectMagnetRE
      ensures voltage.data[..] == seq(VSize, _ => 0) && current.data[..] == seq(ISize, _ => 0)
    {
      voltage := new SampleBuffer(VSize);
      current := new SampleBuffer(ISize);
      detectMagnetRE := false;
    }

    /** getLoadVoltage: record the bus-voltage reading in the voltage buffer and return it. */
    method GetLoadVoltage(reading: int) returns (v: int)
      requires Valid()
      modifies voltage, voltage.data
      ensures Valid() && v == reading
      ensures 1 <= voltage.index <= VSize && voltage.data[voltage.index - 1] == v
      ensures var w := if old(voltage.index) >= VSize then 0 else old(voltage.index);
              voltage.index == w + 1 && voltage.data[..] == old(voltage.data[..])[w := reading]
    {
      voltage.Record(reading);
      v := reading;
    }

    /** getLoadCurrent: record the current reading in the current buffer and return it. */
    method GetLoadCurrent(reading: int) returns (i: int)
      requires Valid()
      modifies current, current.data
      ensures Valid() && i == reading
      ensures 1 <= current.index <= ISize && current.data[current.index - 1] == i
      ensures var w := if old(current.index) >= ISize then 0 else old(current.index);
              current.index == w + 1 && current.data[..] == old(current.data[..])[w := reading]
    {
      current.Record(reading);
      i := reading;
    }

    /** printSortedVoltage without the printing: the sorted copy and its zero count. */
    method PrintSortedVoltage() returns (sorted: seq<int>, zeros: nat)
      requires Valid()
      ensures NonIncreasing(sorted) && multiset(sorted) == multiset(voltage.data[..])
      ensures zeros == CountZeros(voltage.data[..]) && zeros == multiset(sorted)[0]
    {
      sorted, zeros := SortedSnapshot(voltage.data, VSize);
      assert voltage.data[..VSize] == voltage.data[..];
      CountZerosIsMultiplicity(voltage.data[..]);
    }

    /** printSortedCurrent without the printing. Its zero count runs to VSize,
        which equals ISize. */
    method PrintSortedCurrent() returns (sorted: seq<int>, zeros: nat)
      requires Valid()
      ensures NonIncreasing(sorted) && multiset(sorted) == multiset(current.data[..])
      ensures zeros == CountZeros(current.data[..]) && zeros == multiset(sorted)[0]
    {
      sorted, zeros := SortedSnapshot(current.data, VSize);
      assert current.data[..VSize] == current.data[..];
      CountZerosIsMultiplicity(current.data[..]);
    }

    /** One window of measureSpeed's polling loop: each poll that finds the edge
        flag set counts one hit and clears the flag. `edges[k]` says whether the
        interrupt fired before poll k. (The RPM formula is not modelled.) */
    method MeasureSpeedWindow(edges: seq<bool>) returns (hitCount: nat)
      modifies this`detectMagnetRE
      ensures hitCount == CountTrue(Observed(old(detectMagnetRE), edges))
      ensures detectMagnetRE == (|edges| == 0 && old(detectMagnetRE))
    {
      hitCount := 0;
      var k := 0;
      while k < |edges|
        invariant 0 <= k <= |edges|
        invariant hitCount == CountTrue(Observed(old(detectMagnetRE), edges[..k]))
        invariant detectMagnetRE == (k == 0 && old(detectMagnetRE))
      {
        if edges[k] {
          detectMagnetRE := true;
        }
        ObservedPrefix(old(detectMagnetRE), edges, k);
        if detectMagnetRE {
          hitCount := hitCount + 1;
          detectMagnetRE := false;
        }
        k := k + 1;
      }
      assert edges[..k] == edges;
    }

    /** measureSpeed2's loop over a finite run of polls: poll k happens at clock
        reading times[k]; when it finds the edge flag set it clears the flag and
        moves lastHit to that time. lastHits[k] is lastHit after poll k.
        (The RPM formula and the periodic printing are not modelled.) */
    method MeasureSpeed2(start: nat, times: seq<nat>, edges: seq<bool>) returns (lastHits: seq<nat>)
      requires |times| == |edges|
      requires forall k :: 0 <= k < |times| ==> start <= times[k]
      requires forall p, q :: 0 <= p < q < |times| ==> times[p] <= times[q]
      modifies this`detectMagnetRE
      ensures |lastHits| == |edges|
      ensures forall k :: 0 <= k < |edges| ==>
        lastHits[k] == if Observed(old(detectMagnetRE), edges)[k] then times[k]
                       else if k == 0 then start else lastHits[k - 1]
      ensures forall p, q :: 0 <= p < q < |lastHits| ==> start <= lastHits[p] <= lastHits[q]
      ensures detectMagnetRE == (|edges| == 0 && old(detectMagnetRE))
    {
      ghost var seen := Observed(detectMagnetRE, edges);
      var lastHit := start;
      lastHits := [];
      var k := 0;
      while k < |edges|
        invariant 0 <= k <= |edges| && |lastHits| == k
        invariant lastHit == if k == 0 then start else lastHits[k - 1]
        invariant start <= lastHit && (k < |times| ==> lastHit <= times[k])
        invariant TracksHits(start, times, seen, lastHits)
        invariant Ascending(start, lastHits)
        invariant detectMagnetRE == (k == 0 && old(detectMagnetRE))
      {
        ObservedAt(old(detectMagnetRE), edges, k);
        lastHit := Poll(edges[k], times[k], lastHit);
        TracksHitsSnoc(start, times, seen, lastHits, lastHit);
        AscendingSnoc(start, lastHits, lastHit);
        lastHits := lastHits + [lastHit];
        k := k + 1;
      }
    }

    /** One poll of measureSpeed2's loop: the interrupt may set the flag first;
        a poll that finds it set clears it and takes the poll's time as lastHit. */
    method Poll(edge: bool, time: nat, lastHit: nat) returns (newLastHit: nat)
      modifies this`detectMagnetRE
      ensures newLastHit == if old(detectMagnetRE) || edge then time else lastHit
      ensures !detectMagnetRE
    {
      if edge {
        detectMagnetRE := true;
      }
      newLastHit := lastHit;
      if detectMagnetRE {
        detectMagnetRE := false;
        newLastHit := time;
      }
    }
  }

  /** lastHits follows the polls: each entry is the poll's time when the poll saw
      the flag, and the previous entry (or the start) otherwise. */
  ghost predicate TracksHits(start: nat, times: seq<nat>, seen: seq<bool>, hits: seq<nat>)
  {
    |hits| <= |seen| && |hits| <= |times| &&
    forall m {:trigger hits[m]} :: 0 <= m < |hits| ==>
      hits[m] == if seen[m] then times[m] else if m == 0 then start else hits[m - 1]
  }

  /** Every entry is at least the start, and later entries are never earlier. */
  ghost predicate Ascending(start: nat, hits: seq<nat>)
  {
    (forall p :: 0 <= p < |hits| ==> start <= hits[p]) &&
    (forall p, q :: 0 <= p < q < |hits| ==> hits[p] <= hits[q])
  }

  lemma TracksHitsSnoc(start: nat, times: seq<nat>, seen: seq<bool>, hits: seq<nat>, next: nat)
    requires TracksHits(start, times, seen, hits) && |hits| < |seen| && |hits| < |times|
    requires next == if seen[|hits|] then times[|hits|] else if |hits| == 0 then start else hits[|hits| - 1]
    ensures TracksHits(start, times, seen, hits + [next])
  {
    var h := hits + [next];
    forall m | 0 <= m < |h|
      ensures h[m] == if seen[m] then times[m] else if m == 0 then start else h[m - 1]
    {
      if m < |hits| {
        assert h[m] == hits[m];
      } else {
        assert h[m] == next;
      }
      if m > 0 {
        assert h[m - 1] == hits[m - 1];
      }
    }
  }

  lemma AscendingSnoc(start: nat, hits: seq<nat>, next: nat)
    requires Ascending(start, hits) && start <= next && (|hits| > 0 ==> hits[|hits| - 1] <= next)
    ensures Ascending(start, hits + [next])
  {
    var h := hits + [next];
    forall p | 0 <= p < |h|
      ensures start <= h[p]
    {
      if p < |hits| {
        assert h[p] == hits[p];
      }
    }
    forall p, q | 0 <= p < q < |h|
      ensures h[p] <= h[q]
    {
      assert h[p] == hits[p];
      if q < |hits| {
        assert h[q] == hits[q];
      } else if p < |hits| - 1 {
        assert hits[p] <= hits[|hits| - 1];
      }
    }
  }

}
