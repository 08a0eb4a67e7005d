/** Conversion of block frequencies into a profile counter array. */
module Counts {
  import opened Ir
  import Metadata
  import Sorting

  /** The synthetic entry count every frequency is scaled against. */
  const DEFAULT_ENTRY_COUNT: nat := 100

  lemma MulMonotone(a: nat, b: nat, d: nat)
    requires a <= b
    ensures a * d <= b * d
  {
  }

  /** A strict inequality between multiples of the same positive factor
      carries over to the multiplicands. */
  lemma MulStrictCancel(a: nat, b: nat, d: nat)
    requires d > 0 && a * d < b * d
    ensures a < b
  {
  }

  /** `x / d` is the largest `q` with `q * d <= x`. */
  lemma DivIsFloor(x: nat, d: nat, q: nat)
    requires d > 0
    ensures q * d <= x ==> q <= x / d
    ensures x < (q + 1) * d ==> x / d <= q
  {
    assert (x / d + 1) * d == (x / d) * d + d;
    if q * d <= x {
      MulStrictCancel(q, x / d + 1, d);
    }
    if x < (q + 1) * d {
      MulStrictCancel(x / d, q + 1, d);
    }
  }

  /** Floor division never grows when the dividend shrinks. */
  lemma DivMonotone(x: nat, y: nat, d: nat)
    requires x <= y && d > 0
    ensures x / d <= y / d
  {
    DivIsFloor(y, d, x / d);
  }

  /** Floor division never grows when the divisor grows. */
  lemma DivAntitone(x: nat, b: nat, c: nat)
    requires 0 < b <= c
    ensures x / c <= x / b
  {
    MulMonotone(b, c, x / c);
    DivIsFloor(x, b, x / c);
  }

  /** One block's count: `(100 * freq) / entryFreq` in 64-bit unsigned
      arithmetic, so the product wraps around modulo 2^64. */
  function Scale(freq: u64, entryFreq: u64): (c: nat)
    requires entryFreq > 0
    ensures c < TWO_POW_64
    ensures 100 * freq < TWO_POW_64 ==> c * entryFreq <= 100 * freq < (c + 1) * entryFreq
  {
    var product := (DEFAULT_ENTRY_COUNT * freq) % TWO_POW_64;
    DivAntitone(product, 1, entryFreq);
    product / entryFreq
  }

  /** The entry block always scales to exactly the entry count. */
  lemma ScaleEntry(entryFreq: u64)
    requires 0 < entryFreq && 100 * entryFreq < TWO_POW_64
    ensures Scale(entryFreq, entryFreq) == DEFAULT_ENTRY_COUNT
  {
    DivIsFloor(100 * entryFreq, entryFreq, 100);
    assert (100 + 1) * entryFreq == 100 * entryFreq + entryFreq;
  }

  /** A more frequent block never gets a smaller count. */
  lemma ScaleMonotone(f1: u64, f2: u64, entryFreq: u64)
    requires 0 < entryFreq && f1 <= f2 && 100 * f2 < TWO_POW_64
    ensures Scale(f1, entryFreq) <= Scale(f2, entryFreq)
  {
    assert (100 * f1) % TWO_POW_64 == 100 * f1;
    assert (100 * f2) % TWO_POW_64 == 100 * f2;
    DivMonotone(100 * f1, 100 * f2, entryFreq);
  }

  /** Every block's count, in block iteration order. */
  function ScaledBlocks(freqs: seq<u64>, entryFreq: u64): (s: seq<nat>)
    requires entryFreq > 0
    ensures |s| == |freqs|
    ensures forall k :: 0 <= k < |s| ==> s[k] == Scale(freqs[k], entryFreq)
  {
    seq(|freqs|, k requires 0 <= k < |freqs| => Scale(freqs[k], entryFreq))
  }

  /** Counter `i` of an instrumented function, given the descending block
      counts: the entry count for counter 0, then sorted position `i`, then
      the filler `100 / (i + 1)` once the blocks run out. */
  function CounterAt(sorted: seq<nat>, i: nat): nat {
    if i == 0 then DEFAULT_ENTRY_COUNT
    else if i < |sorted| then sorted[i]
    else DEFAULT_ENTRY_COUNT / (i + 1)
  }

  /** The counter array of an instrumented function with `numCounters`
      counters; counter 0 is there even when `numCounters` is 0. */
  function Synthesize(sorted: seq<nat>, numCounters: u32): seq<nat> {
    seq(if numCounters == 0 then 1 else numCounters, i requires 0 <= i => CounterAt(sorted, i))
  }

  /** What conversion produces for a function with a body: nothing when the
      entry block's frequency is 0, per-block counts without a counter count,
      and the synthesized array with one. */
  function CountsFor(m: Module, f: Function): (r: Option<seq<nat>>)
    requires !IsDeclaration(f)
    ensures r.None? <==> f.blockFreqs[0] == 0
  {
    var entryFreq := f.blockFreqs[0];
    if entryFreq == 0 then None
    else
      var scaled := ScaledBlocks(f.blockFreqs, entryFreq);
      match Metadata.TryExtractCounterCount(m, f)
      case None => Some(scaled)
      case Some(n) => Some(Synthesize(Sorting.SortDesc(scaled), n))
  }

  /** Without a usable counter count the output has one count per block, in
      block order, and so is never empty; the entry block's count is the entry
      count whenever `100 * entry` does not wrap. */
  lemma UninstrumentedCounts(m: Module, f: Function)
    requires !IsDeclaration(f) && f.blockFreqs[0] != 0
    requires Metadata.TryExtractCounterCount(m, f).None?
    ensures CountsFor(m, f).Some?
    ensures |CountsFor(m, f).value| == |f.blockFreqs| > 0
    ensures forall k :: 0 <= k < |f.blockFreqs| ==>
      CountsFor(m, f).value[k] == Scale(f.blockFreqs[k], f.blockFreqs[0])
    ensures 100 * f.blockFreqs[0] < TWO_POW_64 ==> CountsFor(m, f).value[0] == DEFAULT_ENTRY_COUNT
  {
    if 100 * f.blockFreqs[0] < TWO_POW_64 {
      ScaleEntry(f.blockFreqs[0]);
    }
  }

  /** With counter count `n` the array has `max(n, 1)` counters and counter 0
      is the entry count. */
  lemma InstrumentedShape(m: Module, f: Function, n: u32)
    requires !IsDeclaration(f) && f.blockFreqs[0] != 0
    requires Metadata.TryExtractCounterCount(m, f) == Some(n)
    ensures CountsFor(m, f).Some?
    ensures |CountsFor(m, f).value| == (if n == 0 then 1 else n)
    ensures CountsFor(m, f).value[0] == DEFAULT_ENTRY_COUNT
  {
  }

  /** Counters `1 .. min(n, B) - 1` are sorted positions `1 .. min(n, B) - 1`
      of the descending block counts, so they are in descending order. */
  lemma InstrumentedRanks(m: Module, f: Function, n: u32, i: nat, j: nat)
    requires !IsDeclaration(f) && f.blockFreqs[0] != 0
    requires Metadata.TryExtractCounterCount(m, f) == Some(n)
    requires 1 <= i <= j < n && j < |f.blockFreqs|
    ensures CountsFor(m, f).Some?
    ensures CountsFor(m, f).value[i] == Sorting.SortDesc(ScaledBlocks(f.blockFreqs, f.blockFreqs[0]))[i]
    ensures CountsFor(m, f).value[i] >= CountsFor(m, f).value[j]
  {
    Sorting.SortDescCorrect(ScaledBlocks(f.blockFreqs, f.blockFreqs[0]));
  }

  /** Counters past the last block are the filler `100 / (i + 1)`, which
      never increases along the array. */
  lemma InstrumentedPadding(m: Module, f: Function, n: u32, i: nat, j: nat)
    requires !IsDeclaration(f) && f.blockFreqs[0] != 0
    requires Metadata.TryExtractCounterCount(m, f) == Some(n)
    requires |f.blockFreqs| <= i <= j < n
    ensures CountsFor(m, f).Some?
    ensures CountsFor(m, f).value[i] == DEFAULT_ENTRY_COUNT / (i + 1)
    ensures CountsFor(m, f).value[i] >= CountsFor(m, f).value[j]
  {
    DivAntitone(DEFAULT_ENTRY_COUNT, i + 1, j + 1);
  }

  /** A value above the entry count that is not among sorted positions
      `1 ..` is not among the synthesized counters. */
  lemma SynthesizeOmits(sorted: seq<nat>, n: u32, v: nat)
    requires v > DEFAULT_ENTRY_COUNT
    requires forall k :: 1 <= k < |sorted| ==> sorted[k] != v
    ensures v !in Synthesize(sorted, n)
  {
    var c := Synthesize(sorted, n);
    forall k | 0 <= k < |c| ensures c[k] != v {
      if k >= |sorted| {
        DivAntitone(DEFAULT_ENTRY_COUNT, 1, k + 1);
      }
    }
  }

  /** Sorted position 0 is never emitted: a largest block count that occurs
      once and exceeds the entry count appears nowhere in the counters. */
  lemma LargestCountDropped(m: Module, f: Function, n: u32, v: nat)
    requires !IsDeclaration(f) && f.blockFreqs[0] != 0
    requires Metadata.TryExtractCounterCount(m, f) == Some(n)
    requires multiset(ScaledBlocks(f.blockFreqs, f.blockFreqs[0]))[v] == 1
    requires forall x :: x in ScaledBlocks(f.blockFreqs, f.blockFreqs[0]) ==> x <= v
    requires v > DEFAULT_ENTRY_COUNT
    ensures CountsFor(m, f).Some? && v !in CountsFor(m, f).value
  {
    var scaled := ScaledBlocks(f.blockFreqs, f.blockFreqs[0]);
    var sorted := Sorting.SortDesc(scaled);
    Sorting.SortDescCorrect(scaled);
    forall x | x in sorted ensures x <= v {
      assert x in multiset(sorted);
      assert x in scaled;
    }
    Sorting.UniqueMaximumFirst(sorted, v);
    SynthesizeOmits(sorted, n, v);
    assert CountsFor(m, f) == Some(Synthesize(sorted, n));
  }

  /** A function with entry frequency 10 and a loop body with frequency 70,
      without profile data: counters `[100, 700]`. */
  lemma LoopWithoutCounterCount()
    ensures var f := Function("loop", "loop", [10, 70]);
      CountsFor(Module(map[], [f]), f) == Some([100, 700])
  {
    var f := Function("loop", "loop", [10, 70]);
    assert Metadata.TryExtractCounterCount(Module(map[], [f]), f) == None;
    assert ScaledBlocks(f.blockFreqs, 10) == [100, 700];
  }

  /** The same function with a profile data record announcing 3 counters:
      counter 1 is sorted position 1 (100), not the loop body's 700, and
      counter 2 is the filler 100 / 3. */
  lemma LoopWithThreeCounters()
    ensures var f := Function("loop", "loop", [10, 70]);
      var record := ConstantStruct([OtherConstant, OtherConstant, OtherConstant, OtherConstant,
                                    OtherConstant, OtherConstant, IntConstant(3)]);
      CountsFor(Module(map["__profd_loop" := record], [f]), f) == Some([100, 100, 33])
  {
    var f := Function("loop", "loop", [10, 70]);
    var record := ConstantStruct([OtherConstant, OtherConstant, OtherConstant, OtherConstant,
                                  OtherConstant, OtherConstant, IntConstant(3)]);
    var m := Module(map["__profd_loop" := record], [f]);
    assert Metadata.ProfileDataName(f) == "__profd_loop";
    assert Metadata.TryExtractCounterCount(m, f) == Some(3);
    assert ScaledBlocks(f.blockFreqs, 10) == [100, 700];
    assert Sorting.SortDesc([100, 700]) == [700, 100];
    assert Synthesize([700, 100], 3) == [100, 100, 33];
  }

  /** The instrumented path's first loop: every block's count, collected
      into a fresh buffer in block iteration order. */
  method CollectScaled(freqs: seq<u64>, entryFreq: u64) returns (blockFreqs: array<nat>)
    requires entryFreq > 0
    ensures fresh(blockFreqs)
    ensures blockFreqs[..] == ScaledBlocks(freqs, entryFreq)
  {
    blockFreqs := new nat[|freqs|];
    var b := 0;
    while b < |freqs|
      invariant b <= |freqs|
      invariant forall k :: 0 <= k < b ==> blockFreqs[k] == Scale(freqs[k], entryFreq)
    {
      blockFreqs[b] := Scale(freqs[b], entryFreq);
      b := b + 1;
    }
  }

  /** The instrumented path's second loop: counter 0 is the entry count,
      counter `i` takes sorted position `i` while there is one and the
      filler `100 / (i + 1)` after that. */
  method AssignCounters(sorted: array<nat>, n: u32) returns (counts: seq<nat>)
    ensures counts == Synthesize(sorted[..], n)
  {
    counts := [DEFAULT_ENTRY_COUNT];
    var i := 1;
    while i < n
      invariant 1 <= i <= (if n == 0 then 1 else n)
      invariant |counts| == i
      invariant forall k :: 0 <= k < i ==> counts[k] == CounterAt(sorted[..], k)
    {
      if i < sorted.Length {
        counts := counts + [sorted[i]];
      } else {
        counts := counts + [DEFAULT_ENTRY_COUNT / (i + 1)];
      }
      i := i + 1;
    }
  }

  /** The uninstrumented path: one count per block, in block order. */
  method PerBlockCounts(freqs: seq<u64>, entryFreq: u64) returns (counts: seq<nat>)
    requires entryFreq > 0
    ensures counts == ScaledBlocks(freqs, entryFreq)
  {
    counts := [];
    var b := 0;
    while b < |freqs|
      invariant b <= |freqs|
      invariant counts == ScaledBlocks(freqs, entryFreq)[..b]
    {
      counts := counts + [Scale(freqs[b], entryFreq)];
      b := b + 1;
    }
  }

  /** Converts the function's block frequencies into counts. `ok` is the
      boolean the conversion returns; `counts` is what it leaves in its
      output vector, which its caller passes in empty. */
  method ConvertBFIToCounts(m: Module, f: Function) returns (ok: bool, counts: seq<nat>)
    requires !IsDeclaration(f)
    ensures ok <==> f.blockFreqs[0] != 0
    ensures ok ==> CountsFor(m, f) == Some(counts)
    ensures !ok ==> counts == []
  {
    var entryFreq := f.blockFreqs[0];
    if entryFreq == 0 {
      return false, [];
    }
    var instrCounterCount := Metadata.TryExtractCounterCount(m, f);
    if instrCounterCount.Some? {
      var blockFreqs := CollectScaled(f.blockFreqs, entryFreq);
      Sorting.SortDescending(blockFreqs);
      counts := AssignCounters(blockFreqs, instrCounterCount.value);
    } else {
      counts := PerBlockCounts(f.blockFreqs, entryFreq);
    }
    ok := |counts| > 0;
  }
}
