# Static profile exporter, modelled in Dafny

This project models the core of CASP's `StaticProfileExporterPass`, an LLVM
module pass that turns static block-frequency estimates into an indexed
profile that `llvm-profdata` and `llvm-cov` can read. For every function with
a body it scales each basic block's frequency against the entry block's
(`(100 * f) / f_entry`), shapes the result into a counter array, keys it by a
function hash, and hands the record to an `InstrProfWriter`; the accumulated
records are written once, at the end of the pass.

The model has six modules, one file each:

- `Ir` (`ir.dfy`): the inputs: named globals whose initializers are constant
  structs with positional operands, and functions given by their PGO names and
  the block-frequency oracle's answer for each block (entry block first). A
  declaration is a function without blocks.
- `HexFormat` (`hex_format.dfy`): 16-digit, zero-padded, upper-case
  hexadecimal and its inverse.
- `Metadata` (`metadata.dfy`): the lookups of `__covrec_<HASH>u` (operand 2,
  the structural hash) and `__profd_<name>` (operand 6, the counter count),
  and the choice of function hash.
- `Sorting` (`sorting.dfy`): descending order. It holds a reference sort, the
  fact that a descending permutation is unique (so the choice `std::sort`
  makes among equal values cannot matter), and the in-place array sort.
- `Counts` (`counts.dfy`): `convertBFIToCounts` as a method over its three
  loops. The method is proved against the function `CountsFor`, and the
  properties of the counter array are proved as lemmas about `CountsFor`.
- `Exporter` (`exporter.dfy`): the writer as a class that accumulates
  records, the pass as a class whose `Run` loop is proved against the
  left fold `RunSpec`, and lemmas about the counters and the records.

The comments in lib/StaticProfileExporter.cpp promise more than the code
does in three places; the model follows the code:
- Lines 176 and 185 say the higher counts go to the early counters, using
  the highest-frequency blocks. The loop at lines 186-188 starts at `i = 1`,
  so sorted position 0, the largest scaled count, is never emitted
  (`Counts.LargestCountDropped`). For an entry frequency of 10, a loop body
  of 70 and three counters, the counters are `[100, 100, 33]`, not
  `[100, 700, 33]` (`Counts.LoopWithThreeCounters`).
- Lines 130 and 151 say the array matches the `__profd_` counter count `N`.
  Counter 0 is pushed at line 181, before the loop, so the array has
  `max(N, 1)` counters (`Counts.InstrumentedShape`).
- Line 171 computes `100 * f` in `uint64_t`, so the product wraps modulo
  2^64. `Counts.Scale` keeps that wrap-around, and the lemmas that need the
  exact quotient assume `100 * f < 2^64`.

## Model

| member | source | states |
|---|---|---|
| `HexFormat.ParseHexDigits` | lib/StaticProfileExporter.cpp:53 | reading back the `w` hex digits printed for any `n < 16^w` gives `n` |
| `HexFormat.Hex16Upper` | lib/StaticProfileExporter.cpp:53 | the rendering of a 64-bit value is exactly 16 characters, each an upper-case hex digit |
| `HexFormat.Hex16UpperRoundTrip` | lib/StaticProfileExporter.cpp:53 | the 16-digit upper-case rendering of a 64-bit value reads back as that value |
| `Metadata.ReadIntField` | lib/StaticProfileExporter.cpp:55-62 | a positional field is present exactly when the global exists, is a constant struct with more operands than the index, and that operand is an integer constant; its value is that operand's |
| `Metadata.CoverageRecordName` | lib/StaticProfileExporter.cpp:51-53 | the coverage record name is 26 characters: `__covrec_`, the 16 hex digits of the name hash, `u` |
| `Metadata.CoverageRecordNameInjective` | lib/StaticProfileExporter.cpp:48-55 | distinct name hashes look up distinct coverage records |
| `Metadata.TryExtractCoverageHash` | lib/StaticProfileExporter.cpp:45-73 | the structural hash is present exactly when the record exists with at least 3 operands and operand 2 is an integer, and it is then operand 2 |
| `Metadata.ProfileDataName` | lib/StaticProfileExporter.cpp:103-104 | the profile data record name is `__profd_` followed by the PGO name |
| `Metadata.TryExtractCounterCount` | lib/StaticProfileExporter.cpp:102-121 | the counter count is present exactly when the record exists with more than 6 operands and operand 6 is an integer; it is then operand 6 truncated to 32 bits |
| `Metadata.ComputeFunctionHash` | lib/StaticProfileExporter.cpp:80-95 | the function hash is the coverage structural hash when there is one, and otherwise the hash of the PGO name |
| `Sorting.SortDescCorrect` | lib/StaticProfileExporter.cpp:176-177 | the reference sort returns a descending permutation of its input |
| `Sorting.DescendingPermutationUnique` | lib/StaticProfileExporter.cpp:177 | two descending sequences with the same elements are equal, so any descending sort gives the reference sort's result |
| `Sorting.UniqueMaximumFirst` | lib/StaticProfileExporter.cpp:177 | in a descending sequence a maximum that occurs once is at position 0 and nowhere else |
| `Sorting.SiftLeft` | lib/StaticProfileExporter.cpp:177 | moving one element left past smaller ones extends the descending prefix by one, keeps the prefix's elements and leaves the rest of the array unchanged |
| `Sorting.SortDescending` | lib/StaticProfileExporter.cpp:177 | the in-place sort leaves the array holding the descending sort of its old contents |
| `Counts.Scale` | lib/StaticProfileExporter.cpp:171-172 | a block's count fits in 64 bits and, when `100 * f` does not wrap, is the floor of `100 * f / f_entry` (`c * f_entry <= 100 * f < (c + 1) * f_entry`) |
| `Counts.ScaleEntry` | lib/StaticProfileExporter.cpp:171-172 | the entry block scales to exactly 100 |
| `Counts.ScaleMonotone` | lib/StaticProfileExporter.cpp:212-213 | a larger frequency never gives a smaller count |
| `Counts.ScaledBlocks` | lib/StaticProfileExporter.cpp:169-174 | one scaled count per block, in block order |
| `Counts.CountsFor` | lib/StaticProfileExporter.cpp:137-144 | conversion fails, producing no counts, exactly when the entry frequency is 0 |
| `Counts.UninstrumentedCounts` | lib/StaticProfileExporter.cpp:202-219 | without a usable counter count the array has one count per block in block order, is non-empty, and starts with 100 when the entry product does not wrap |
| `Counts.InstrumentedShape` | lib/StaticProfileExporter.cpp:181-193 | with counter count `N` the array has `max(N, 1)` counters and counter 0 is 100 |
| `Counts.InstrumentedRanks` | lib/StaticProfileExporter.cpp:186-188 | for `1 <= i < min(N, B)` counter `i` is sorted position `i` of the scaled counts, and that part is descending |
| `Counts.InstrumentedPadding` | lib/StaticProfileExporter.cpp:189-191 | for `B <= i < N` counter `i` is `100 / (i + 1)`, and the padded tail never increases |
| `Counts.SynthesizeOmits` | lib/StaticProfileExporter.cpp:181-193 | a value above 100 that is not at a sorted position from 1 on is not among the counters |
| `Counts.LargestCountDropped` | lib/StaticProfileExporter.cpp:177-188 | the largest scaled count, when it occurs once and exceeds 100, appears nowhere in the instrumented counters |
| `Counts.LoopWithoutCounterCount` | lib/StaticProfileExporter.cpp:210-215 | entry frequency 10 and a block of frequency 70 without profile data give `[100, 700]` |
| `Counts.LoopWithThreeCounters` | lib/StaticProfileExporter.cpp:166-193 | the same function with counter count 3 gives `[100, 100, 33]` |
| `Counts.CollectScaled` | lib/StaticProfileExporter.cpp:166-174 | the first instrumented loop fills a fresh buffer with the scaled counts in block order |
| `Counts.AssignCounters` | lib/StaticProfileExporter.cpp:181-193 | the counter loop produces the entry count, then sorted positions from 1, then the filler, `max(N, 1)` counters in all |
| `Counts.PerBlockCounts` | lib/StaticProfileExporter.cpp:210-215 | the uninstrumented loop produces the scaled counts in block order |
| `Counts.ConvertBFIToCounts` | lib/StaticProfileExporter.cpp:135-222 | the conversion reports success exactly when the entry frequency is non-zero, and then returns the counts `CountsFor` describes; it returns no counts on failure |
| `Exporter.ProfileWriter.constructor` | lib/StaticProfileExporter.cpp:233 | a new writer holds no records and has written nothing |
| `Exporter.ProfileWriter.AddRecord` | lib/StaticProfileExporter.cpp:262-266 | a record is appended exactly when the writer accepts it; otherwise the records are unchanged |
| `Exporter.ProfileWriter.Write` | lib/StaticProfileExporter.cpp:289 | writing marks the records as written and keeps them |
| `Exporter.MakeRecord` | lib/StaticProfileExporter.cpp:255-260 | a record carries the IR PGO name, the converted counts, and the coverage structural hash whenever one is present (else the name hash) |
| `Exporter.StepEffect` | lib/StaticProfileExporter.cpp:237-268 | a declaration changes no counter; a zero entry frequency adds one skipped function only; a converted function adds one processed function and either one record or, when refused, one skipped function |
| `Exporter.FoldCounters` | lib/StaticProfileExporter.cpp:233-271 | processed equals the number of converted functions, and skipped equals the zero entry frequencies plus the refused records |
| `Exporter.FoldRecordsFromConverted` | lib/StaticProfileExporter.cpp:255-266 | every accumulated record is the record of some converted function |
| `Exporter.FoldAcceptingAll` | lib/StaticProfileExporter.cpp:237-271 | with a writer that takes every record, the records are exactly those of the converted functions in module order, and only zero entry frequencies are skipped |
| `Exporter.WrittenIff` | lib/StaticProfileExporter.cpp:226-289 | output is written exactly when the path is non-empty and at least one function converts |
| `Exporter.DeclarationsLeaveInitialState` | lib/StaticProfileExporter.cpp:238-241 | declarations leave the counters at zero and the records empty |
| `Exporter.DeclarationsOnly` | lib/StaticProfileExporter.cpp:237-279 | a module holding only declarations gives no record and no output |
| `Exporter.StaticProfileExporterPass.constructor` | include/StaticProfileExporter.h:41-42 | the pass holds the given output path |
| `Exporter.StaticProfileExporterPass.Run` | lib/StaticProfileExporter.cpp:224-301 | the run's counters, records and written flag are those of `RunSpec`: nothing for an empty path, otherwise the fold over the functions and a write only if some function was processed |

## Left out

- The block-frequency oracle (`BlockFrequencyInfo`, `FunctionAnalysisManager`) and the Wu-Larus heuristic toggle: a foreign analysis. Each function carries the oracle's answer for each of its blocks.
- `getPGOFuncName` and `getIRPGOFuncName`: foreign library calls. Their results are fields of each function.
- `IndexedInstrProf::ComputeHash` (MD5): a foreign library call, passed in as an arbitrary function from names to 64-bit values.
- `InstrProfWriter::addRecord` merge and error rules: whether a record is taken is an oracle parameter. A refused record is modelled as leaving the accumulated records unchanged.
- Opening the output file, serialising the records, and the two error paths that follow (lib/StaticProfileExporter.cpp:281-293): I/O. The written flag records that the pass reached the write.
- Diagnostics (`LLVM_DEBUG`, `errs()`): output only.
- The 32-bit `unsigned` counters `FunctionsProcessed` and `FunctionsSkipped` are unbounded: wrapping them needs more than 2^32 functions.
- An integer operand whose value needs more than 64 bits, on which `getZExtValue` fails: integer operands are modelled by their 64-bit values.
- The `Counts` output vector is modelled as the returned sequence. Its one caller always passes a fresh, empty vector.
- The pass's `PreservedAnalyses::all()` result: it is the same on every path.
- lib/casp-tool.cpp and lib/CASPPlugin.cpp (command-line driver and plugin registration) and the sample C programs under examples/ are not part of this model.
