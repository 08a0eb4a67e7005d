/** The module pass: walks the functions, converts each defined function's
    block frequencies, accumulates one profile record per converted function
    and writes the accumulated records once at the end. */
module Exporter {
  import opened Ir
  import Metadata
  import Counts

  /** A named, hashed counter array (`NamedInstrProfRecord`). */
  datatype ProfileRecord = ProfileRecord(name: string, hash: u64, counts: seq<nat>)

  /** Whether the writer takes a record, given the records it already holds.
      The writer's merge rules are not part of this model; this oracle stands
      for them. */
  type Acceptance = (seq<ProfileRecord>, ProfileRecord) -> bool

  /** The record accumulator (`InstrProfWriter`) as a sequence of records,
      with a flag telling whether it has been written out. */
  class ProfileWriter {
    var records: seq<ProfileRecord>
    var written: bool

    constructor ()
      ensures records == [] && !written
    {
      records := [];
      written := false;
    }

    /** Adds `rec` when the writer accepts it; a rejected record leaves the
        accumulated records as they were. */
    method AddRecord(rec: ProfileRecord, accepts: Acceptance) returns (ok: bool)
      modifies this
      ensures ok == accepts(old(records), rec)
      ensures records == if ok then old(records) + [rec] else old(records)
      ensures written == old(written)
    {
      ok := accepts(records, rec);
      if ok {
        records := records + [rec];
      }
    }

    /** Serialises the accumulated records to the output. */
    method Write()
      modifies this
      ensures written && records == old(records)
    {
      written := true;
    }
  }

  /** A function whose conversion succeeds. */
  predicate Converts(f: Function) {
    !IsDeclaration(f) && f.blockFreqs[0] != 0
  }

  /** A function with a body whose entry block has frequency 0. */
  predicate ZeroEntry(f: Function) {
    !IsDeclaration(f) && f.blockFreqs[0] == 0
  }

  /** The record built for a converted function. */
  function MakeRecord(m: Module, f: Function, computeHash: string -> u64): (r: ProfileRecord)
    requires Converts(f)
    ensures r.name == f.irPgoName
    ensures r.counts == Counts.CountsFor(m, f).value
    ensures Metadata.TryExtractCoverageHash(m, f, computeHash).Some? ==>
      r.hash == Metadata.TryExtractCoverageHash(m, f, computeHash).value
    ensures Metadata.TryExtractCoverageHash(m, f, computeHash).None? ==> r.hash == computeHash(f.pgoName)
  {
    ProfileRecord(f.irPgoName, Metadata.ComputeFunctionHash(m, f, computeHash), Counts.CountsFor(m, f).value)
  }

  /** The loop's state: `FunctionsProcessed`, `FunctionsSkipped` and the
      writer's records. */
  datatype PassState = PassState(processed: nat, skipped: nat, records: seq<ProfileRecord>)

  /** One iteration of the loop over functions. */
  function Step(m: Module, computeHash: string -> u64, accepts: Acceptance, s: PassState, f: Function): PassState {
    if IsDeclaration(f) then s
    else if f.blockFreqs[0] == 0 then s.(skipped := s.skipped + 1)
    else
      var rec := MakeRecord(m, f, computeHash);
      if accepts(s.records, rec) then
        s.(processed := s.processed + 1, records := s.records + [rec])
      else
        s.(processed := s.processed + 1, skipped := s.skipped + 1)
  }

  /** The loop's state after the functions `fs`, in order. */
  function Fold(m: Module, computeHash: string -> u64, accepts: Acceptance, fs: seq<Function>): PassState {
    if fs == [] then PassState(0, 0, [])
    else Step(m, computeHash, accepts, Fold(m, computeHash, accepts, fs[..|fs| - 1]), fs[|fs| - 1])
  }

  /** What a run leaves behind: the final counters and records, and whether
      they were written out. */
  datatype PassOutcome = PassOutcome(state: PassState, written: bool)

  /** The whole pass: nothing at all with an empty path; otherwise the loop
      over the module's functions, and a write only if some function was
      processed. */
  function RunSpec(profilePath: string, m: Module, computeHash: string -> u64, accepts: Acceptance): PassOutcome {
    if profilePath == "" then PassOutcome(PassState(0, 0, []), false)
    else
      var s := Fold(m, computeHash, accepts, m.functions);
      PassOutcome(s, s.processed > 0)
  }

  /** How many of `fs` convert. */
  function NumConverted(fs: seq<Function>): nat {
    if fs == [] then 0
    else NumConverted(fs[..|fs| - 1]) + (if Converts(fs[|fs| - 1]) then 1 else 0)
  }

  /** How many of `fs` have a body and a zero entry frequency. */
  function NumZeroEntry(fs: seq<Function>): nat {
    if fs == [] then 0
    else NumZeroEntry(fs[..|fs| - 1]) + (if ZeroEntry(fs[|fs| - 1]) then 1 else 0)
  }

  /** The records of the converted functions among `fs`, in order. */
  function ConvertedRecords(m: Module, computeHash: string -> u64, fs: seq<Function>): seq<ProfileRecord> {
    if fs == [] then []
    else
      var last := fs[|fs| - 1];
      ConvertedRecords(m, computeHash, fs[..|fs| - 1])
        + if Converts(last) then [MakeRecord(m, last, computeHash)] else []
  }

  /** What one function does to the counters: a declaration nothing; a zero
      entry frequency one more skipped function; a converted function one
      more processed function, and either one more record or, when the
      writer refuses it, one more skipped function. */
  lemma StepEffect(m: Module, computeHash: string -> u64, accepts: Acceptance, s: PassState, f: Function)
    ensures IsDeclaration(f) ==> Step(m, computeHash, accepts, s, f) == s
    ensures ZeroEntry(f) ==> Step(m, computeHash, accepts, s, f) == s.(skipped := s.skipped + 1)
    ensures Converts(f) ==>
      var t := Step(m, computeHash, accepts, s, f);
      var rec := MakeRecord(m, f, computeHash);
      t.processed == s.processed + 1
      && (accepts(s.records, rec) ==> t.skipped == s.skipped && t.records == s.records + [rec])
      && (!accepts(s.records, rec) ==> t.skipped == s.skipped + 1 && t.records == s.records)
  {
  }

  /** After any prefix of the functions: the processed count is the number
      of converted functions, and the skipped count is the number of zero
      entry frequencies plus the records the writer refused. */
  lemma {:induction false} FoldCounters(m: Module, computeHash: string -> u64, accepts: Acceptance, fs: seq<Function>)
    ensures var s := Fold(m, computeHash, accepts, fs);
      s.processed == NumConverted(fs)
      && |s.records| <= s.processed
      && s.skipped == NumZeroEntry(fs) + (s.processed - |s.records|)
  {
    if fs != [] {
      FoldCounters(m, computeHash, accepts, fs[..|fs| - 1]);
    }
  }

  /** Every record in `records` is the record of some converted function
      among `fs`. */
  ghost predicate RecordsFrom(m: Module, computeHash: string -> u64, records: seq<ProfileRecord>, fs: seq<Function>) {
    forall k :: 0 <= k < |records| ==>
      exists j :: 0 <= j < |fs| && Converts(fs[j]) && records[k] == MakeRecord(m, fs[j], computeHash)
  }

  /** Every accumulated record is the record of some converted function. */
  lemma {:induction false} FoldRecordsFromConverted(m: Module, computeHash: string -> u64, accepts: Acceptance, fs: seq<Function>)
    ensures RecordsFrom(m, computeHash, Fold(m, computeHash, accepts, fs).records, fs)
  {
    if fs != [] {
      var init := fs[..|fs| - 1];
      FoldRecordsFromConverted(m, computeHash, accepts, init);
      var prev := Fold(m, computeHash, accepts, init).records;
      var records := Fold(m, computeHash, accepts, fs).records;
      forall k | 0 <= k < |records|
        ensures exists j :: 0 <= j < |fs| && Converts(fs[j]) && records[k] == MakeRecord(m, fs[j], computeHash)
      {
        if k < |prev| {
          assert records[k] == prev[k];
          var j :| 0 <= j < |init| && Converts(init[j]) && prev[k] == MakeRecord(m, init[j], computeHash);
          assert fs[j] == init[j];
        } else {
          assert Converts(fs[|fs| - 1]) && records[k] == MakeRecord(m, fs[|fs| - 1], computeHash);
        }
      }
    }
  }

  /** A writer that takes every record ends up holding exactly the records
      of the converted functions, in module order, and nothing is skipped
      but the zero entry frequencies. */
  lemma {:induction false} FoldAcceptingAll(m: Module, computeHash: string -> u64, accepts: Acceptance, fs: seq<Function>)
    requires forall rs, r :: accepts(rs, r)
    ensures Fold(m, computeHash, accepts, fs).records == ConvertedRecords(m, computeHash, fs)
    ensures Fold(m, computeHash, accepts, fs).skipped == NumZeroEntry(fs)
  {
    FoldCounters(m, computeHash, accepts, fs);
    if fs != [] {
      FoldAcceptingAll(m, computeHash, accepts, fs[..|fs| - 1]);
    }
  }

  /** Output is written exactly when the path is non-empty and some function
      converts. */
  lemma WrittenIff(profilePath: string, m: Module, computeHash: string -> u64, accepts: Acceptance)
    ensures RunSpec(profilePath, m, computeHash, accepts).written <==>
      profilePath != "" && NumConverted(m.functions) > 0
  {
    FoldCounters(m, computeHash, accepts, m.functions);
  }

  /** A module holding only declarations produces no record and no output. */
  lemma {:induction false} DeclarationsOnly(profilePath: string, m: Module, computeHash: string -> u64, accepts: Acceptance)
    requires forall k :: 0 <= k < |m.functions| ==> IsDeclaration(m.functions[k])
    ensures RunSpec(profilePath, m, computeHash, accepts) == PassOutcome(PassState(0, 0, []), false)
  {
    DeclarationsLeaveInitialState(m, computeHash, accepts, m.functions);
  }

  lemma {:induction false} DeclarationsLeaveInitialState(m: Module, computeHash: string -> u64, accepts: Acceptance, fs: seq<Function>)
    requires forall k :: 0 <= k < |fs| ==> IsDeclaration(fs[k])
    ensures Fold(m, computeHash, accepts, fs) == PassState(0, 0, [])
  {
    if fs != [] {
      DeclarationsLeaveInitialState(m, computeHash, accepts, fs[..|fs| - 1]);
    }
  }

  /** The pass (`StaticProfileExporterPass`), holding its output path. */
  class StaticProfileExporterPass {
    const profilePath: string

    constructor (path: string)
      ensures profilePath == path
    {
      profilePath := path;
    }

    /** Runs the pass over `m`. `computeHash` stands for the profile name
        hash and `accepts` for the writer's acceptance of a record. */
    method Run(m: Module, computeHash: string -> u64, accepts: Acceptance) returns (outcome: PassOutcome)
      ensures outcome == RunSpec(profilePath, m, computeHash, accepts)
    {
      if profilePath == "" {
        return PassOutcome(PassState(0, 0, []), false);
      }
      var writer := new ProfileWriter();
      var functionsProcessed: nat := 0;
      var functionsSkipped: nat := 0;
      var i := 0;
      while i < |m.functions|
        invariant i <= |m.functions|
        invariant PassState(functionsProcessed, functionsSkipped, writer.records)
          == Fold(m, computeHash, accepts, m.functions[..i])
        invariant !writer.written
      {
        var f := m.functions[i];
        assert m.functions[..i + 1][..i] == m.functions[..i];
        if IsDeclaration(f) {
          i := i + 1;
          continue;
        }
        var ok, counts := Counts.ConvertBFIToCounts(m, f);
        if !ok {
          functionsSkipped := functionsSkipped + 1;
          i := i + 1;
          continue;
        }
        var funcName := f.irPgoName;
        var funcHash := Metadata.ComputeFunctionHash(m, f, computeHash);
        var added := writer.AddRecord(ProfileRecord(funcName, funcHash, counts), accepts);
        if !added {
          functionsSkipped := functionsSkipped + 1;
        }
        functionsProcessed := functionsProcessed + 1;
        i := i + 1;
      }
      assert m.functions[..i] == m.functions;
      if functionsProcessed == 0 {
        return PassOutcome(PassState(functionsProcessed, functionsSkipped, writer.records), false);
      }
      writer.Write();
      outcome := PassOutcome(PassState(functionsProcessed, functionsSkipped, writer.records), writer.written);
    }
  }
}
