/** Metadata lookup: the coverage record `__covrec_<HASH>u`, the profile
    data record `__profd_<name>`, and the choice of the function hash. */
module Metadata {
  import opened Ir
  import HexFormat

  const COVREC_PREFIX: string := "__covrec_"
  const PROFD_PREFIX: string := "__profd_"

  /** Position of the structural hash in a coverage record. */
  const STRUCT_HASH_FIELD: nat := 2
  /** Position of the counter count in a profile data record. */
  const NUM_COUNTERS_FIELD: nat := 6

  /** Operand `index` of global `name`, when that global exists, its
      initializer is a constant struct with more than `index` operands and
      that operand is an integer constant. Anything else reads as absent. */
  function ReadIntField(m: Module, name: string, index: nat): (r: Option<u64>)
    ensures r.Some? <==>
      name in m.globals && m.globals[name].ConstantStruct?
      && index < |m.globals[name].operands|
      && m.globals[name].operands[index].IntConstant?
    ensures r.Some? ==> r.value == m.globals[name].operands[index].value
  {
    if name in m.globals then
      match m.globals[name]
      case ConstantStruct(ops) =>
        if index < |ops| then
          match ops[index]
          case IntConstant(v) => Some(v)
          case OtherConstant => None
        else None
      case OtherInitializer => None
    else None
  }

  /** `"__covrec_"`, the name hash as 16 upper-case hex digits, then `"u"`. */
  function CoverageRecordName(nameHash: u64): (name: string)
    ensures |name| == 26
    ensures name[..9] == COVREC_PREFIX && name[9..25] == HexFormat.Hex16Upper(nameHash) && name[25] == 'u'
  {
    COVREC_PREFIX + HexFormat.Hex16Upper(nameHash) + "u"
  }

  /** Distinct name hashes look up distinct coverage records. */
  lemma CoverageRecordNameInjective(h1: u64, h2: u64)
    requires CoverageRecordName(h1) == CoverageRecordName(h2)
    ensures h1 == h2
  {
    HexFormat.Hex16UpperRoundTrip(h1);
    HexFormat.Hex16UpperRoundTrip(h2);
    assert HexFormat.Hex16Upper(h1) == CoverageRecordName(h1)[9..25] == HexFormat.Hex16Upper(h2);
  }

  /** `"__profd_"` followed by the function's PGO name. */
  function ProfileDataName(f: Function): (name: string)
    ensures |name| == 8 + |f.pgoName|
    ensures name[..8] == PROFD_PREFIX && name[8..] == f.pgoName
  {
    PROFD_PREFIX + f.pgoName
  }

  /** The structural hash stored in the function's coverage record, if any.
      `computeHash` stands for `IndexedInstrProf::ComputeHash`. */
  function TryExtractCoverageHash(m: Module, f: Function, computeHash: string -> u64): (r: Option<u64>)
    ensures var key := CoverageRecordName(computeHash(f.pgoName));
      r.Some? <==>
        key in m.globals && m.globals[key].ConstantStruct?
        && |m.globals[key].operands| >= 3
        && m.globals[key].operands[2].IntConstant?
    ensures r.Some? ==> r.value == m.globals[CoverageRecordName(computeHash(f.pgoName))].operands[2].value
  {
    ReadIntField(m, CoverageRecordName(computeHash(f.pgoName)), STRUCT_HASH_FIELD)
  }

  /** The counter count stored in the function's profile data record, if any,
      truncated to `unsigned` as the 32-bit conversion does. */
  function TryExtractCounterCount(m: Module, f: Function): (r: Option<u32>)
    ensures var key := ProfileDataName(f);
      r.Some? <==>
        key in m.globals && m.globals[key].ConstantStruct?
        && |m.globals[key].operands| > 6
        && m.globals[key].operands[6].IntConstant?
    ensures r.Some? ==> r.value == m.globals[ProfileDataName(f)].operands[6].value % TWO_POW_32
  {
    match ReadIntField(m, ProfileDataName(f), NUM_COUNTERS_FIELD)
    case Some(v) => Some(v % TWO_POW_32)
    case None => None
  }

  /** The hash keying the function's profile record: the coverage structural
      hash when there is one, otherwise the hash of the PGO name. */
  function ComputeFunctionHash(m: Module, f: Function, computeHash: string -> u64): (h: u64)
    ensures TryExtractCoverageHash(m, f, computeHash).Some? ==> h == TryExtractCoverageHash(m, f, computeHash).value
    ensures TryExtractCoverageHash(m, f, computeHash).None? ==> h == computeHash(f.pgoName)
  {
    match TryExtractCoverageHash(m, f, computeHash)
    case Some(structHash) => structHash
    case None => computeHash(f.pgoName)
  }
}
