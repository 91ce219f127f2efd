/** What the `raw_cpuid` crate hands to the x86 implementation: its own cache type and the
    decoded cache descriptors of CPUID leaf 04H ("Deterministic Cache Parameters",
    Intel 64 and IA-32 Architectures Software Developer's Manual, Vol. 2A, CPUID).
    Issuing the instruction and decoding the registers is not part of this model; a
    descriptor list is an input of the queries instead. */
module RawCpuid {
  import opened Prelude

  /** `raw_cpuid::CacheType`, the decoded "cache type" field. */
  datatype CacheType = Null | Data | Instruction | Unified | Reserved

  /** One `raw_cpuid::CacheParameter`: the fields of one leaf 04H sub-leaf that the
      queries read, already decoded to byte and way counts. The partition count that the
      leaf also reports is not read by the queries and is not carried here. */
  datatype CacheParameter = CacheParameter(
    level: Byte,
    cacheType: CacheType,
    sets: nat,
    associativity: nat,
    coherencyLineSize: nat)
}
