/** The crate's public cache type, the `CacheType` that callers pass to every query. */
module CacheTypes {

  /** One variant per value of the "cache type" field of CPUID leaf 04H; `Null` and
      `Reserved` only mirror that encoding and never name a real cache. */
  datatype CacheType = Null | Data | Instruction | Unified | Reserved
}
