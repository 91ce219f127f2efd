/** The fallback implementation for targets without CPUID: nothing can be learnt about
    the caches, so every query answers "no value". */
module Blanket {
  import opened Prelude
  import opened CacheTypes

  /** `cache_size`: no value for any level and type. */
  function CacheSize(level: Byte, ct: CacheType): (r: Option<nat>)
    ensures r == None
  {
    None
  }

  /** `cache_line_size`: no value for any level and type. */
  function CacheLineSize(level: Byte, ct: CacheType): (r: Option<nat>)
    ensures r == None
  {
    None
  }

  /** `l1_cache_size`: a constant, not a call to `CacheSize`. */
  function L1CacheSize(): (r: Option<nat>)
    ensures r == None
  {
    None
  }

  /** `l1_cache_line_size`: the fallback query for level 1, data. */
  function L1CacheLineSize(): (r: Option<nat>)
    ensures r == None
  {
    CacheLineSize(1, Data)
  }

  /** `l2_cache_size`: the fallback query for level 2, unified. */
  function L2CacheSize(): (r: Option<nat>)
    ensures r == None
  {
    CacheSize(2, Unified)
  }

  /** `l2_cache_line_size`: the fallback query for level 2, unified. */
  function L2CacheLineSize(): (r: Option<nat>)
    ensures r == None
  {
    CacheLineSize(2, Unified)
  }

  /** `l3_cache_size`: the fallback query for level 3, unified. */
  function L3CacheSize(): (r: Option<nat>)
    ensures r == None
  {
    CacheSize(3, Unified)
  }

  /** `l3_cache_line_size`: the fallback query for level 3, unified. */
  function L3CacheLineSize(): (r: Option<nat>)
    ensures r == None
  {
    CacheLineSize(3, Unified)
  }
}
