/** The crate root: the target architecture decides at compile time which implementation
    the public queries are. Here the choice is a parameter. */
module Lib {
  import opened Prelude
  import opened CacheTypes
  import X86
  import Blanket

  /** `target_arch = "x86"`, `target_arch = "x86_64"`, or any other target. */
  datatype TargetArch = X86_32 | X86_64 | Other

  predicate HasCpuid(arch: TargetArch)
  {
    arch == X86_32 || arch == X86_64
  }

  /** The public `cache_size`. On x86 targets it answers from the enumeration `params`;
      elsewhere it answers as the x86 query does when the enumeration is unavailable. */
  function CacheSize(arch: TargetArch, params: X86.Params, level: Byte, ct: CacheType): (r: Option<nat>)
    ensures X86.Resolves(if HasCpuid(arch) then params else None, level, ct, X86.Size, r)
  {
    if HasCpuid(arch) then X86.CacheSize(params, level, ct) else Blanket.CacheSize(level, ct)
  }

  /** The public `cache_line_size`, chosen in the same way. */
  function CacheLineSize(arch: TargetArch, params: X86.Params, level: Byte, ct: CacheType): (r: Option<nat>)
    ensures X86.Resolves(if HasCpuid(arch) then params else None, level, ct, X86.LineSize, r)
  {
    if HasCpuid(arch) then X86.CacheLineSize(params, level, ct) else Blanket.CacheLineSize(level, ct)
  }

  /** Every fallback binding answers as its x86 counterpart does on a processor without
      the cache-parameter leaf. */
  lemma FallbackBindingsMatchUnavailableLeaf()
    ensures Blanket.L1CacheSize() == X86.L1CacheSize(None)
    ensures Blanket.L1CacheLineSize() == X86.L1CacheLineSize(None)
    ensures Blanket.L2CacheSize() == X86.L2CacheSize(None)
    ensures Blanket.L2CacheLineSize() == X86.L2CacheLineSize(None)
    ensures Blanket.L3CacheSize() == X86.L3CacheSize(None)
    ensures Blanket.L3CacheLineSize() == X86.L3CacheLineSize(None)
  {
  }
}
