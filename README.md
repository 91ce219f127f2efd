# cache-size: cache parameter selection, modelled in Dafny

This project models the `cache-size` crate. The crate reports the total size and the
line size of a processor cache, chosen by level (1, 2, 3, ...) and type (data,
instruction, unified). On x86 targets, the answer comes from the descriptors of CPUID
leaf 04H, "Deterministic Cache Parameters". That leaf is described in the Intel 64 and
IA-32 Architectures Software Developer's Manual, Vol. 2A, under the CPUID instruction.
The `raw_cpuid` crate issues the instruction and decodes each sub-leaf into a
`CacheParameter`. On other targets, a fallback answers "no value" to every query.

The model has one module per source file, plus the types they share:

- `Prelude`: `Option` and the `Byte` (u8) level type.
- `CacheTypes`: the crate's `CacheType` (`Null | Data | Instruction | Unified | Reserved`).
- `RawCpuid`: `raw_cpuid`'s own `CacheType` and the decoded descriptor `CacheParameter`
  (level, type, sets, ways of associativity, coherency line size).
- `X86` (src/x86.rs): the conversion between the two cache types, the
  `filter(..).map(..).min()` chain as `Filter`, `MapMeasure` and `Min`, the two queries,
  and the six fixed-argument bindings. The descriptor enumeration is the parameter
  `params`. It is `None` when `get_cache_parameters()` fails.
- `Blanket` (src/blanket.rs): the fallback, in which every query is `None`.
- `Lib` (src/lib.rs): the compile-time choice between the two, written as a
  `TargetArch` parameter.

The queries are specified by one predicate, `X86.Resolves`. Its answer is no value when
the enumeration is unavailable. It is also no value when no descriptor has exactly the
requested level and raw type. Otherwise the answer is the least quantity among the
matching descriptors, and some matching descriptor attains it. That quantity is either
`sets * associativity * coherency_line_size` or the line size.

Leaf 04H also reports a physical line partition count. src/x86.rs:30 does not multiply
by it, and neither does `X86.Measure`; the partition count is not a field of the
modelled descriptor.

In src/blanket.rs, `l1_cache_size` returns `None` directly. The other five bindings call
the fallback `cache_size` or `cache_line_size`. The model keeps that difference.

## Model

| member | source | states |
|---|---|---|
| `X86.Into` | src/x86.rs:4-14 | each cache type converts to the like-named raw type; reading the result back returns the argument |
| `X86.IntoInjective` | src/x86.rs:4-14 | distinct cache types convert to distinct raw types |
| `X86.IntoOnto` | src/x86.rs:4-14 | every raw cache type is the conversion of some cache type |
| `X86.Filter` | src/x86.rs:29 | a descriptor survives the filter iff it is in the enumeration and its level and raw type both equal the request |
| `X86.MapMeasure` | src/x86.rs:30 | one value per descriptor, in order: the i-th value is the quantity of the i-th descriptor; so the mapped values are exactly the quantities of the descriptors mapped |
| `X86.Min` | src/x86.rs:31 | no value iff the sequence is empty; otherwise an element of it that is at most every element |
| `X86.Smallest` | src/x86.rs:27-32 | the filter-map-min chain meets `Resolves`: no value iff the enumeration is missing or nothing matches; otherwise the least quantity of the matching descriptors, attained by one of them |
| `X86.CacheSize` | src/x86.rs:16-33 | `Resolves` for the total size `sets * associativity * line size`: no value when parameters are unsupported or the level/type does not exist; otherwise the size of the smallest matching cache |
| `X86.CacheLineSize` | src/x86.rs:35-52 | `Resolves` for the coherency line size: no value in the same two cases; otherwise the least line size among matching caches, attained by one of them |
| `X86.L1CacheSize` | src/x86.rs:54-65 | the answer of `cache_size` for level 1, Data |
| `X86.L1CacheLineSize` | src/x86.rs:67-78 | the answer of `cache_line_size` for level 1, Data |
| `X86.L2CacheSize` | src/x86.rs:80-91 | the answer of `cache_size` for level 2, Unified |
| `X86.L2CacheLineSize` | src/x86.rs:93-104 | the answer of `cache_line_size` for level 2, Unified |
| `X86.L3CacheSize` | src/x86.rs:106-117 | the answer of `cache_size` for level 3, Unified |
| `X86.L3CacheLineSize` | src/x86.rs:119-130 | the answer of `cache_line_size` for level 3, Unified |
| `X86.ResolvesUnique` | src/x86.rs:22-23 | the specification admits at most one answer, so equal enumerations give equal results |
| `X86.SameMatchesSameAnswers` | src/x86.rs:29-31 | two enumerations with the same matching descriptors give the same size and line size, whatever their order, repetitions or other descriptors |
| `X86.UnmatchedDescriptorsIrrelevant` | src/x86.rs:29-30 | inserting descriptors of another level or type anywhere in the enumeration changes neither answer |
| `X86.SizeIffLineSize` | src/x86.rs:25-52 | a size is reported exactly when a line size is |
| `X86.SizeAtLeastLineSize` | src/x86.rs:25-52 | if every matching descriptor has `sets * associativity >= 1`, a reported size is at least the reported line size |
| `X86.NoExactTypeNoAnswer` | src/x86.rs:29 | type matching is exact: with no descriptor of the requested raw type at the requested level, both queries give no value |
| `X86.UnifiedL1HasNoL1Data` | src/x86.rs:54-78 | with only unified level-1 caches, the L1 data size and line size are no value |
| `X86.SmallestL2Wins` | src/x86.rs:86-91 | with unified L2 descriptors of 64x8x64 and 32x4x64 bytes, `l2_cache_size` is 8192, the smaller one |
| `Blanket.CacheSize` | src/blanket.rs:1-4 | no value for every level and type |
| `Blanket.CacheLineSize` | src/blanket.rs:6-9 | no value for every level and type |
| `Blanket.L1CacheSize` | src/blanket.rs:11-14 | no value |
| `Blanket.L1CacheLineSize` | src/blanket.rs:16-19 | no value, through the fallback `cache_line_size(1, Data)` |
| `Blanket.L2CacheSize` | src/blanket.rs:21-24 | no value, through the fallback `cache_size(2, Unified)` |
| `Blanket.L2CacheLineSize` | src/blanket.rs:26-29 | no value, through the fallback `cache_line_size(2, Unified)` |
| `Blanket.L3CacheSize` | src/blanket.rs:31-34 | no value, through the fallback `cache_size(3, Unified)` |
| `Blanket.L3CacheLineSize` | src/blanket.rs:36-47 | no value, through the fallback `cache_line_size(3, Unified)`, as the module's test asserts |
| `Lib.CacheSize` | src/lib.rs:10-17 | on x86 and x86_64 the x86 answer for the enumeration; on any other target, the answer for an unavailable enumeration (no value) |
| `Lib.CacheLineSize` | src/lib.rs:10-17 | the same choice for the line size |
| `Lib.FallbackBindingsMatchUnavailableLeaf` | src/blanket.rs:11-39 | each fallback binding equals its x86 counterpart on a processor without the cache-parameter leaf |

## Left out

- Issuing CPUID and decoding its registers (`CpuId::new()`, `get_cache_parameters()`,
  src/x86.rs:26-28 and 45-47) happen in the `raw_cpuid` crate, which is not part of this
  model. The decoded descriptor list is an input, and `None` stands for a processor
  without the leaf.
- X86.CacheSize: the product `sets * associativity * coherency_line_size` is computed
  over unbounded naturals. A `usize` overflow, which would panic in a debug build and wrap
  in a release build, is not modelled.
- Lib.CacheSize: the architecture is chosen at compile time in the crate. Here it is a
  parameter. The six bindings are re-exported unchanged from the chosen module and are
  modelled in `X86` and `Blanket`, not again in `Lib`.
- X86.Min: `Iterator::min` returns the first of several equal minima. Only the value is
  returned, so which one it picks cannot be observed.
- The descriptor list is unconstrained: the model admits descriptors with zero sets, ways
  or line size and descriptors typed `Null` or `Reserved`, because nothing in the crate
  checks what `raw_cpuid` decodes. A one-descriptor list with zero sets gives a size of
  `Some(0)`. This is why `X86.SizeAtLeastLineSize` needs its `sets * associativity >= 1`
  hypothesis.
- The empty test module of src/x86.rs:132-137 has nothing to model. src/blanket.rs does
  not import `CacheType` and declares its test without `fn`. The model describes the
  intended behaviour, not those compile errors.
