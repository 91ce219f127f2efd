/** The x86 implementation: cache sizes and line sizes chosen from the descriptors of
    CPUID leaf 04H. Every query is one iterator chain
    `get_cache_parameters()?.filter(..).map(..).min()?`; here the enumeration is the
    parameter `params`, `None` when the processor offers no cache-parameter leaf. */
module X86 {
  import opened Prelude
  import opened CacheTypes
  import Raw = RawCpuid

  /** The descriptor enumeration, or `None` when `get_cache_parameters()` fails. */
  type Params = Option<seq<Raw.CacheParameter>>

  // ---------------------------------------------------------------------------
  // The `From<CacheType>` conversion
  // ---------------------------------------------------------------------------

  /** Reads a raw cache type as the crate's, the like-named variant. */
  function FromRaw(raw: Raw.CacheType): CacheType
  {
    match raw
    case Null => Null
    case Data => Data
    case Instruction => Instruction
    case Unified => Unified
    case Reserved => Reserved
  }

  /** `From<CacheType> for raw_cpuid::CacheType`: each variant becomes the like-named
      raw variant, so reading the result back gives the argument. */
  function Into(ct: CacheType): (r: Raw.CacheType)
    ensures FromRaw(r) == ct
  {
    match ct
    case Null => Raw.CacheType.Null
    case Data => Raw.CacheType.Data
    case Instruction => Raw.CacheType.Instruction
    case Unified => Raw.CacheType.Unified
    case Reserved => Raw.CacheType.Reserved
  }

  /** Distinct cache types convert to distinct raw types. */
  lemma IntoInjective(a: CacheType, b: CacheType)
    ensures Into(a) == Into(b) ==> a == b
  {
  }

  /** Every raw cache type is the conversion of some cache type. */
  lemma IntoOnto(raw: Raw.CacheType)
    ensures Into(FromRaw(raw)) == raw
  {
  }

  // ---------------------------------------------------------------------------
  // What a query should answer
  // ---------------------------------------------------------------------------

  /** The two quantities the queries report about a descriptor. */
  datatype Quantity = Size | LineSize

  /** A descriptor's total size, `sets * associativity * coherency_line_size` in that
      order, or its coherency line size. */
  function Measure(q: Quantity, c: Raw.CacheParameter): nat
  {
    match q
    case Size => c.sets * c.associativity * c.coherencyLineSize
    case LineSize => c.coherencyLineSize
  }

  /** The filter of both queries: level and raw type must both equal the request. */
  predicate Matches(c: Raw.CacheParameter, level: Byte, ct: CacheType)
  {
    c.level == level && c.cacheType == Into(ct)
  }

  ghost predicate AnyMatch(caches: seq<Raw.CacheParameter>, level: Byte, ct: CacheType)
  {
    exists c :: c in caches && Matches(c, level, ct)
  }

  /** `v` is the quantity `q` of some matching descriptor and no matching descriptor has
      a smaller one. */
  ghost predicate IsLeast(caches: seq<Raw.CacheParameter>, level: Byte, ct: CacheType, q: Quantity, v: nat)
  {
    (exists c :: c in caches && Matches(c, level, ct) && Measure(q, c) == v) &&
    (forall c :: c in caches && Matches(c, level, ct) ==> v <= Measure(q, c))
  }

  /** The answer a query promises: no value when the enumeration is unavailable or no
      descriptor matches, otherwise the least quantity among the matching descriptors. */
  ghost predicate Resolves(params: Params, level: Byte, ct: CacheType, q: Quantity, r: Option<nat>)
  {
    match params
    case None => r == None
    case Some(caches) =>
      if AnyMatch(caches, level, ct) then r.Some? && IsLeast(caches, level, ct, q, r.value)
      else r == None
  }

  /** A query has at most one correct answer. */
  lemma ResolvesUnique(params: Params, level: Byte, ct: CacheType, q: Quantity, r1: Option<nat>, r2: Option<nat>)
    requires Resolves(params, level, ct, q, r1) && Resolves(params, level, ct, q, r2)
    ensures r1 == r2
  {
  }

  // ---------------------------------------------------------------------------
  // The iterator chain
  // ---------------------------------------------------------------------------

  /** `filter(..)`: the matching descriptors. */
  function Filter(caches: seq<Raw.CacheParameter>, level: Byte, ct: CacheType): (r: seq<Raw.CacheParameter>)
    ensures forall c :: c in r <==> c in caches && Matches(c, level, ct)
  {
    if caches == [] then []
    else if Matches(caches[0], level, ct) then [caches[0]] + Filter(caches[1..], level, ct)
    else Filter(caches[1..], level, ct)
  }

  /** `map(..)`: the quantity `q` of each descriptor, in order. */
  function MapMeasure(q: Quantity, cs: seq<Raw.CacheParameter>): (r: seq<nat>)
    ensures |r| == |cs| && forall i :: 0 <= i < |cs| ==> r[i] == Measure(q, cs[i])
    ensures forall x :: x in r <==> exists c :: c in cs && Measure(q, c) == x
  {
    if cs == [] then []
    else
      var rest := MapMeasure(q, cs[1..]);
      assert forall c :: c in cs <==> c == cs[0] || c in cs[1..];
      [Measure(q, cs[0])] + rest
  }

  /** `min()`: no value for an empty sequence, otherwise its least element. */
  function Min(xs: seq<nat>): (r: Option<nat>)
    ensures r.None? <==> xs == []
    ensures r.Some? ==> r.value in xs && forall x :: x in xs ==> r.value <= x
  {
    if xs == [] then None
    else
      assert forall x :: x in xs <==> x == xs[0] || x in xs[1..];
      match Min(xs[1..])
      case None => Some(xs[0])
      case Some(m) => Some(if xs[0] <= m then xs[0] else m)
  }

  /** The least quantity `q` among the descriptors matching `level` and `ct`. */
  function Smallest(params: Params, level: Byte, ct: CacheType, q: Quantity): (r: Option<nat>)
    ensures Resolves(params, level, ct, q, r)
  {
    match params
    case None => None
    case Some(caches) =>
      var matching := Filter(caches, level, ct);
      var values := MapMeasure(q, matching);
      var r := Min(values);
      assert r.Some? ==> IsLeast(caches, level, ct, q, r.value) by {
        if r.Some? {
          forall c | c in caches && Matches(c, level, ct)
            ensures r.value <= Measure(q, c)
          {
            assert c in matching;
            assert Measure(q, c) in values;
          }
        }
      }
      r
  }

  // ---------------------------------------------------------------------------
  // The public queries
  // ---------------------------------------------------------------------------

  /** `cache_size`: the total size in bytes of the smallest cache of this level and type. */
  function CacheSize(params: Params, level: Byte, ct: CacheType): (r: Option<nat>)
    ensures Resolves(params, level, ct, Size, r)
  {
    Smallest(params, level, ct, Size)
  }

  /** `cache_line_size`: the smallest line size in bytes among caches of this level and type. */
  function CacheLineSize(params: Params, level: Byte, ct: CacheType): (r: Option<nat>)
    ensures Resolves(params, level, ct, LineSize, r)
  {
    Smallest(params, level, ct, LineSize)
  }

  /** `l1_cache_size`: the L1 data cache. */
  function L1CacheSize(params: Params): (r: Option<nat>)
    ensures Resolves(params, 1, Data, Size, r)
  {
    CacheSize(params, 1, Data)
  }

  /** `l1_cache_line_size`: the L1 data cache. */
  function L1CacheLineSize(params: Params): (r: Option<nat>)
    ensures Resolves(params, 1, Data, LineSize, r)
  {
    CacheLineSize(params, 1, Data)
  }

  /** `l2_cache_size`: the unified L2 cache. */
  function L2CacheSize(params: Params): (r: Option<nat>)
    ensures Resolves(params, 2, Unified, Size, r)
  {
    CacheSize(params, 2, Unified)
  }

  /** `l2_cache_line_size`: the unified L2 cache. */
  function L2CacheLineSize(params: Params): (r: Option<nat>)
    ensures Resolves(params, 2, Unified, LineSize, r)
  {
    CacheLineSize(params, 2, Unified)
  }

  /** `l3_cache_size`: the unified L3 cache. */
  function L3CacheSize(params: Params): (r: Option<nat>)
    ensures Resolves(params, 3, Unified, Size, r)
  {
    CacheSize(params, 3, Unified)
  }

  /** `l3_cache_line_size`: the unified L3 cache. */
  function L3CacheLineSize(params: Params): (r: Option<nat>)
    ensures Resolves(params, 3, Unified, LineSize, r)
  {
    CacheLineSize(params, 3, Unified)
  }

  // ---------------------------------------------------------------------------
  // Properties
  // ---------------------------------------------------------------------------

  /** The answers depend only on which descriptors match: neither their order, nor
      repetitions, nor any descriptor of another level or type changes them. */
  lemma SameMatchesSameAnswers(a: seq<Raw.CacheParameter>, b: seq<Raw.CacheParameter>, level: Byte, ct: CacheType)
    requires forall c :: Matches(c, level, ct) ==> (c in a <==> c in b)
    ensures CacheSize(Some(a), level, ct) == CacheSize(Some(b), level, ct)
    ensures CacheLineSize(Some(a), level, ct) == CacheLineSize(Some(b), level, ct)
  {
    SameMatchesSameSmallest(a, b, level, ct, Size);
    SameMatchesSameSmallest(a, b, level, ct, LineSize);
  }

  /** `SameMatchesSameAnswers` for one quantity. */
  lemma SameMatchesSameSmallest(a: seq<Raw.CacheParameter>, b: seq<Raw.CacheParameter>, level: Byte, ct: CacheType, q: Quantity)
    requires forall c :: Matches(c, level, ct) ==> (c in a <==> c in b)
    ensures Smallest(Some(a), level, ct, q) == Smallest(Some(b), level, ct, q)
  {
    var r := Smallest(Some(a), level, ct, q);
    assert r.Some? ==> IsLeast(b, level, ct, q, r.value) by {
      if r.Some? {
        var c :| c in a && Matches(c, level, ct) && Measure(q, c) == r.value;
        assert c in b;
      }
    }
    assert AnyMatch(a, level, ct) <==> AnyMatch(b, level, ct);
    ResolvesUnique(Some(b), level, ct, q, r, Smallest(Some(b), level, ct, q));
  }

  /** Adding descriptors of another level or type anywhere in the enumeration leaves both
      answers unchanged. */
  lemma UnmatchedDescriptorsIrrelevant(front: seq<Raw.CacheParameter>, extra: seq<Raw.CacheParameter>, back: seq<Raw.CacheParameter>, level: Byte, ct: CacheType)
    requires forall c :: c in extra ==> !Matches(c, level, ct)
    ensures CacheSize(Some(front + extra + back), level, ct) == CacheSize(Some(front + back), level, ct)
    ensures CacheLineSize(Some(front + extra + back), level, ct) == CacheLineSize(Some(front + back), level, ct)
  {
    SameMatchesSameAnswers(front + extra + back, front + back, level, ct);
  }

  /** A size is reported exactly when a line size is. */
  lemma SizeIffLineSize(params: Params, level: Byte, ct: CacheType)
    ensures CacheSize(params, level, ct).Some? <==> CacheLineSize(params, level, ct).Some?
  {
  }

  /** When every matching descriptor has at least one set and one way, the reported size
      is never below the reported line size. */
  lemma SizeAtLeastLineSize(params: Params, level: Byte, ct: CacheType)
    requires params.Some? ==>
      forall c :: c in params.value && Matches(c, level, ct) ==> c.sets * c.associativity >= 1
    ensures CacheSize(params, level, ct).Some? ==>
      CacheLineSize(params, level, ct).Some? &&
      CacheLineSize(params, level, ct).value <= CacheSize(params, level, ct).value
  {
    var size := CacheSize(params, level, ct);
    if size.Some? {
      var c :| c in params.value && Matches(c, level, ct) && Measure(Size, c) == size.value;
      MulAtLeast(c.sets * c.associativity, c.coherencyLineSize);
    }
  }

  /** A product with a positive factor is at least the other factor. */
  lemma MulAtLeast(k: nat, n: nat)
    requires k >= 1
    ensures k * n >= n
  {
  }

  /** Type matching is exact: with no descriptor of the requested raw type at the requested
      level (a unified cache where a data cache is asked for, say) there is no answer. */
  lemma NoExactTypeNoAnswer(params: Params, level: Byte, ct: CacheType)
    requires params.Some? ==>
      forall c :: c in params.value && c.level == level ==> c.cacheType != Into(ct)
    ensures CacheSize(params, level, ct) == None
    ensures CacheLineSize(params, level, ct) == None
  {
  }

  /** A processor whose only level-1 caches are unified has no L1 data cache. */
  lemma UnifiedL1HasNoL1Data(caches: seq<Raw.CacheParameter>)
    requires forall c :: c in caches && c.level == 1 ==> c.cacheType == Raw.CacheType.Unified
    ensures L1CacheSize(Some(caches)) == None
    ensures L1CacheLineSize(Some(caches)) == None
  {
  }

  /** Two unified L2 descriptors, of 64 sets by 8 ways and 32 sets by 4 ways with 64-byte
      lines: the smaller, 8192 bytes, is reported. */
  lemma SmallestL2Wins()
    ensures L2CacheSize(Some([
      Raw.CacheParameter(2, Raw.CacheType.Unified, 64, 8, 64),
      Raw.CacheParameter(2, Raw.CacheType.Unified, 32, 4, 64)])) == Some(8192)
  {
  }
}
