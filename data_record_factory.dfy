/**
 * `DataRecordFactory.newRecord`: which of the eight record classes a map entry's value is
 * stored in. The choice depends on whether deserialized values are cached, on statistics (or a
 * 4.1 cluster), on whether an evictor is configured and on the eviction policy. The value is
 * converted once with the serialization service and the same converted value goes into every
 * kind of record.
 */
module DataRecordFactory {

  datatype CacheDeserializedValues = NEVER | INDEX_ONLY | ALWAYS

  datatype EvictionPolicy = LRU | LFU | NONE | RANDOM

  /** An evictor; `NullEvictor` is the `NULL_EVICTOR` a map without eviction has. */
  datatype Evictor = NullEvictor | ConfiguredEvictor(id: nat)

  datatype MapConfig = MapConfig(
    statisticsEnabled: bool,
    cacheDeserializedValues: CacheDeserializedValues,
    evictionPolicy: EvictionPolicy)

  datatype MapContainer = MapContainer(mapConfig: MapConfig, evictor: Evictor)

  datatype RecordKind =
    | CachedDataRecordWithStats
    | CachedSimpleRecordWithLRUEviction
    | CachedSimpleRecordWithLFUEviction
    | CachedSimpleRecord
    | DataRecordWithStats
    | SimpleRecordWithLRUEviction
    | SimpleRecordWithLFUEviction
    | SimpleRecord

  /** A new record: its class and the serialized value it holds. */
  datatype Record<D> = Record(kind: RecordKind, valueData: D)

  // A reference description of the eight classes: a family (caching deserialized values or
  // not) times a variant (statistics, LRU eviction, LFU eviction, or none of these).

  datatype Family = Cached | NotCached

  datatype Variant = WithStats | WithLRUEviction | WithLFUEviction | Plain

  function FamilyOf(k: RecordKind): Family
  {
    match k
    case CachedDataRecordWithStats | CachedSimpleRecordWithLRUEviction
       | CachedSimpleRecordWithLFUEviction | CachedSimpleRecord => Cached
    case _ => NotCached
  }

  function VariantOf(k: RecordKind): Variant
  {
    match k
    case CachedDataRecordWithStats | DataRecordWithStats => WithStats
    case CachedSimpleRecordWithLRUEviction | SimpleRecordWithLRUEviction => WithLRUEviction
    case CachedSimpleRecordWithLFUEviction | SimpleRecordWithLFUEviction => WithLFUEviction
    case CachedSimpleRecord | SimpleRecord => Plain
  }

  /** The family and the variant together name exactly one record class. */
  lemma FamilyAndVariantIdentifyKind(a: RecordKind, b: RecordKind)
    ensures a == b <==> FamilyOf(a) == FamilyOf(b) && VariantOf(a) == VariantOf(b)
  {
  }

  /** The variant both builders choose, from statistics, eviction presence and the policy. */
  function ChosenVariant(withStats: bool, hasEviction: bool, policy: EvictionPolicy): Variant
  {
    if withStats then WithStats
    else if hasEviction && policy == LRU then WithLRUEviction
    else if hasEviction && policy == LFU then WithLFUEviction
    else Plain
  }

  /** `newCachedSimpleRecord`; `clusterV41` is the answer of `isClusterV41()`. */
  function NewCachedSimpleRecord<D>(valueData: D, mapConfig: MapConfig, statisticsEnabled: bool,
                                    hasEviction: bool, clusterV41: bool): (r: Record<D>)
    ensures r.valueData == valueData && FamilyOf(r.kind) == Cached
    ensures VariantOf(r.kind) == ChosenVariant(statisticsEnabled || clusterV41, hasEviction, mapConfig.evictionPolicy)
  {
    if statisticsEnabled || clusterV41 then Record(CachedDataRecordWithStats, valueData)
    else if hasEviction && mapConfig.evictionPolicy == LRU then Record(CachedSimpleRecordWithLRUEviction, valueData)
    else if hasEviction && mapConfig.evictionPolicy == LFU then Record(CachedSimpleRecordWithLFUEviction, valueData)
    else Record(CachedSimpleRecord, valueData)
  }

  /** `newSimpleRecord`; `clusterV41` is the answer of `isClusterV41()`. */
  function NewSimpleRecord<D>(valueData: D, mapConfig: MapConfig, statisticsEnabled: bool,
                              hasEviction: bool, clusterV41: bool): (r: Record<D>)
    ensures r.valueData == valueData && FamilyOf(r.kind) == NotCached
    ensures VariantOf(r.kind) == ChosenVariant(statisticsEnabled || clusterV41, hasEviction, mapConfig.evictionPolicy)
  {
    if statisticsEnabled || clusterV41 then Record(DataRecordWithStats, valueData)
    else if hasEviction && mapConfig.evictionPolicy == LRU then Record(SimpleRecordWithLRUEviction, valueData)
    else if hasEviction && mapConfig.evictionPolicy == LFU then Record(SimpleRecordWithLFUEviction, valueData)
    else Record(SimpleRecord, valueData)
  }

  /**
   * `newRecord(value)`: `toData` is the serialization service's `toData`, `clusterV41` the
   * answer of `isClusterV41()`.
   */
  function NewRecord<V, D>(mapContainer: MapContainer, clusterV41: bool, toData: V -> D, value: V): (r: Record<D>)
    ensures r.valueData == toData(value)
    ensures FamilyOf(r.kind) == NotCached <==> mapContainer.mapConfig.cacheDeserializedValues == NEVER
    ensures var withStats := mapContainer.mapConfig.statisticsEnabled || clusterV41;
            var hasEviction := mapContainer.evictor != NullEvictor;
            var policy := mapContainer.mapConfig.evictionPolicy;
            && (withStats ==> VariantOf(r.kind) == WithStats)
            && (!withStats && hasEviction && policy == LRU ==> VariantOf(r.kind) == WithLRUEviction)
            && (!withStats && hasEviction && policy == LFU ==> VariantOf(r.kind) == WithLFUEviction)
            && (!withStats && (!hasEviction || policy !in {LRU, LFU}) ==> VariantOf(r.kind) == Plain)
  {
    var mapConfig := mapContainer.mapConfig;
    var statisticsEnabled := mapConfig.statisticsEnabled;
    var hasEviction := mapContainer.evictor != NullEvictor;
    var valueData := toData(value);
    match mapConfig.cacheDeserializedValues
    case NEVER => NewSimpleRecord(valueData, mapConfig, statisticsEnabled, hasEviction, clusterV41)
    case _ => NewCachedSimpleRecord(valueData, mapConfig, statisticsEnabled, hasEviction, clusterV41)
  }

  /**
   * The two builders make the same choice of variant for the same inputs; they differ only in
   * the family, so switching the caching mode swaps a record class for its counterpart.
   */
  lemma BuildersAgreeOnVariant<D>(valueData: D, mapConfig: MapConfig, statisticsEnabled: bool,
                                  hasEviction: bool, clusterV41: bool)
    ensures var c := NewCachedSimpleRecord(valueData, mapConfig, statisticsEnabled, hasEviction, clusterV41);
            var s := NewSimpleRecord(valueData, mapConfig, statisticsEnabled, hasEviction, clusterV41);
            && VariantOf(c.kind) == VariantOf(s.kind)
            && FamilyOf(c.kind) != FamilyOf(s.kind)
            && c.valueData == s.valueData
  {
  }

  /**
   * The eviction policy matters only when statistics are off (and the cluster is not 4.1) and
   * an evictor is present.
   */
  lemma PolicyIrrelevantWithoutEviction<V, D>(c: MapContainer, clusterV41: bool, toData: V -> D, value: V, p: EvictionPolicy)
    requires c.mapConfig.statisticsEnabled || clusterV41 || c.evictor == NullEvictor
    ensures NewRecord(c, clusterV41, toData, value)
         == NewRecord(c.(mapConfig := c.mapConfig.(evictionPolicy := p)), clusterV41, toData, value)
  {
  }
}
