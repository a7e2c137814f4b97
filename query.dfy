/**
 * `D3D10Query`: which backend objects a query type gets, its data size,
 * whether it takes a Begin, the revision it records, and how `GetData`
 * maps backend results to the D3D10 status and value.
 */
module Query {
  import opened Common

  // D3D10_QUERY values.
  const QueryEvent: nat := 0
  const QueryOcclusion: nat := 1
  const QueryTimestamp: nat := 2
  const QueryTimestampDisjoint: nat := 3
  const QueryPipelineStatistics: nat := 4
  const QueryOcclusionPredicate: nat := 5
  const QuerySoStatistics: nat := 6
  const QuerySoOverflowPredicate: nat := 7

  /** sizeof(BOOL), sizeof(UINT64) and the sizes of the D3D10 query data structures. */
  const SizeOfBool: nat := 4
  const SizeOfUint64: nat := 8
  const SizeOfTimestampDisjoint: nat := 16
  const SizeOfPipelineStatistics: nat := 64
  const SizeOfSoStatistics: nat := 16

  /** The frequency reported for TIMESTAMP_DISJOINT. */
  const DisjointFrequency: nat := 1000

  datatype VkQueryType = QueryTypeOcclusion | QueryTypeTimestamp | QueryTypePipelineStatistics

  /** A `DxvkQuery`: its type and whether occlusion counting is precise. */
  datatype BackendQuery = BackendQuery(queryType: VkQueryType, precise: bool)

  /** The backend objects a query owns: an event, a query, or neither. */
  datatype QueryObjects = QueryObjects(hasEvent: bool, query: Option<BackendQuery>)

  /**
   * The constructor's switch: EVENT gets only an event, the occlusion
   * types an occlusion query (precise for OCCLUSION), TIMESTAMP and
   * PIPELINE_STATISTICS their query, TIMESTAMP_DISJOINT nothing; any other
   * type throws (`None`).
   */
  function QueryObjectsFor(queryType: nat): (r: Option<QueryObjects>)
    ensures r.None? <==> queryType !in {QueryEvent, QueryOcclusion, QueryOcclusionPredicate, QueryTimestamp, QueryTimestampDisjoint, QueryPipelineStatistics}
    ensures r.Some? ==> (r.value.hasEvent <==> queryType == QueryEvent)
    ensures r.Some? ==> (r.value.hasEvent ==> r.value.query.None?)
    ensures r.Some? ==> (r.value.query.None? <==> queryType in {QueryEvent, QueryTimestampDisjoint})
    ensures r.Some? && r.value.query.Some? ==> (r.value.query.value.precise <==> queryType == QueryOcclusion)
  {
    if queryType == QueryEvent then Some(QueryObjects(true, None))
    else if queryType == QueryOcclusion then Some(QueryObjects(false, Some(BackendQuery(QueryTypeOcclusion, true))))
    else if queryType == QueryOcclusionPredicate then Some(QueryObjects(false, Some(BackendQuery(QueryTypeOcclusion, false))))
    else if queryType == QueryTimestamp then Some(QueryObjects(false, Some(BackendQuery(QueryTypeTimestamp, false))))
    else if queryType == QueryTimestampDisjoint then Some(QueryObjects(false, None))
    else if queryType == QueryPipelineStatistics then Some(QueryObjects(false, Some(BackendQuery(QueryTypePipelineStatistics, false))))
    else None
  }

  /** `GetDataSize`: BOOL-sized for the event and the two predicates, 0 for unknown types. */
  function GetDataSize(queryType: nat): (r: nat)
    ensures r == SizeOfBool <==> queryType in {QueryEvent, QueryOcclusionPredicate, QuerySoOverflowPredicate}
    ensures r == 0 <==> queryType > QuerySoOverflowPredicate
    ensures r == SizeOfUint64 <==> queryType in {QueryOcclusion, QueryTimestamp}
  {
    if queryType in {QueryEvent, QueryOcclusionPredicate, QuerySoOverflowPredicate} then SizeOfBool
    else if queryType in {QueryOcclusion, QueryTimestamp} then SizeOfUint64
    else if queryType == QueryTimestampDisjoint then SizeOfTimestampDisjoint
    else if queryType == QueryPipelineStatistics then SizeOfPipelineStatistics
    else if queryType == QuerySoStatistics then SizeOfSoStatistics
    else 0
  }

  /** `HasBeginEnabled`: the queries that count between Begin and End. */
  function HasBeginEnabled(queryType: nat): (r: bool)
    ensures r <==> queryType in {QueryOcclusion, QueryOcclusionPredicate, QueryPipelineStatistics}
  {
    queryType == QueryOcclusion || queryType == QueryOcclusionPredicate || queryType == QueryPipelineStatistics
  }

  /** Exactly the queries with a Begin own a backend query that is not a timestamp. */
  lemma BeginEnabledQueriesCount(queryType: nat)
    requires QueryObjectsFor(queryType).Some?
    ensures HasBeginEnabled(queryType) <==>
      (QueryObjectsFor(queryType).value.query.Some? && QueryObjectsFor(queryType).value.query.value.queryType != QueryTypeTimestamp)
  {
  }

  /** What a query reports. */
  datatype QueryValue =
    | BoolValue(b: bool)
    | Uint64Value(v: nat)
    | DisjointValue(frequency: nat, disjoint: bool)
    | StatisticsValue(counters: seq<nat>)

  /** The backend's `DxvkQueryData` fields `GetData` reads. */
  datatype QueryData = QueryData(samplesPassed: nat, time: nat, statistics: seq<nat>)

  /** The context calls `Begin`, `End` and `Signal` make. */
  datatype QueryCall =
    | BeginQuery(query: BackendQuery, revision: nat)
    | EndQuery(query: BackendQuery, revision: nat)
    | SignalEvent(revision: nat)
    | WriteTimestamp(query: BackendQuery, revision: nat)

  class D3D10Query {
    const queryType: nat
    const objects: QueryObjects
    var revision: nat

    constructor(queryType: nat)
      requires QueryObjectsFor(queryType).Some?
      ensures this.queryType == queryType && objects == QueryObjectsFor(queryType).value && revision == 0
    {
      this.queryType := queryType;
      objects := QueryObjectsFor(queryType).value;
      revision := 0;
    }

    /** `Reset`: the backend object's reset result, or 0 for a query that owns neither. */
    function Reset(queryReset: nat, eventReset: nat): (r: nat)
      ensures objects.query.Some? ==> r == queryReset
      ensures objects.query.None? && objects.hasEvent ==> r == eventReset
      ensures objects.query.None? && !objects.hasEvent ==> r == 0
    {
      if objects.query.Some? then queryReset else if objects.hasEvent then eventReset else 0
    }

    /** `Begin`: records the revision and begins the backend query, if there is one. */
    method Begin(rev: nat) returns (calls: seq<QueryCall>)
      modifies this`revision
      ensures revision == rev
      ensures calls == (if objects.query.Some? then [BeginQuery(objects.query.value, rev)] else [])
    {
      revision := rev;
      calls := [];
      if objects.query.Some? {
        calls := [BeginQuery(objects.query.value, rev)];
      }
    }

    /** `End`: ends the backend query under the revision `Begin` recorded. */
    method End() returns (calls: seq<QueryCall>)
      ensures calls == (if objects.query.Some? then [EndQuery(objects.query.value, revision)] else [])
    {
      calls := [];
      if objects.query.Some? {
        calls := [EndQuery(objects.query.value, revision)];
      }
    }

    /** `Signal`: EVENT signals its event, TIMESTAMP writes its timestamp, other types do nothing. */
    method Signal(rev: nat) returns (calls: seq<QueryCall>)
      requires queryType == QueryTimestamp ==> objects.query.Some?
      ensures queryType == QueryEvent ==> calls == [SignalEvent(rev)]
      ensures queryType == QueryTimestamp ==> calls == [WriteTimestamp(objects.query.value, rev)]
      ensures queryType !in {QueryEvent, QueryTimestamp} ==> calls == []
    {
      if queryType == QueryEvent {
        calls := [SignalEvent(rev)];
      } else if queryType == QueryTimestamp {
        calls := [WriteTimestamp(objects.query.value, rev)];
      } else {
        calls := [];
      }
    }

    /**
     * `GetData` given the backend's answers: whether the event is signalled,
     * whether the query's data is available and the data itself.
     * `wantData` says whether pData is non-null.
     */
    function GetData(wantData: bool, eventSignaled: bool, available: bool, data: QueryData): (r: (HResult, Option<QueryValue>))
      ensures queryType == QueryEvent ==> r == (if eventSignaled then S_OK else S_FALSE, if wantData then Some(BoolValue(eventSignaled)) else None)
      ensures queryType != QueryEvent && objects.query.Some? && !available ==> r == (S_FALSE, None)
      ensures r.1.Some? ==> wantData && (r.0 == S_OK || queryType == QueryEvent)
      ensures queryType == QueryOcclusionPredicate && r.1.Some? ==> r.1.value == BoolValue(data.samplesPassed != 0)
      ensures queryType == QueryTimestampDisjoint && objects.query.None? && wantData ==> r == (S_OK, Some(DisjointValue(DisjointFrequency, false)))
      // A non-EVENT query whose data is ready (or that owns no backend query):
      ensures queryType != QueryEvent && (objects.query.None? || available) ==>
        && (!wantData ==> r == (S_OK, None))
        && (wantData && queryType == QueryOcclusion ==> r == (S_OK, Some(Uint64Value(data.samplesPassed))))
        && (wantData && queryType == QueryOcclusionPredicate ==> r == (S_OK, Some(BoolValue(data.samplesPassed != 0))))
        && (wantData && queryType == QueryTimestamp ==> r == (S_OK, Some(Uint64Value(data.time))))
        && (wantData && queryType == QueryPipelineStatistics ==> r == (S_OK, Some(StatisticsValue(data.statistics))))
        && (wantData && queryType !in {QueryOcclusion, QueryOcclusionPredicate, QueryTimestamp, QueryTimestampDisjoint, QueryPipelineStatistics}
            ==> r == (E_INVALIDARG, None))
    {
      if queryType == QueryEvent then
        (if eventSignaled then S_OK else S_FALSE, if wantData then Some(BoolValue(eventSignaled)) else None)
      else if objects.query.Some? && !available then (S_FALSE, None)
      else if !wantData then (S_OK, None)
      else if queryType == QueryOcclusion then (S_OK, Some(Uint64Value(data.samplesPassed)))
      else if queryType == QueryOcclusionPredicate then (S_OK, Some(BoolValue(data.samplesPassed != 0)))
      else if queryType == QueryTimestamp then (S_OK, Some(Uint64Value(data.time)))
      else if queryType == QueryTimestampDisjoint then (S_OK, Some(DisjointValue(DisjointFrequency, false)))
      else if queryType == QueryPipelineStatistics then (S_OK, Some(StatisticsValue(data.statistics)))
      else (E_INVALIDARG, None)
    }
  }

  /**
   * `CreateQuery`: a type outside the six supported ones is E_INVALIDARG, a
   * null output pointer gets S_FALSE, otherwise a new query with S_OK.
   */
  method CreateQuery(queryType: nat, wantQuery: bool) returns (hr: HResult, q: D3D10Query?)
    ensures q == null <==> QueryObjectsFor(queryType).None? || !wantQuery
    ensures QueryObjectsFor(queryType).None? ==> hr == E_INVALIDARG
    ensures QueryObjectsFor(queryType).Some? ==> hr == (if wantQuery then S_OK else S_FALSE)
    ensures q != null ==> fresh(q) && q.queryType == queryType && q.revision == 0
  {
    if QueryObjectsFor(queryType).None? {
      return E_INVALIDARG, null;
    }
    if !wantQuery {
      return S_FALSE, null;
    }
    q := new D3D10Query(queryType);
    hr := S_OK;
  }

  /** A query the constructor accepts never reaches the E_INVALIDARG branch of `GetData`. */
  lemma ConstructedQueriesReturnData(q: D3D10Query, wantData: bool, eventSignaled: bool, available: bool, data: QueryData)
    requires QueryObjectsFor(q.queryType).Some? && q.objects == QueryObjectsFor(q.queryType).value
    ensures q.GetData(wantData, eventSignaled, available, data).0 != E_INVALIDARG
  {
  }
}
