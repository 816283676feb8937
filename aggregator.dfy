/** The aggregators (src/elasticfeeds/aggregators/ and elasticfeeds/aggregators/recenttype.py): their
    configuration, the query each compiles from an actor's network, the aggregation each asks for, how the
    search response is kept, and the feeds each returns. */
module Aggregators {
  import opened Common
  import opened QueryCompiler
  import opened FeedResponse

  /** The aggregator classes. RecentType reads the hit total as a plain count
      (src/elasticfeeds/aggregators/recenttype.py); RecentTypeTracked is the later class of the same name
      that reads `hits.total.value` (elasticfeeds/aggregators/recenttype.py). */
  datatype Kind =
    | UnAggregated
    | RecentType
    | RecentTypeTracked
    | RecentObjectType
    | RecentTypeObject
    | DateWeight
    | YearMonthType

  // ---------------------------------------------------------------------------
  // The query dict

  /** One `{field: {"order": order}}` item of a sort list. */
  datatype SortSpec = SortSpec(field: string, order: string)

  /** `get_sort_array`: sort the feed by published date, in the configured order. */
  function SortArray(order: string): (r: seq<SortSpec>)
    ensures |r| == 1 && r[0].field == "published" && r[0].order == order
  {
    [SortSpec("published", order)]
  }

  /** A terms aggregation level: its name, the field it groups by, and whether its buckets are ordered by
      their latest published date, descending (otherwise the engine's default order applies). */
  datatype TermsLevel = TermsLevel(name: string, field: string, latestFirst: bool)

  /** How the top hits of a leaf bucket are sorted: by published date descending, or by the weight
      script descending. */
  datatype HitSort = PublishedDesc | WeightScriptDesc(weights: seq<WeightEntry>)

  /** The `aggs` section: nested terms levels, then a top-hits aggregation on the innermost one. */
  datatype AggSpec = AggSpec(levels: seq<TermsLevel>, hitsName: string, hitSort: HitSort,
                             includes: seq<string>, hitsSize: int)

  /** The query dict sent to the feed index: `query.bool.should`, `sort`, and what set_aggregation_section
      adds (`size`, `from`, `aggs`). */
  datatype QueryDict = QueryDict(should: seq<Clause>, sort: seq<SortSpec>, size: Option<int>,
                                 from: Option<int>, aggs: Option<AggSpec>)

  /** The `_source.includes` of every top-hits aggregation. */
  const SourceIncludes: seq<string> := ["published", "actor", "object", "origin", "target", "extra"]

  /** The `should` list each aggregator's set_query_dict builds. */
  function ShouldOf(kind: Kind, links: seq<NetworkLink>, year: Option<int>): seq<Clause> {
    match kind
    case DateWeight => ActorOnlyClauses(links)
    case YearMonthType => YearClauses(links, year)
    case _ => BaseClauses(links)
  }

  /** `query_dict` after set_query_dict: None when there are no clauses. */
  function CompiledQuery(should: seq<Clause>, order: string): Option<QueryDict> {
    if |should| > 0 then Some(QueryDict(should, SortArray(order), None, None, None)) else None
  }

  /** When the compiled query is None: for the date-weight aggregator exactly when the network has no
      actor-class link, for every other aggregator exactly when the network is empty. Otherwise it sorts by
      published date in the configured order. */
  lemma QueryNoneIff(kind: Kind, links: seq<NetworkLink>, year: Option<int>, order: string)
    ensures var q := CompiledQuery(ShouldOf(kind, links, year), order);
            q.None? <==> if kind == DateWeight then CountActor(links) == 0 else links == []
    ensures var q := CompiledQuery(ShouldOf(kind, links, year), order);
            q.Some? ==> q.value.sort == [SortSpec("published", order)] && q.value.aggs.None?
  {
    if kind == YearMonthType {
      if year.None? {
        YearNoneIsBase(links);
      } else {
        YearSomeFiltersBase(links, year.value);
      }
    }
  }

  /** The aggregation each aggregator requests; the unaggregated one requests none. Every other one nests
      at least one terms level and returns top_hits_size hits with the same source fields; only the
      date-weight one sorts its hits by the weight script, and only its dates level keeps the engine's
      bucket order. */
  function AggregationSpec(kind: Kind, topHitsSize: int, weights: seq<WeightEntry>): (r: Option<AggSpec>)
    ensures r.None? <==> kind == UnAggregated
    ensures r.Some? ==> 1 <= |r.value.levels| <= 3 && r.value.hitsSize == topHitsSize
                        && r.value.includes == SourceIncludes
    ensures r.Some? ==> (r.value.hitSort == WeightScriptDesc(weights) <==> kind == DateWeight)
    ensures r.Some? ==> (r.value.hitSort.PublishedDesc? <==> kind != DateWeight)
    ensures r.Some? ==> forall i :: 0 <= i < |r.value.levels| ==>
                          (r.value.levels[i].latestFirst <==> kind != DateWeight)
  {
    match kind
    case UnAggregated => None
    case RecentType =>
      Some(AggSpec([TermsLevel("types", "type", true)], "top_type_hits", PublishedDesc, SourceIncludes,
                   topHitsSize))
    case RecentTypeTracked =>
      Some(AggSpec([TermsLevel("types", "type", true)], "top_type_hits", PublishedDesc, SourceIncludes,
                   topHitsSize))
    case RecentObjectType =>
      Some(AggSpec([TermsLevel("objects", "object.id", true), TermsLevel("types", "type", true)],
                   "top_type_hits", PublishedDesc, SourceIncludes, topHitsSize))
    case RecentTypeObject =>
      Some(AggSpec([TermsLevel("types", "type", true), TermsLevel("objects", "object.id", true)],
                   "top_obj_hits", PublishedDesc, SourceIncludes, topHitsSize))
    case DateWeight =>
      Some(AggSpec([TermsLevel("dates", "published_date", false)], "top_date_hits",
                   WeightScriptDesc(weights), SourceIncludes, topHitsSize))
    case YearMonthType =>
      Some(AggSpec([TermsLevel("years", "published_year", true), TermsLevel("months", "published_month", true),
                    TermsLevel("types", "type", true)],
                   "top_type_hits", PublishedDesc, SourceIncludes, topHitsSize))
  }

  /** What set_aggregation_section makes of a compiled query: the unaggregated aggregator pages the hits
      with size and from; every other one asks for no hits (size 0) and for its aggregation. */
  function WithAggregation(kind: Kind, q: QueryDict, resultSize: int, resultFrom: int, topHitsSize: int,
                           weights: seq<WeightEntry>): (r: QueryDict)
    ensures r.should == q.should && r.sort == q.sort
    ensures kind == UnAggregated ==> r.size == Some(resultSize) && r.from == Some(resultFrom) && r.aggs == q.aggs
    ensures kind != UnAggregated ==> r.size == Some(0) && r.from == q.from && r.aggs.Some?
                                     && r.aggs.value.hitsSize == topHitsSize
  {
    if kind == UnAggregated then q.(size := Some(resultSize), from := Some(resultFrom))
    else q.(size := Some(0), aggs := AggregationSpec(kind, topHitsSize, weights))
  }

  // ---------------------------------------------------------------------------
  // Feeds

  /** What get_feeds returns, one shape per aggregator. */
  datatype Feeds =
    | Flat(items: seq<Dict>)
    | ByDate(dates: seq<DateGroup>)
    | ByType(types: seq<TypeGroup>)
    | ByObjectType(objects: seq<ObjectGroup>)
    | ByTypeObject(typeIds: seq<TypeIdGroup>)
    | ByYearMonthType(years: seq<YearGroup>)

  /** Python's `[]`, in the shape of the aggregator's feeds. */
  function NoFeeds(kind: Kind): Feeds {
    match kind
    case UnAggregated => Flat([])
    case DateWeight => ByDate([])
    case RecentType => ByType([])
    case RecentTypeTracked => ByType([])
    case RecentObjectType => ByObjectType([])
    case RecentTypeObject => ByTypeObject([])
    case YearMonthType => ByYearMonthType([])
  }

  /** The reshape of a response with hits. */
  function Reshape(kind: Kind, resp: Response<Dict>): Feeds {
    match kind
    case UnAggregated => Flat(Sources(resp.hits))
    case DateWeight => ByDate(DateGroups(resp.buckets))
    case RecentType => ByType(TypeGroups(resp.buckets))
    case RecentTypeTracked => ByType(TypeGroups(resp.buckets))
    case RecentObjectType => ByObjectType(ObjectGroups(resp.buckets))
    case RecentTypeObject => ByTypeObject(TypeIdGroups(resp.buckets))
    case YearMonthType => ByYearMonthType(YearGroups(resp.buckets))
  }

  /** The activities of the feeds, read off the groups in order. */
  function Activities(f: Feeds): seq<Dict> {
    match f
    case Flat(items) => items
    case ByDate(gs) => DateActivities(gs)
    case ByType(gs) => TypeActivities(gs)
    case ByObjectType(gs) => ObjectActivities(gs)
    case ByTypeObject(gs) => TypeIdActivities(gs)
    case ByYearMonthType(gs) => YearActivities(gs)
  }

  /** The reshape reads exactly as deep as the requested aggregation nests: the activities of the feeds are
      the hits of the innermost buckets, all of them and in order (for the unaggregated aggregator, the
      response's hits). */
  lemma ReshapeKeepsLeafHits(kind: Kind, topHitsSize: int, weights: seq<WeightEntry>, resp: Response<Dict>)
    ensures kind == UnAggregated ==> Activities(Reshape(kind, resp)) == Sources(resp.hits)
    ensures kind != UnAggregated ==>
              var spec := AggregationSpec(kind, topHitsSize, weights);
              spec.Some? && |spec.value.levels| >= 1
              && Activities(Reshape(kind, resp)) == Sources(LeafHits(resp.buckets, |spec.value.levels| - 1))
  {
    match kind
    case UnAggregated =>
    case DateWeight => DateGroupsKeepHits(resp.buckets);
    case RecentType => TypeGroupsKeepHits(resp.buckets);
    case RecentTypeTracked => TypeGroupsKeepHits(resp.buckets);
    case RecentObjectType => ObjectGroupsKeepHits(resp.buckets);
    case RecentTypeObject => TypeIdGroupsKeepHits(resp.buckets);
    case YearMonthType => YearGroupsKeepHits(resp.buckets);
  }

  /** Whether the aggregator's get_feeds reads `hits.total.value` rather than `hits.total`. */
  predicate ReadsTrackedTotal(kind: Kind) {
    kind == RecentTypeTracked || kind == RecentTypeObject
  }

  /** get_feeds as written: subscripting a missing result raises TypeError, so does reading the hit total
      in the other form; a total of 0 gives `[]`. */
  function FeedsOf(kind: Kind, result: Option<Response<Dict>>): (r: Result<Feeds>)
    ensures result.None? ==> r == Failure(TypeError)
    ensures result.Some? && ReadsTrackedTotal(kind) != result.value.total.TrackedTotal? ==> r == Failure(TypeError)
    ensures result.Some? && result.value.total == PlainTotal(0) && !ReadsTrackedTotal(kind) ==> r == Success(NoFeeds(kind))
    ensures result.Some? && ReadsTrackedTotal(kind) == result.value.total.TrackedTotal?
              && HitCount(result.value.total) > 0
            ==> r == Success(Reshape(kind, result.value))
    ensures result.Some? && ReadsTrackedTotal(kind) == result.value.total.TrackedTotal?
              && HitCount(result.value.total) <= 0
            ==> r == Success(NoFeeds(kind))
  {
    if result.None? then Failure(TypeError)
    else
      var resp := result.value;
      var has := if ReadsTrackedTotal(kind) then TrackedHasHits(resp.total) else PlainHasHits(resp.total);
      if has.Failure? then Failure(TypeError)
      else if has.value then Success(Reshape(kind, resp))
      else Success(NoFeeds(kind))
  }

  /** The hit count, whichever form the response gives it in. */
  function HitCount(t: Total): int {
    match t
    case PlainTotal(n) => n
    case TrackedTotal(v, _) => v
  }

  /** get_feeds as intended: the hit count is read in either form. */
  function FeedsOfCorrected(kind: Kind, result: Option<Response<Dict>>): (r: Result<Feeds>)
    ensures result.None? <==> r.Failure?
    ensures result.Some? && HitCount(result.value.total) > 0 ==> r == Success(Reshape(kind, result.value))
    ensures result.Some? && HitCount(result.value.total) <= 0 ==> r == Success(NoFeeds(kind))
  {
    if result.None? then Failure(TypeError)
    else if HitCount(result.value.total) > 0 then Success(Reshape(kind, result.value))
    else Success(NoFeeds(kind))
  }

  // ---------------------------------------------------------------------------
  // Keeping the response

  /** What query_feeds leaves in es_feed_result as written: the response only when its plain hit total is
      positive, otherwise the previous result; a `{value, relation}` total raises TypeError. */
  function StoredAfterQuery(prev: Option<Response<Dict>>, resp: Response<Dict>): (r: Result<Option<Response<Dict>>>)
    ensures r.Success? <==> resp.total.PlainTotal?
    ensures r.Success? && resp.total.n > 0 ==> r.value == Some(resp)
    ensures r.Success? && resp.total.n <= 0 ==> r.value == prev
  {
    var has := PlainHasHits(resp.total);
    if has.Failure? then Failure(TypeError)
    else if has.value then Success(Some(resp))
    else Success(prev)
  }

  /** As intended: every response is kept. */
  function StoredAfterQueryCorrected(prev: Option<Response<Dict>>, resp: Response<Dict>): Option<Response<Dict>> {
    Some(resp)
  }

  /** As written, a fresh aggregator that receives a response without hits still has no result, and its
      get_feeds raises TypeError instead of returning `[]`. */
  lemma ZeroHitsFreshAggregatorFails(kind: Kind, resp: Response<Dict>)
    requires !ReadsTrackedTotal(kind) && resp.total == PlainTotal(0)
    ensures StoredAfterQuery(None, resp) == Success(None)
    ensures FeedsOf(kind, StoredAfterQuery(None, resp).value) == Failure(TypeError)
  {
  }

  /** As written, a reused aggregator that receives a response without hits returns the previous feeds. */
  lemma ZeroHitsReusedAggregatorIsStale(kind: Kind, prev: Response<Dict>, resp: Response<Dict>)
    requires resp.total == PlainTotal(0)
    ensures StoredAfterQuery(Some(prev), resp) == Success(Some(prev))
    ensures FeedsOf(kind, StoredAfterQuery(Some(prev), resp).value) == FeedsOf(kind, Some(prev))
  {
  }

  /** As intended, the feeds always describe the latest response: `[]` without hits, its reshape with. */
  lemma FeedsFollowLatestResponse(kind: Kind, prev: Option<Response<Dict>>, resp: Response<Dict>)
    ensures HitCount(resp.total) <= 0 ==>
              FeedsOfCorrected(kind, StoredAfterQueryCorrected(prev, resp)) == Success(NoFeeds(kind))
    ensures HitCount(resp.total) > 0 ==>
              FeedsOfCorrected(kind, StoredAfterQueryCorrected(prev, resp)) == Success(Reshape(kind, resp))
  {
  }

  /** As written, an aggregator reading `hits.total.value` behind query_feeds that compares `hits.total`
      with 0 never returns feeds: query_feeds keeps only plain totals, which get_feeds cannot read. */
  lemma TrackedReaderNeverSucceeds(kind: Kind, prev: Option<Response<Dict>>, resp: Response<Dict>)
    requires ReadsTrackedTotal(kind)
    requires prev.Some? ==> prev.value.total.PlainTotal?
    ensures StoredAfterQuery(prev, resp).Failure? || FeedsOf(kind, StoredAfterQuery(prev, resp).value).Failure?
  {
  }

  /** As intended, a kept response is always readable, whichever aggregator reads it. */
  lemma CorrectedFeedsAlwaysRead(kind: Kind, prev: Option<Response<Dict>>, resp: Response<Dict>)
    ensures FeedsOfCorrected(kind, StoredAfterQueryCorrected(prev, resp)).Success?
  {
  }

  // ---------------------------------------------------------------------------
  // The aggregator object

  predicate IsOrder(s: string) {
    s == "asc" || s == "desc"
  }

  class Aggregator {
    const kind: Kind
    var actorId: string
    var networkArray: seq<NetworkLink>
    var queryDict: Option<QueryDict>
    var esFeedResult: Option<Response<Dict>>
    var order: string
    var resultSize: int
    var resultFrom: int
    var topHitsSize: int
    /** The year filter; only the year-month-type aggregator has one. */
    var year: Option<int>

    /** What construction and every setter keep. */
    ghost predicate Valid()
      reads this
    {
      ' ' !in actorId && IsOrder(order) && (kind != YearMonthType ==> year.None?)
    }

    constructor Init(kind: Kind, actorId: string, year: Option<int>)
      ensures this.kind == kind && this.actorId == actorId && this.year == year
      ensures networkArray == [] && queryDict.None? && esFeedResult.None?
      ensures order == "desc" && resultSize == 10000 && resultFrom == 0 && topHitsSize == 100
    {
      this.kind := kind;
      this.actorId := actorId;
      this.year := year;
      networkArray := [];
      queryDict := None;
      esFeedResult := None;
      order := "desc";
      resultSize := 10000;
      resultFrom := 0;
      topHitsSize := 100;
    }

    /** The constructors: the actor id must have no space (IDError); the year-month-type aggregator also
        takes a year, None or an int (otherwise ElasticFeedException). Every other setting starts at its
        default: order "desc", result size 10000, offset 0, top hits 100, no query and no result. */
    static method Create(actorId: string, kind: Kind, year: Value) returns (r: Result<Aggregator>)
      requires kind != YearMonthType ==> year.NoneValue?
      ensures r.Failure? <==> ' ' in actorId || (!year.NoneValue? && !IsInt(year))
      ensures ' ' in actorId ==> r == Failure(IDError)
      ensures ' ' !in actorId && !year.NoneValue? && !IsInt(year)
              ==> r == Failure(ElasticFeedException("Year must be integer"))
      ensures r.Success? ==> fresh(r.value) && r.value.Valid() && r.value.kind == kind
                             && r.value.actorId == actorId
                             && r.value.year == (if year.IntValue? then Some(year.i) else None)
      ensures r.Success? ==> r.value.networkArray == [] && r.value.queryDict.None?
                             && r.value.esFeedResult.None? && r.value.order == "desc"
                             && r.value.resultSize == 10000 && r.value.resultFrom == 0
                             && r.value.topHitsSize == 100
    {
      if !IsId(actorId) {
        return Failure(IDError);
      }
      if !year.NoneValue? && !IsInt(year) {
        return Failure(ElasticFeedException("Year must be integer"));
      }
      var a := new Aggregator.Init(kind, actorId, if year.IntValue? then Some(year.i) else None);
      return Success(a);
    }

    /** The result_from setter: a non-int raises FromError and leaves the offset unchanged. */
    method SetResultFrom(value: Value) returns (err: Option<Error>)
      modifies this`resultFrom
      requires Valid()
      ensures Valid()
      ensures err.None? <==> IsInt(value)
      ensures err.Some? ==> err.value == FromError && resultFrom == old(resultFrom)
      ensures err.None? ==> resultFrom == value.i
    {
      if !IsInt(value) {
        return Some(FromError);
      }
      resultFrom := value.i;
      return None;
    }

    /** The result_size setter: a non-int raises SizeError and leaves the size unchanged. */
    method SetResultSize(value: Value) returns (err: Option<Error>)
      modifies this`resultSize
      requires Valid()
      ensures Valid()
      ensures err.None? <==> IsInt(value)
      ensures err.Some? ==> err.value == SizeError && resultSize == old(resultSize)
      ensures err.None? ==> resultSize == value.i
    {
      if !IsInt(value) {
        return Some(SizeError);
      }
      resultSize := value.i;
      return None;
    }

    /** The top_hits_size setter: a non-int raises SizeError and leaves the size unchanged. */
    method SetTopHitsSize(value: Value) returns (err: Option<Error>)
      modifies this`topHitsSize
      requires Valid()
      ensures Valid()
      ensures err.None? <==> IsInt(value)
      ensures err.Some? ==> err.value == SizeError && topHitsSize == old(topHitsSize)
      ensures err.None? ==> topHitsSize == value.i
    {
      if !IsInt(value) {
        return Some(SizeError);
      }
      topHitsSize := value.i;
      return None;
    }

    /** The actor_id setter: a value with a space raises IDError and leaves the id unchanged; any other
        string is stored as given. */
    method SetActorId(value: string) returns (err: Option<Error>)
      requires Valid()
      modifies this`actorId
      ensures Valid()
      ensures err.None? <==> ' ' !in value
      ensures err.Some? ==> err.value == IDError && actorId == old(actorId)
      ensures err.None? ==> actorId == value
    {
      if IsId(value) {
        actorId := value;
        return None;
      }
      return Some(IDError);
    }

    /** The order setter: exactly "asc" or "desc"; anything else raises OrderError and leaves the order
        unchanged. */
    method SetOrder(value: string) returns (err: Option<Error>)
      requires Valid()
      modifies this`order
      ensures Valid()
      ensures err.None? <==> IsOrder(value)
      ensures err.Some? ==> err.value == OrderError && order == old(order)
      ensures err.None? ==> order == value
    {
      if value == "asc" || value == "desc" {
        order := value;
        return None;
      }
      return Some(OrderError);
    }

    /** The year setter of the year-month-type aggregator: every non-int, None included, raises
        ElasticFeedException and leaves the year unchanged. */
    method SetYear(value: Value) returns (err: Option<Error>)
      requires kind == YearMonthType
      modifies this`year
      ensures err.None? <==> IsInt(value)
      ensures err.Some? ==> err.value == ElasticFeedException("Year must be integer") && year == old(year)
      ensures err.None? ==> year == Some(value.i)
    {
      if !IsInt(value) {
        return Some(ElasticFeedException("Year must be integer"));
      }
      year := Some(value.i);
      return None;
    }

    /** The network_array setter. */
    method SetNetworkArray(value: seq<NetworkLink>)
      modifies this`networkArray
      ensures networkArray == value
    {
      networkArray := value;
    }

    /** set_query_dict: the clauses of the aggregator's compiler over the network, or None when there are
        none. */
    method SetQueryDict()
      modifies this`queryDict
      ensures queryDict == CompiledQuery(ShouldOf(kind, networkArray, year), order)
    {
      var should: seq<Clause>;
      if kind == DateWeight {
        should := CompileActorOnly(networkArray);
      } else if kind == YearMonthType {
        should := CompileYear(networkArray, year);
      } else {
        should := CompileBase(networkArray);
      }
      if |should| > 0 {
        queryDict := Some(QueryDict(should, SortArray(order), None, None, None));
      } else {
        queryDict := None;
      }
    }

    /** set_aggregation_section: writes size and from, or size and aggs, into the query dict; on a query
        dict that is None the subscript raises TypeError. */
    method SetAggregationSection() returns (err: Option<Error>)
      modifies this`queryDict
      ensures old(queryDict).None? ==> err == Some(TypeError) && queryDict.None?
      ensures old(queryDict).Some? ==>
                err.None?
                && queryDict == Some(WithAggregation(kind, old(queryDict).value, resultSize, resultFrom,
                                                     topHitsSize, Weights(networkArray)))
    {
      if queryDict.None? {
        return Some(TypeError);
      }
      var q := queryDict.value;
      if kind == UnAggregated {
        queryDict := Some(q.(size := Some(resultSize), from := Some(resultFrom)));
      } else {
        var weights := BuildWeights(networkArray);
        queryDict := Some(q.(size := Some(0), aggs := AggregationSpec(kind, topHitsSize, weights)));
      }
      return None;
    }

    /** query_feeds as written, given the engine's response to the query dict. */
    method QueryFeeds(response: Response<Dict>) returns (err: Option<Error>)
      modifies this`esFeedResult
      ensures StoredAfterQuery(old(esFeedResult), response).Failure? ==>
                err == Some(TypeError) && esFeedResult == old(esFeedResult)
      ensures StoredAfterQuery(old(esFeedResult), response).Success? ==>
                err.None? && esFeedResult == StoredAfterQuery(old(esFeedResult), response).value
    {
      var has := PlainHasHits(response.total);
      if has.Failure? {
        return Some(TypeError);
      }
      if has.value {
        esFeedResult := Some(response);
      }
      return None;
    }

    /** query_feeds as intended: the response is kept whatever its hit total. */
    method QueryFeedsCorrected(response: Response<Dict>)
      modifies this`esFeedResult
      ensures esFeedResult == StoredAfterQueryCorrected(old(esFeedResult), response)
    {
      esFeedResult := Some(response);
    }

    /** get_feeds as written, with the loops of each aggregator. */
    method GetFeeds() returns (r: Result<Feeds>)
      ensures r == FeedsOf(kind, esFeedResult)
    {
      if esFeedResult.None? {
        return Failure(TypeError);
      }
      var resp := esFeedResult.value;
      var has := if ReadsTrackedTotal(kind) then TrackedHasHits(resp.total) else PlainHasHits(resp.total);
      if has.Failure? {
        return Failure(TypeError);
      }
      if !has.value {
        return Success(NoFeeds(kind));
      }
      r := ReshapeFeeds(kind, resp);
    }

    /** get_feeds as intended: the hit count is read in either form. */
    method GetFeedsCorrected() returns (r: Result<Feeds>)
      ensures r == FeedsOfCorrected(kind, esFeedResult)
    {
      if esFeedResult.None? {
        return Failure(TypeError);
      }
      var resp := esFeedResult.value;
      if HitCount(resp.total) <= 0 {
        return Success(NoFeeds(kind));
      }
      r := ReshapeFeeds(kind, resp);
    }
  }

  /** The loops of the aggregator's get_feeds, on a response with hits. */
  method ReshapeFeeds(kind: Kind, resp: Response<Dict>) returns (r: Result<Feeds>)
    ensures r == Success(Reshape(kind, resp))
  {
    match kind {
      case UnAggregated =>
        var items := CollectSources(resp.hits);
        r := Success(Flat(items));
      case DateWeight =>
        var dates := ReshapeByDate(resp.buckets);
        r := Success(ByDate(dates));
      case RecentType =>
        var types := ReshapeByType(resp.buckets);
        r := Success(ByType(types));
      case RecentTypeTracked =>
        var types := ReshapeByType(resp.buckets);
        r := Success(ByType(types));
      case RecentObjectType =>
        var objects := ReshapeByObjectType(resp.buckets);
        r := Success(ByObjectType(objects));
      case RecentTypeObject =>
        var typeIds := ReshapeByTypeObject(resp.buckets);
        r := Success(ByTypeObject(typeIds));
      case YearMonthType =>
        var years := ReshapeByYearMonthType(resp.buckets);
        r := Success(ByYearMonthType(years));
    }
  }
}
