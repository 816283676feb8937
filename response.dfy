/** Raw search responses and the get_feeds reshapers of the aggregators: the bucket keys and the hit
    `_source` documents of one, two or three levels of terms aggregations, turned into nested groups. */
module FeedResponse {
  import opened Common

  // ---------------------------------------------------------------------------
  // Raw responses

  /** `hits.total`: a plain count (the earlier response form) or a `{value, relation}` object (the
      later one). */
  datatype Total = PlainTotal(n: int) | TrackedTotal(value: int, relation: string)

  datatype Hit<S> = Hit(source: S)

  /** A terms bucket: its key (and key_as_string, which date buckets carry), the buckets of the next
      aggregation level, and its top hits. */
  datatype Bucket<S> = Bucket(key: Value, keyAsString: string, sub: seq<Bucket<S>>, hits: seq<Hit<S>>)

  /** A search response: the hit total, the hits, and the buckets of the outermost aggregation. */
  datatype Response<S> = Response(total: Total, hits: seq<Hit<S>>, buckets: seq<Bucket<S>>)

  /** `es_result["hits"]["total"] > 0`: only a plain count can be compared with 0; comparing the
      `{value, relation}` object raises TypeError. */
  function PlainHasHits(t: Total): (r: Result<bool>)
    ensures r.Success? <==> t.PlainTotal?
    ensures r.Success? ==> (r.value <==> t.n > 0)
    ensures r.Failure? ==> r.error == TypeError
  {
    match t
    case PlainTotal(n) => Success(n > 0)
    case TrackedTotal(_, _) => Failure(TypeError)
  }

  /** `es_result["hits"]["total"]["value"] > 0`: subscripting a plain count raises TypeError. */
  function TrackedHasHits(t: Total): (r: Result<bool>)
    ensures r.Success? <==> t.TrackedTotal?
    ensures r.Success? ==> (r.value <==> t.value > 0)
    ensures r.Failure? ==> r.error == TypeError
  {
    match t
    case TrackedTotal(v, _) => Success(v > 0)
    case PlainTotal(_) => Failure(TypeError)
  }

  // ---------------------------------------------------------------------------
  // The groups get_feeds returns

  /** `{"date": key_as_string, "activities": [...]}` */
  datatype DateGroup = DateGroup(date: string, activities: seq<Dict>)
  /** `{"type": key, "activities": [...]}` */
  datatype TypeGroup = TypeGroup(activityType: Value, activities: seq<Dict>)
  /** `{"id": key, "types": [...]}` */
  datatype ObjectGroup = ObjectGroup(id: Value, types: seq<TypeGroup>)
  /** `{"id": key, "activities": [...]}` */
  datatype IdGroup = IdGroup(id: Value, activities: seq<Dict>)
  /** `{"type": key, "ids": [...]}` */
  datatype TypeIdGroup = TypeIdGroup(activityType: Value, ids: seq<IdGroup>)
  /** `{"month": key, "types": [...]}` */
  datatype MonthGroup = MonthGroup(month: Value, types: seq<TypeGroup>)
  /** `{"year": key, "months": [...]}` */
  datatype YearGroup = YearGroup(year: Value, months: seq<MonthGroup>)

  // ---------------------------------------------------------------------------
  // Reference definitions of the reshapes: structure-preserving maps

  function Sources<S>(hits: seq<Hit<S>>): seq<S> {
    seq(|hits|, i requires 0 <= i < |hits| => hits[i].source)
  }

  function DateGroups(bs: seq<Bucket<Dict>>): seq<DateGroup> {
    seq(|bs|, i requires 0 <= i < |bs| => DateGroup(bs[i].keyAsString, Sources(bs[i].hits)))
  }

  function TypeGroups(bs: seq<Bucket<Dict>>): seq<TypeGroup> {
    seq(|bs|, i requires 0 <= i < |bs| => TypeGroup(bs[i].key, Sources(bs[i].hits)))
  }

  function IdGroups(bs: seq<Bucket<Dict>>): seq<IdGroup> {
    seq(|bs|, i requires 0 <= i < |bs| => IdGroup(bs[i].key, Sources(bs[i].hits)))
  }

  function ObjectGroups(bs: seq<Bucket<Dict>>): seq<ObjectGroup> {
    seq(|bs|, i requires 0 <= i < |bs| => ObjectGroup(bs[i].key, TypeGroups(bs[i].sub)))
  }

  function TypeIdGroups(bs: seq<Bucket<Dict>>): seq<TypeIdGroup> {
    seq(|bs|, i requires 0 <= i < |bs| => TypeIdGroup(bs[i].key, IdGroups(bs[i].sub)))
  }

  function MonthGroups(bs: seq<Bucket<Dict>>): seq<MonthGroup> {
    seq(|bs|, i requires 0 <= i < |bs| => MonthGroup(bs[i].key, TypeGroups(bs[i].sub)))
  }

  function YearGroups(bs: seq<Bucket<Dict>>): seq<YearGroup> {
    seq(|bs|, i requires 0 <= i < |bs| => YearGroup(bs[i].key, MonthGroups(bs[i].sub)))
  }

  // ---------------------------------------------------------------------------
  // The loops of get_feeds

  /** `for hit in hits: hit_array.append(hit["_source"])` */
  method CollectSources<S>(hits: seq<Hit<S>>) returns (r: seq<S>)
    ensures r == Sources(hits)
    ensures |r| == |hits| && forall i :: 0 <= i < |hits| ==> r[i] == hits[i].source
  {
    r := [];
    var i := 0;
    while i < |hits|
      invariant 0 <= i <= |hits|
      invariant r == Sources(hits[..i])
    {
      assert hits[..i + 1] == hits[..i] + [hits[i]];
      r := r + [hits[i].source];
      i := i + 1;
    }
    assert hits[..i] == hits;
  }

  /** The date-weight reshape: one date group per date bucket, keyed by key_as_string. */
  method ReshapeByDate(bs: seq<Bucket<Dict>>) returns (r: seq<DateGroup>)
    ensures r == DateGroups(bs)
  {
    r := [];
    var i := 0;
    while i < |bs|
      invariant 0 <= i <= |bs|
      invariant r == DateGroups(bs[..i])
    {
      var hitArray := CollectSources(bs[i].hits);
      r := r + [DateGroup(bs[i].keyAsString, hitArray)];
      i := i + 1;
    }
    assert bs[..i] == bs;
  }

  /** The recent-type reshape (both generations): one type group per type bucket. */
  method ReshapeByType(bs: seq<Bucket<Dict>>) returns (r: seq<TypeGroup>)
    ensures r == TypeGroups(bs)
  {
    r := [];
    var i := 0;
    while i < |bs|
      invariant 0 <= i <= |bs|
      invariant r == TypeGroups(bs[..i])
    {
      var hitArray := CollectSources(bs[i].hits);
      r := r + [TypeGroup(bs[i].key, hitArray)];
      i := i + 1;
    }
    assert bs[..i] == bs;
  }

  /** The inner level of the type-then-object reshape: one id group per object bucket. */
  method ReshapeById(bs: seq<Bucket<Dict>>) returns (r: seq<IdGroup>)
    ensures r == IdGroups(bs)
  {
    r := [];
    var i := 0;
    while i < |bs|
      invariant 0 <= i <= |bs|
      invariant r == IdGroups(bs[..i])
    {
      var hitArray := CollectSources(bs[i].hits);
      r := r + [IdGroup(bs[i].key, hitArray)];
      i := i + 1;
    }
    assert bs[..i] == bs;
  }

  /** The object-then-type reshape of recentobjecttype.py. */
  method ReshapeByObjectType(bs: seq<Bucket<Dict>>) returns (r: seq<ObjectGroup>)
    ensures r == ObjectGroups(bs)
  {
    r := [];
    var i := 0;
    while i < |bs|
      invariant 0 <= i <= |bs|
      invariant r == ObjectGroups(bs[..i])
    {
      var typesArray := ReshapeByType(bs[i].sub);
      r := r + [ObjectGroup(bs[i].key, typesArray)];
      i := i + 1;
    }
    assert bs[..i] == bs;
  }

  /** The type-then-object reshape of recenttypeobject.py. */
  method ReshapeByTypeObject(bs: seq<Bucket<Dict>>) returns (r: seq<TypeIdGroup>)
    ensures r == TypeIdGroups(bs)
  {
    r := [];
    var i := 0;
    while i < |bs|
      invariant 0 <= i <= |bs|
      invariant r == TypeIdGroups(bs[..i])
    {
      var idArray := ReshapeById(bs[i].sub);
      r := r + [TypeIdGroup(bs[i].key, idArray)];
      i := i + 1;
    }
    assert bs[..i] == bs;
  }

  /** The year, month and type reshape of yearmonthtype.py. */
  method ReshapeByYearMonthType(bs: seq<Bucket<Dict>>) returns (r: seq<YearGroup>)
    ensures r == YearGroups(bs)
  {
    r := [];
    var i := 0;
    while i < |bs|
      invariant 0 <= i <= |bs|
      invariant r == YearGroups(bs[..i])
    {
      var months := bs[i].sub;
      var monthArray: seq<MonthGroup> := [];
      var j := 0;
      while j < |months|
        invariant 0 <= j <= |months|
        invariant monthArray == MonthGroups(months[..j])
      {
        var typeArray := ReshapeByType(months[j].sub);
        monthArray := monthArray + [MonthGroup(months[j].key, typeArray)];
        j := j + 1;
      }
      assert months[..j] == months;
      r := r + [YearGroup(bs[i].key, monthArray)];
      i := i + 1;
    }
    assert bs[..i] == bs;
  }

  // ---------------------------------------------------------------------------
  // Nothing is lost or reordered: the activities, read off the groups in order, are the leaf hits

  /** The hits `depth` levels below the buckets, in bucket order. */
  function LeafHits<S>(bs: seq<Bucket<S>>, depth: nat): seq<Hit<S>>
    decreases depth, |bs|
  {
    if bs == [] then []
    else (if depth == 0 then bs[0].hits else LeafHits(bs[0].sub, depth - 1)) + LeafHits(bs[1..], depth)
  }

  function TypeActivities(gs: seq<TypeGroup>): seq<Dict> {
    if gs == [] then [] else gs[0].activities + TypeActivities(gs[1..])
  }

  function IdActivities(gs: seq<IdGroup>): seq<Dict> {
    if gs == [] then [] else gs[0].activities + IdActivities(gs[1..])
  }

  function DateActivities(gs: seq<DateGroup>): seq<Dict> {
    if gs == [] then [] else gs[0].activities + DateActivities(gs[1..])
  }

  function ObjectActivities(gs: seq<ObjectGroup>): seq<Dict> {
    if gs == [] then [] else TypeActivities(gs[0].types) + ObjectActivities(gs[1..])
  }

  function TypeIdActivities(gs: seq<TypeIdGroup>): seq<Dict> {
    if gs == [] then [] else IdActivities(gs[0].ids) + TypeIdActivities(gs[1..])
  }

  function MonthActivities(gs: seq<MonthGroup>): seq<Dict> {
    if gs == [] then [] else TypeActivities(gs[0].types) + MonthActivities(gs[1..])
  }

  function YearActivities(gs: seq<YearGroup>): seq<Dict> {
    if gs == [] then [] else MonthActivities(gs[0].months) + YearActivities(gs[1..])
  }

  lemma SourcesAppend<S>(a: seq<Hit<S>>, b: seq<Hit<S>>)
    ensures Sources(a + b) == Sources(a) + Sources(b)
  {
  }

  lemma {:induction false} TypeGroupsKeepHits(bs: seq<Bucket<Dict>>)
    ensures TypeActivities(TypeGroups(bs)) == Sources(LeafHits(bs, 0))
  {
    if bs != [] {
      TypeGroupsKeepHits(bs[1..]);
      assert TypeGroups(bs)[1..] == TypeGroups(bs[1..]);
      SourcesAppend(bs[0].hits, LeafHits(bs[1..], 0));
    }
  }

  lemma {:induction false} IdGroupsKeepHits(bs: seq<Bucket<Dict>>)
    ensures IdActivities(IdGroups(bs)) == Sources(LeafHits(bs, 0))
  {
    if bs != [] {
      IdGroupsKeepHits(bs[1..]);
      assert IdGroups(bs)[1..] == IdGroups(bs[1..]);
      SourcesAppend(bs[0].hits, LeafHits(bs[1..], 0));
    }
  }

  /** The date-weight reshape keeps every hit of every date bucket, in order. */
  lemma {:induction false} DateGroupsKeepHits(bs: seq<Bucket<Dict>>)
    ensures DateActivities(DateGroups(bs)) == Sources(LeafHits(bs, 0))
    ensures |DateGroups(bs)| == |bs|
  {
    if bs != [] {
      DateGroupsKeepHits(bs[1..]);
      assert DateGroups(bs)[1..] == DateGroups(bs[1..]);
      SourcesAppend(bs[0].hits, LeafHits(bs[1..], 0));
    }
  }

  /** The object-then-type reshape keeps every leaf hit, in order. */
  lemma {:induction false} ObjectGroupsKeepHits(bs: seq<Bucket<Dict>>)
    ensures ObjectActivities(ObjectGroups(bs)) == Sources(LeafHits(bs, 1))
  {
    if bs != [] {
      ObjectGroupsKeepHits(bs[1..]);
      assert ObjectGroups(bs)[1..] == ObjectGroups(bs[1..]);
      TypeGroupsKeepHits(bs[0].sub);
      SourcesAppend(LeafHits(bs[0].sub, 0), LeafHits(bs[1..], 1));
    }
  }

  /** The type-then-object reshape keeps every leaf hit, in order. */
  lemma {:induction false} TypeIdGroupsKeepHits(bs: seq<Bucket<Dict>>)
    ensures TypeIdActivities(TypeIdGroups(bs)) == Sources(LeafHits(bs, 1))
  {
    if bs != [] {
      TypeIdGroupsKeepHits(bs[1..]);
      assert TypeIdGroups(bs)[1..] == TypeIdGroups(bs[1..]);
      IdGroupsKeepHits(bs[0].sub);
      SourcesAppend(LeafHits(bs[0].sub, 0), LeafHits(bs[1..], 1));
    }
  }

  lemma {:induction false} MonthGroupsKeepHits(bs: seq<Bucket<Dict>>)
    ensures MonthActivities(MonthGroups(bs)) == Sources(LeafHits(bs, 1))
  {
    if bs != [] {
      MonthGroupsKeepHits(bs[1..]);
      assert MonthGroups(bs)[1..] == MonthGroups(bs[1..]);
      TypeGroupsKeepHits(bs[0].sub);
      SourcesAppend(LeafHits(bs[0].sub, 0), LeafHits(bs[1..], 1));
    }
  }

  /** The year, month and type reshape keeps every leaf hit, in order. */
  lemma {:induction false} YearGroupsKeepHits(bs: seq<Bucket<Dict>>)
    ensures YearActivities(YearGroups(bs)) == Sources(LeafHits(bs, 2))
  {
    if bs != [] {
      YearGroupsKeepHits(bs[1..]);
      assert YearGroups(bs)[1..] == YearGroups(bs[1..]);
      MonthGroupsKeepHits(bs[0].sub);
      SourcesAppend(LeafHits(bs[0].sub, 1), LeafHits(bs[1..], 2));
    }
  }
}
