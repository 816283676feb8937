/** The feeds manager (elasticfeeds/manager/manager.py): the network index as a store of link documents
    keyed by their ids, the follow/watch conveniences that add and remove links, the search for an actor's
    network, and the orchestration of an aggregator from the network to its feeds. */
module NetworkManager {
  import opened Common
  import opened QueryCompiler
  import opened FeedResponse
  import opened Aggregators
  import LinkedActivityRecord

  const DefaultMaxLinkSize: int := 1000
  const FollowLinkType: string := "follow"
  const WatchLinkType: string := "watch"

  // ---------------------------------------------------------------------------
  // Link identity and the network store

  /** What a link's search dict asks for: whose link it is, its kind, and the linked activity's class, id
      and type. Two documents with the same identity are the same link. */
  datatype LinkIdentity = LinkIdentity(actorId: string, linkType: string, activity: LinkedFields)

  function IdentityOf(l: NetworkLink): LinkIdentity {
    LinkIdentity(l.actorId, l.linkType, l.activity)
  }

  /** The network index: link documents by their unique id. */
  type Store = map<string, NetworkLink>

  /** link_network_exists: some stored document matches every term of the link's search dict. */
  predicate LinkExists(store: Store, key: LinkIdentity) {
    exists id :: id in store && IdentityOf(store[id]) == key
  }

  /** No two documents of the store are the same link. */
  ghost predicate UniqueIdentities(store: Store) {
    forall a, b :: a in store && b in store && IdentityOf(store[a]) == IdentityOf(store[b]) ==> a == b
  }

  /** delete_by_query with the link's search dict: every matching document goes, all others stay. */
  function RemoveLink(store: Store, key: LinkIdentity): (r: Store)
    ensures !LinkExists(r, key)
    ensures forall id :: id in r <==> id in store && IdentityOf(store[id]) != key
    ensures forall id :: id in r ==> r[id] == store[id]
  {
    map id | id in store && IdentityOf(store[id]) != key :: store[id]
  }

  /** Adding a link that is not yet in the store keeps every link unique. */
  lemma AddKeepsIdentitiesUnique(store: Store, l: NetworkLink, freshId: string)
    requires UniqueIdentities(store) && freshId !in store && !LinkExists(store, IdentityOf(l))
    ensures UniqueIdentities(store[freshId := l])
  {
  }

  /** Removing links never makes two of the remaining ones the same. */
  lemma RemoveKeepsIdentitiesUnique(store: Store, key: LinkIdentity)
    requires UniqueIdentities(store)
    ensures UniqueIdentities(RemoveLink(store, key))
  {
  }

  /** A link just added is found by its own search, so adding it once more fails. */
  lemma AddedLinkExists(store: Store, l: NetworkLink, freshId: string)
    ensures LinkExists(store[freshId := l], IdentityOf(l))
  {
    assert store[freshId := l][freshId] == l;
  }

  /** Removing a link that was just added gives back the store as it was before the add. */
  lemma RemoveUndoesAdd(store: Store, l: NetworkLink, freshId: string)
    requires freshId !in store && !LinkExists(store, IdentityOf(l))
    ensures RemoveLink(store[freshId := l], IdentityOf(l)) == store
  {
    var r := RemoveLink(store[freshId := l], IdentityOf(l));
    forall id | id in store
      ensures id in r && r[id] == store[id]
    {
      assert IdentityOf(store[id]) != IdentityOf(l);
    }
    assert r.Keys == store.Keys;
  }

  /** In a store of unique links, removing an existing link deletes exactly its one document. */
  lemma RemoveDeletesOneDocument(store: Store, key: LinkIdentity, id: string)
    requires UniqueIdentities(store) && id in store && IdentityOf(store[id]) == key
    ensures RemoveLink(store, key) == store - {id}
  {
    var r := RemoveLink(store, key);
    forall other | other in store && other != id
      ensures other in r
    {
      assert IdentityOf(store[other]) != key;
    }
    assert r.Keys == store.Keys - {id};
  }

  // ---------------------------------------------------------------------------
  // The links the conveniences build

  /** The link follow declares: class "actor", the caller's type lowercased, link type "follow". */
  function FollowIdentity(actorId: string, following: string, activityType: string): LinkIdentity {
    LinkIdentity(actorId, FollowLinkType, LinkedFields("actor", following, Lower(activityType)))
  }

  /** The link un_follow searches for: the linked activity's default type "person". */
  function UnFollowIdentity(actorId: string, following: string): LinkIdentity {
    LinkIdentity(actorId, FollowLinkType, LinkedFields("actor", following, "person"))
  }

  /** The link watch and un_watch build: class "object", link type "watch". */
  function WatchIdentity(actorId: string, watchId: string, watchType: string): LinkIdentity {
    LinkIdentity(actorId, WatchLinkType, LinkedFields("object", watchId, Lower(watchType)))
  }

  /** The document follow and watch store: weight 1, no extra. */
  function NewLink(linked: Timestamp, key: LinkIdentity): (l: NetworkLink)
    ensures IdentityOf(l) == key && l.linked == linked && l.weight == 1.0 && l.extra.None?
  {
    NetworkLink(linked, key.actorId, key.linkType, key.activity, 1.0, None)
  }

  /** The checks of building the link: the linked activity's (LinkedCheck), then the actor id. */
  function NewLinkCheck(actorId: string, id: string, activityClass: string, activityType: string)
    : (err: Option<Error>)
    ensures err.None? <==> LinkedActivityRecord.LinkedCheck(id, activityClass, activityType).None?
                           && ' ' !in actorId
    ensures LinkedActivityRecord.LinkedCheck(id, activityClass, activityType).Some? ==>
              err == LinkedActivityRecord.LinkedCheck(id, activityClass, activityType)
    ensures LinkedActivityRecord.LinkedCheck(id, activityClass, activityType).None? && ' ' in actorId ==>
              err == Some(IDError)
  {
    var e := LinkedActivityRecord.LinkedCheck(id, activityClass, activityType);
    if e.Some? then e
    else if !IsId(actorId) then Some(IDError)
    else None
  }

  /** un_follow only finds the link follow declared when that link had the default type. */
  lemma UnFollowFindsFollowIff(actorId: string, following: string, activityType: string)
    ensures UnFollowIdentity(actorId, following) == FollowIdentity(actorId, following, activityType)
            <==> Lower(activityType) == "person"
  {
  }

  /** un_follow after a follow of the default type gives back the network as it was before. */
  lemma UnFollowUndoesFollow(store: Store, actorId: string, following: string, activityType: string,
                             linked: Timestamp, freshId: string)
    requires Lower(activityType) == "person"
    requires freshId !in store && !LinkExists(store, FollowIdentity(actorId, following, activityType))
    ensures RemoveLink(store[freshId := NewLink(linked, FollowIdentity(actorId, following, activityType))],
                       UnFollowIdentity(actorId, following)) == store
  {
    var l := NewLink(linked, FollowIdentity(actorId, following, activityType));
    RemoveUndoesAdd(store, l, freshId);
  }

  /** A follow of any other type survives un_follow. */
  lemma UnFollowKeepsOtherTypes(store: Store, actorId: string, following: string, activityType: string,
                                linked: Timestamp, freshId: string)
    requires Lower(activityType) != "person"
    ensures var s := store[freshId := NewLink(linked, FollowIdentity(actorId, following, activityType))];
            freshId in RemoveLink(s, UnFollowIdentity(actorId, following))
  {
    UnFollowFindsFollowIff(actorId, following, activityType);
  }

  /** un_watch after a watch gives back the network as it was before. */
  lemma UnWatchUndoesWatch(store: Store, actorId: string, watchId: string, watchType: string,
                           linked: Timestamp, freshId: string)
    requires freshId !in store && !LinkExists(store, WatchIdentity(actorId, watchId, watchType))
    ensures RemoveLink(store[freshId := NewLink(linked, WatchIdentity(actorId, watchId, watchType))],
                       WatchIdentity(actorId, watchId, watchType)) == store
  {
    RemoveUndoesAdd(store, NewLink(linked, WatchIdentity(actorId, watchId, watchType)), freshId);
  }

  // ---------------------------------------------------------------------------
  // Reading an actor's network

  /** get_search_dict: at most `size` links of the actor, newest first. */
  datatype NetworkSearch = NetworkSearch(size: Value, actorId: string, sort: seq<SortSpec>)

  /** The one term of the network search. */
  predicate SearchMatches(q: NetworkSearch, l: NetworkLink) {
    l.actorId == q.actorId
  }

  /** The network of an actor, read from the engine's answer to its search:
      `hits.total.value > 0` requires the tracked total (a plain count raises TypeError). */
  function NetworkOf(resp: Response<NetworkLink>): (r: Result<seq<NetworkLink>>)
    ensures r.Failure? <==> resp.total.PlainTotal?
    ensures r.Failure? ==> r.error == TypeError
    ensures r.Success? && resp.total.value > 0 ==>
              |r.value| == |resp.hits| && forall i :: 0 <= i < |resp.hits| ==> r.value[i] == resp.hits[i].source
    ensures r.Success? && resp.total.value <= 0 ==> r.value == []
  {
    match TrackedHasHits(resp.total)
    case Failure(e) => Failure(e)
    case Success(has) => if has then Success(Sources(resp.hits)) else Success([])
  }

  /** The feeds the manager returns for an aggregator of the given configuration, from the engine's answers
      to the network search and to the compiled feed query. */
  function ManagedFeeds(kind: Kind, year: Option<int>, order: string, networkResp: Response<NetworkLink>,
                        feedResp: Response<Dict>): (r: Result<Feeds>)
    ensures r.Failure? <==> networkResp.total.PlainTotal?
    ensures r.Failure? ==> r.error == TypeError
    ensures networkResp.total.TrackedTotal? && networkResp.total.value <= 0 ==> r == Success(NoFeeds(kind))
    ensures networkResp.total.TrackedTotal? && kind != DateWeight && networkResp.total.value > 0 ==>
              r == (if networkResp.hits == [] then Success(NoFeeds(kind))
                    else FeedsOfCorrected(kind, Some(feedResp)))
    ensures networkResp.total.TrackedTotal? && kind == DateWeight && networkResp.total.value > 0 ==>
              r == (if CountActor(Sources(networkResp.hits)) == 0 then Success(NoFeeds(kind))
                    else FeedsOfCorrected(kind, Some(feedResp)))
  {
    match NetworkOf(networkResp)
    case Failure(e) => Failure(e)
    case Success(net) =>
      QueryNoneIff(kind, net, year, order);
      if CompiledQuery(ShouldOf(kind, net, year), order).None? then Success(NoFeeds(kind))
      else FeedsOfCorrected(kind, Some(feedResp))
  }

  /** Whether the network read from `networkResp` compiles to a feed query for the aggregator. */
  predicate HasQuery(kind: Kind, year: Option<int>, order: string, networkResp: Response<NetworkLink>) {
    NetworkOf(networkResp).Success? && CompiledQuery(ShouldOf(kind, NetworkOf(networkResp).value, year), order).Some?
  }

  /** The feeds get_feeds returns as written, through the aggregator's own query_feeds and get_feeds;
      `prev` is the response the aggregator kept before the call. */
  function ManagedFeedsAsWritten(kind: Kind, year: Option<int>, order: string, prev: Option<Response<Dict>>,
                                 networkResp: Response<NetworkLink>, feedResp: Response<Dict>): (r: Result<Feeds>)
    ensures NetworkOf(networkResp).Failure? ==> r == Failure(TypeError)
    ensures NetworkOf(networkResp).Success? && !HasQuery(kind, year, order, networkResp) ==>
              r == Success(NoFeeds(kind))
    ensures HasQuery(kind, year, order, networkResp) && feedResp.total.TrackedTotal? ==> r == Failure(TypeError)
    ensures HasQuery(kind, year, order, networkResp) && feedResp.total.PlainTotal? && feedResp.total.n > 0 ==>
              r == FeedsOf(kind, Some(feedResp))
    ensures HasQuery(kind, year, order, networkResp) && feedResp.total.PlainTotal? && feedResp.total.n <= 0 ==>
              r == FeedsOf(kind, prev)
  {
    match NetworkOf(networkResp)
    case Failure(e) => Failure(e)
    case Success(net) =>
      if CompiledQuery(ShouldOf(kind, net, year), order).None? then Success(NoFeeds(kind))
      else match StoredAfterQuery(prev, feedResp)
        case Failure(e) => Failure(e)
        case Success(kept) => FeedsOf(kind, kept)
  }

  /** With a plain hit count above zero, read by an aggregator that reads plain counts, the pipeline as
      written gives the same feeds as the corrected one, whatever the aggregator kept before. */
  lemma AsWrittenAgreesWithHits(kind: Kind, year: Option<int>, order: string, prev: Option<Response<Dict>>,
                                networkResp: Response<NetworkLink>, feedResp: Response<Dict>)
    requires !ReadsTrackedTotal(kind) && feedResp.total.PlainTotal? && feedResp.total.n > 0
    ensures ManagedFeedsAsWritten(kind, year, order, prev, networkResp, feedResp)
            == ManagedFeeds(kind, year, order, networkResp, feedResp)
  {
  }

  /** As written, a fresh aggregator whose network compiles to a query and whose feed search finds nothing
      makes get_feeds raise TypeError, where the corrected pipeline returns `[]`. */
  lemma AsWrittenZeroHitsFails(kind: Kind, year: Option<int>, order: string,
                               networkResp: Response<NetworkLink>, feedResp: Response<Dict>)
    requires !ReadsTrackedTotal(kind) && feedResp.total == PlainTotal(0)
    requires HasQuery(kind, year, order, networkResp)
    ensures ManagedFeedsAsWritten(kind, year, order, None, networkResp, feedResp) == Failure(TypeError)
    ensures ManagedFeeds(kind, year, order, networkResp, feedResp) == Success(NoFeeds(kind))
  {
  }

  /** As written, behind the query_feeds of src/elasticfeeds/aggregators/base.py, an aggregator that reads
      `hits.total.value` never gets feeds through the manager once its network compiles to a query:
      query_feeds or its get_feeds raises TypeError. */
  lemma AsWrittenTrackedReaderFails(kind: Kind, year: Option<int>, order: string, prev: Option<Response<Dict>>,
                                    networkResp: Response<NetworkLink>, feedResp: Response<Dict>)
    requires ReadsTrackedTotal(kind) && (prev.Some? ==> prev.value.total.PlainTotal?)
    requires HasQuery(kind, year, order, networkResp)
    ensures ManagedFeedsAsWritten(kind, year, order, prev, networkResp, feedResp).Failure?
  {
    TrackedReaderNeverSucceeds(kind, prev, feedResp);
  }

  /** get_network's loop over the hits. */
  method GetNetwork(resp: Response<NetworkLink>) returns (r: Result<seq<NetworkLink>>)
    ensures r == NetworkOf(resp)
  {
    var has := TrackedHasHits(resp.total);
    if has.Failure? {
      return Failure(has.error);
    }
    var result: seq<NetworkLink> := [];
    if has.value {
      var i := 0;
      while i < |resp.hits|
        invariant 0 <= i <= |resp.hits|
        invariant result == Sources(resp.hits[..i])
      {
        result := result + [resp.hits[i].source];
        i := i + 1;
      }
      assert resp.hits[..i] == resp.hits;
    }
    return Success(result);
  }

  // ---------------------------------------------------------------------------
  // The manager

  class Manager {
    /** Stored unchecked by the constructor; only the setter insists on an int. */
    var maxLinkSize: Value
    var networkIndex: Store

    constructor Init(maxLinkSize: Value, networkIndex: Store)
      ensures this.maxLinkSize == maxLinkSize && this.networkIndex == networkIndex
    {
      this.maxLinkSize := maxLinkSize;
      this.networkIndex := networkIndex;
    }

    /** The constructor with its default link cap. */
    constructor Default(networkIndex: Store)
      ensures maxLinkSize == IntValue(DefaultMaxLinkSize) && this.networkIndex == networkIndex
    {
      maxLinkSize := IntValue(DefaultMaxLinkSize);
      this.networkIndex := networkIndex;
    }

    method SetMaxLinkSize(value: Value) returns (err: Option<Error>)
      modifies this`maxLinkSize
      ensures err.None? <==> IsInt(value)
      ensures err.Some? ==> err.value == MaxLinkError && maxLinkSize == old(maxLinkSize)
      ensures err.None? ==> maxLinkSize == value
    {
      if !IsInt(value) {
        return Some(MaxLinkError);
      }
      maxLinkSize := value;
      return None;
    }

    /** The search of an actor's network: capped at max_link_size, newest link first, and it matches a
        link exactly when the link is the actor's. */
    function GetSearchDict(actorId: string): (q: NetworkSearch)
      reads this
      ensures q.size == maxLinkSize && q.sort == [SortSpec("linked", "desc")]
      ensures forall l: NetworkLink :: SearchMatches(q, l) <==> l.actorId == actorId
    {
      NetworkSearch(maxLinkSize, actorId, [SortSpec("linked", "desc")])
    }

    /** add_network_link, with `freshId` standing for the new uuid. */
    method AddNetworkLink(link: NetworkLink, freshId: string) returns (r: Result<string>)
      requires freshId !in networkIndex
      modifies this`networkIndex
      ensures LinkExists(old(networkIndex), IdentityOf(link)) ==>
                r == Failure(LinkExistError) && networkIndex == old(networkIndex)
      ensures !LinkExists(old(networkIndex), IdentityOf(link)) ==>
                r == Success(freshId) && networkIndex == old(networkIndex)[freshId := link]
    {
      if LinkExists(networkIndex, IdentityOf(link)) {
        return Failure(LinkExistError);
      }
      networkIndex := networkIndex[freshId := link];
      return Success(freshId);
    }

    /** remove_network_link, given the identity its search dict asks for. */
    method RemoveNetworkLink(key: LinkIdentity) returns (r: Result<bool>)
      modifies this`networkIndex
      ensures LinkExists(old(networkIndex), key) ==>
                r == Success(true) && networkIndex == RemoveLink(old(networkIndex), key)
      ensures !LinkExists(old(networkIndex), key) ==>
                r == Failure(LinkNotExistError) && networkIndex == old(networkIndex)
    {
      if !LinkExists(networkIndex, key) {
        return Failure(LinkNotExistError);
      }
      networkIndex := RemoveLink(networkIndex, key);
      return Success(true);
    }

    /** Builds the linked activity and the link, then adds it. */
    method AddNew(actorId: string, id: string, activityClass: string, activityType: string, linkType: string,
                  linked: Timestamp, freshId: string) returns (err: Option<Error>)
      requires freshId !in networkIndex
      modifies this`networkIndex
      ensures var key := LinkIdentity(actorId, linkType, LinkedFields(activityClass, id, Lower(activityType)));
              var check := NewLinkCheck(actorId, id, activityClass, activityType);
              && (check.Some? ==> err == check && networkIndex == old(networkIndex))
              && (check.None? && LinkExists(old(networkIndex), key) ==>
                    err == Some(LinkExistError) && networkIndex == old(networkIndex))
              && (check.None? && !LinkExists(old(networkIndex), key) ==>
                    err.None? && networkIndex == old(networkIndex)[freshId := NewLink(linked, key)])
    {
      var la := LinkedActivityRecord.LinkedActivity.Create(id, activityClass, activityType);
      if la.Failure? {
        return Some(la.error);
      }
      if !IsId(actorId) {
        return Some(IDError);
      }
      var activity := LinkedFields(la.value.activityClass, la.value.activityId, la.value.activityType);
      var link := NewLink(linked, LinkIdentity(actorId, linkType, activity));
      var r := AddNetworkLink(link, freshId);
      if r.Failure? {
        return Some(r.error);
      }
      return None;
    }

    /** follow: an "actor" link of the caller's type. */
    method Follow(actorId: string, following: string, linked: Timestamp, activityType: string, freshId: string)
      returns (err: Option<Error>)
      requires freshId !in networkIndex
      modifies this`networkIndex
      ensures var key := FollowIdentity(actorId, following, activityType);
              var check := NewLinkCheck(actorId, following, "actor", activityType);
              && (check.Some? ==> err == check && networkIndex == old(networkIndex))
              && (check.None? && LinkExists(old(networkIndex), key) ==>
                    err == Some(LinkExistError) && networkIndex == old(networkIndex))
              && (check.None? && !LinkExists(old(networkIndex), key) ==>
                    err.None? && networkIndex == old(networkIndex)[freshId := NewLink(linked, key)])
    {
      err := AddNew(actorId, following, "actor", activityType, FollowLinkType, linked, freshId);
    }

    /** watch: an "object" link of link type "watch". */
    method Watch(actorId: string, watchId: string, watchType: string, linked: Timestamp, freshId: string)
      returns (err: Option<Error>)
      requires freshId !in networkIndex
      modifies this`networkIndex
      ensures var key := WatchIdentity(actorId, watchId, watchType);
              var check := NewLinkCheck(actorId, watchId, "object", watchType);
              && (check.Some? ==> err == check && networkIndex == old(networkIndex))
              && (check.None? && LinkExists(old(networkIndex), key) ==>
                    err == Some(LinkExistError) && networkIndex == old(networkIndex))
              && (check.None? && !LinkExists(old(networkIndex), key) ==>
                    err.None? && networkIndex == old(networkIndex)[freshId := NewLink(linked, key)])
    {
      err := AddNew(actorId, watchId, "object", watchType, WatchLinkType, linked, freshId);
    }

    /** Builds the linked activity and the link, then removes it. */
    method RemoveBuilt(actorId: string, id: string, activityClass: string, activityType: string,
                       linkType: string) returns (r: Result<bool>)
      modifies this`networkIndex
      ensures var key := LinkIdentity(actorId, linkType, LinkedFields(activityClass, id, Lower(activityType)));
              var check := NewLinkCheck(actorId, id, activityClass, activityType);
              && (check.Some? ==> r == Failure(check.value) && networkIndex == old(networkIndex))
              && (check.None? && LinkExists(old(networkIndex), key) ==>
                    r == Success(true) && networkIndex == RemoveLink(old(networkIndex), key))
              && (check.None? && !LinkExists(old(networkIndex), key) ==>
                    r == Failure(LinkNotExistError) && networkIndex == old(networkIndex))
    {
      var la := LinkedActivityRecord.LinkedActivity.Create(id, activityClass, activityType);
      if la.Failure? {
        return Failure(la.error);
      }
      if !IsId(actorId) {
        return Failure(IDError);
      }
      var activity := LinkedFields(la.value.activityClass, la.value.activityId, la.value.activityType);
      r := RemoveNetworkLink(LinkIdentity(actorId, linkType, activity));
    }

    /** un_follow: the linked activity keeps its default type "person". */
    method UnFollow(actorId: string, following: string) returns (r: Result<bool>)
      modifies this`networkIndex
      ensures var key := UnFollowIdentity(actorId, following);
              var check := NewLinkCheck(actorId, following, "actor", "person");
              && (check.Some? ==> r == Failure(check.value) && networkIndex == old(networkIndex))
              && (check.None? && LinkExists(old(networkIndex), key) ==>
                    r == Success(true) && networkIndex == RemoveLink(old(networkIndex), key))
              && (check.None? && !LinkExists(old(networkIndex), key) ==>
                    r == Failure(LinkNotExistError) && networkIndex == old(networkIndex))
    {
      LowerOfLowerCase("person");
      r := RemoveBuilt(actorId, following, "actor", "person", FollowLinkType);
    }

    method UnWatch(actorId: string, watchId: string, watchType: string) returns (r: Result<bool>)
      modifies this`networkIndex
      ensures var key := WatchIdentity(actorId, watchId, watchType);
              var check := NewLinkCheck(actorId, watchId, "object", watchType);
              && (check.Some? ==> r == Failure(check.value) && networkIndex == old(networkIndex))
              && (check.None? && LinkExists(old(networkIndex), key) ==>
                    r == Success(true) && networkIndex == RemoveLink(old(networkIndex), key))
              && (check.None? && !LinkExists(old(networkIndex), key) ==>
                    r == Failure(LinkNotExistError) && networkIndex == old(networkIndex))
    {
      r := RemoveBuilt(actorId, watchId, "object", watchType, WatchLinkType);
    }

    /** get_feeds as written: the aggregator receives the actor's network and compiles its query; only when
        there is one is it completed, sent through query_feeds and read by get_feeds. `networkResp` and
        `feedResp` are the engine's answers to GetSearchDict(agg.actorId) and to the completed query. */
    method GetFeedsAsWritten(agg: Aggregator, networkResp: Response<NetworkLink>, feedResp: Response<Dict>)
      returns (r: Result<Feeds>)
      modifies agg`networkArray, agg`queryDict, agg`esFeedResult
      ensures r == ManagedFeedsAsWritten(agg.kind, agg.year, agg.order, old(agg.esFeedResult), networkResp, feedResp)
      ensures NetworkOf(networkResp).Failure? ==>
                agg.networkArray == old(agg.networkArray) && agg.queryDict == old(agg.queryDict)
                && agg.esFeedResult == old(agg.esFeedResult)
      ensures NetworkOf(networkResp).Success? ==>
                var q := CompiledQuery(ShouldOf(agg.kind, agg.networkArray, agg.year), agg.order);
                var kept := StoredAfterQuery(old(agg.esFeedResult), feedResp);
                && agg.networkArray == NetworkOf(networkResp).value
                && (q.None? ==> agg.queryDict.None? && agg.esFeedResult == old(agg.esFeedResult))
                && (q.Some? ==>
                      agg.queryDict == Some(WithAggregation(agg.kind, q.value, agg.resultSize, agg.resultFrom,
                                                            agg.topHitsSize, Weights(agg.networkArray)))
                      && agg.esFeedResult == (if kept.Success? then kept.value else old(agg.esFeedResult)))
    {
      ghost var prev := agg.esFeedResult;
      var network := GetNetwork(networkResp);
      if network.Failure? {
        return Failure(network.error);
      }
      agg.SetNetworkArray(network.value);
      agg.SetQueryDict();
      if agg.queryDict.None? {
        return Success(NoFeeds(agg.kind));
      }
      var _ := agg.SetAggregationSection();
      var err := agg.QueryFeeds(feedResp);
      if err.Some? {
        return Failure(err.value);
      }
      assert agg.esFeedResult == StoredAfterQuery(prev, feedResp).value;
      r := agg.GetFeeds();
    }

    /** get_feeds: the aggregator receives the actor's network, compiles its query, and only when there is
        one is it completed, sent and read; `networkResp` and `feedResp` are the engine's answers to
        GetSearchDict(agg.actorId) and to the completed query. */
    method GetFeeds(agg: Aggregator, networkResp: Response<NetworkLink>, feedResp: Response<Dict>)
      returns (r: Result<Feeds>)
      modifies agg`networkArray, agg`queryDict, agg`esFeedResult
      ensures r == ManagedFeeds(agg.kind, agg.year, agg.order, networkResp, feedResp)
      ensures NetworkOf(networkResp).Failure? ==>
                agg.networkArray == old(agg.networkArray) && agg.queryDict == old(agg.queryDict)
                && agg.esFeedResult == old(agg.esFeedResult)
      ensures NetworkOf(networkResp).Success? ==>
                var q := CompiledQuery(ShouldOf(agg.kind, agg.networkArray, agg.year), agg.order);
                && agg.networkArray == NetworkOf(networkResp).value
                && (q.None? ==> agg.queryDict.None? && agg.esFeedResult == old(agg.esFeedResult))
                && (q.Some? ==>
                      agg.queryDict == Some(WithAggregation(agg.kind, q.value, agg.resultSize, agg.resultFrom,
                                                            agg.topHitsSize, Weights(agg.networkArray)))
                      && agg.esFeedResult == Some(feedResp))
    {
      var network := GetNetwork(networkResp);
      if network.Failure? {
        return Failure(network.error);
      }
      agg.SetNetworkArray(network.value);
      agg.SetQueryDict();
      if agg.queryDict.None? {
        return Success(NoFeeds(agg.kind));
      }
      var _ := agg.SetAggregationSection();
      agg.QueryFeedsCorrected(feedResp);
      r := agg.GetFeedsCorrected();
    }
  }
}
