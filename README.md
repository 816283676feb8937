# elasticfeeds in Dafny

This project models the core of elasticfeeds, a Python library for activity feeds kept in Elasticsearch.
Activities are "who did what to which object, when". An actor's network is the set of links it declared:
follow an actor, or watch an object. The feed of an actor is every activity of its network published after
the link was made, optionally grouped by an aggregator.

The model covers these parts:

- **Domain records.** The actor, object, target and origin entities, the activity, the linked activity of a
  network entry (both generations), and the network link of the earlier generation. Each is a class whose
  setters validate and update in place. Each `GetDict` is the stored document.
- **Network query compiler.** The links of a network become a disjunction of clauses over the feed index.
  The model has the plain compiler, the compiler with a year restriction, and the actor-only compiler. The
  date-weight aggregator adds a weight table and the score of its sort script.
- **Aggregators.** One `Aggregator` class with a `Kind` tag stands for the seven aggregator classes. It holds
  their configuration, the compiled query, the aggregation section, the kept response and the reshaped feeds.
- **Responses.** An engine response has a hit total, hits and nested terms buckets. Each aggregator's
  `get_feeds` loop turns it into groups.
- **Manager.** The network index is a map from document id to link. The manager adds and removes links,
  provides the follow/watch conveniences, reads an actor's network and orchestrates an aggregator.

The search engine is a parameter of the model. Wherever the source sends a search, the model receives the
engine's response as an argument. Python exceptions become `Failure(e)` results or `Some(e)` error values.
A Python `TypeError` from subscripting `None`, or from comparing a dict with an int, is the `TypeError`
error. Setter arguments whose Python type is checked at run time are values of a dynamic `Value` type.

## Model

| member | source | states |
|---|---|---|
| Common.ExtraOf | src/elasticfeeds/activity/actor.py:28-32 | the stored extra is absent exactly for None, else the given dict |
| Common.SplitOn | src/elasticfeeds/activity/actor.py:21-25 | `str.split(c)` has one more part than occurrences of `c`, and no part contains `c` |
| Common.SplitAtFirst | src/elasticfeeds/activity/activity.py:198-202 | splitting at the first separator gives the text before it, then the split of the rest |
| Common.SplitWithout | src/elasticfeeds/activity/actor.py:21-25 | a string without the separator splits into itself alone |
| Common.IsId | src/elasticfeeds/activity/actor.py:21-25 | `len(id.split(" ")) == 1` holds exactly when the id has no space |
| Common.Lower | src/elasticfeeds/activity/actor.py:28 | lowercasing keeps the length and maps every character through its lower case |
| Common.LowerKeyword | src/elasticfeeds/activity/actor.py:26-28 | a lowercased keyword is still alphabetic, is lower case, and lowercasing it again changes nothing |
| Common.EntityCheck | src/elasticfeeds/activity/actor.py:21-32 | construction fails with IDError, KeyWordError or ExtraTypeError, in that order, each exactly when its check is the first to fail |
| Common.EntityDict | src/elasticfeeds/activity/actor.py:82-90 | the entity document always has id and type, and has extra exactly when extra is set |
| Common.EntityDictRoundTrip | src/elasticfeeds/activity/actor.py:82-90 | parsing an entity document gives back its fields, and only that document parses to them |
| ActorEntity.Actor.Create | src/elasticfeeds/activity/actor.py:11-32 | fails exactly as EntityCheck says; on success the actor is valid, with its id and its lowercased type |
| ActorEntity.Actor.SetActorId | src/elasticfeeds/activity/actor.py:43-48 | IDError and no change for an id with a space, else the id is set |
| ActorEntity.Actor.SetActorType | src/elasticfeeds/activity/actor.py:60-63 | KeyWordError and no change for a non-alphabetic type, else the lowercased type is set |
| ActorEntity.Actor.SetExtra | src/elasticfeeds/activity/actor.py:76-80 | ExtraTypeError and no change unless the value is None or a dict, else extra is set |
| ActorEntity.Actor.GetDict | src/elasticfeeds/activity/actor.py:82-90 | the document's keys are id, type, and extra when set; it parses back to the actor's fields |
| ActorEntity.RebuildFromDict | src/elasticfeeds/activity/actor.py:82-90 | the fields read back from a valid actor's document pass the constructor's checks again |
| ObjectEntity.Object.Create | src/elasticfeeds/activity/object.py:12-35 | fails exactly as EntityCheck says; on success the object is valid, with its id and its lowercased type |
| ObjectEntity.Object.SetObjectId | src/elasticfeeds/activity/object.py:45-50 | IDError and no change for an id with a space, else the id is set |
| ObjectEntity.Object.SetObjectType | src/elasticfeeds/activity/object.py:62-65 | KeyWordError and no change for a non-alphabetic type, else the lowercased type is set |
| ObjectEntity.Object.SetExtra | src/elasticfeeds/activity/object.py:78-82 | ExtraTypeError and no change unless the value is None or a dict, else extra is set |
| ObjectEntity.Object.GetDict | src/elasticfeeds/activity/object.py:84-92 | the document's keys are id, type, and extra when set; it parses back to the object's fields |
| ObjectEntity.RebuildFromDict | src/elasticfeeds/activity/object.py:84-92 | the fields read back from a valid object's document pass the constructor's checks again |
| TargetEntity.Target.Create | src/elasticfeeds/activity/target.py:12-33 | fails exactly as EntityCheck says; on success the target is valid, with its id and its lowercased type |
| TargetEntity.Target.SetTargetId | src/elasticfeeds/activity/target.py:43-48 | IDError and no change for an id with a space, else the id is set |
| TargetEntity.Target.SetTargetType | src/elasticfeeds/activity/target.py:59-62 | KeyWordError and no change for a non-alphabetic type, else the lowercased type is set |
| TargetEntity.Target.SetExtra | src/elasticfeeds/activity/target.py:75-79 | ExtraTypeError and no change unless the value is None or a dict, else extra is set |
| TargetEntity.Target.GetDict | src/elasticfeeds/activity/target.py:81-89 | the document's keys are id, type, and extra when set; it parses back to the target's fields |
| TargetEntity.RebuildFromDict | src/elasticfeeds/activity/target.py:81-89 | the fields read back from a valid target's document pass the constructor's checks again |
| OriginEntity.Origin.Create | elasticfeeds/activity/origin.py:13-33 | fails exactly as EntityCheck says; on success the origin is valid, with its id and its lowercased type |
| OriginEntity.Origin.SetOriginId | elasticfeeds/activity/origin.py:44-49 | IDError and no change for an id with a space, else the id is set |
| OriginEntity.Origin.SetOriginType | elasticfeeds/activity/origin.py:60-63 | KeyWordError and no change for a non-alphabetic type, else the lowercased type is set |
| OriginEntity.Origin.SetExtra | elasticfeeds/activity/origin.py:76-80 | ExtraTypeError and no change unless the value is None or a dict, else extra is set |
| OriginEntity.Origin.GetDict | elasticfeeds/activity/origin.py:82-90 | the document's keys are id, type, and extra when set; it parses back to the origin's fields |
| OriginEntity.RebuildFromDict | elasticfeeds/activity/origin.py:82-90 | the fields read back from a valid origin's document pass the constructor's checks again |
| LegacyOriginEntity.Origin.Create | src/elasticfeeds/activity/origin.py:7-19 | fails exactly as EntityCheck says; on success the type is stored as given, not lowercased |
| LegacyOriginEntity.Origin.SetOriginId | src/elasticfeeds/activity/origin.py:26-31 | IDError and no change for an id with a space, else the id is set |
| LegacyOriginEntity.Origin.SetOriginType | src/elasticfeeds/activity/origin.py:38-41 | KeyWordError and no change for a non-alphabetic type, else the type is set as given |
| LegacyOriginEntity.Origin.SetExtra | src/elasticfeeds/activity/origin.py:48-52 | ExtraTypeError and no change unless the value is None or a dict, else extra is set |
| LegacyOriginEntity.Origin.GetDict | src/elasticfeeds/activity/origin.py:54-62 | the document's keys are id, type, and extra when set; it parses back to the origin's fields |
| LegacyOriginEntity.RebuildFromDict | src/elasticfeeds/activity/origin.py:54-62 | the fields read back from a valid origin's document pass the constructor's checks again |
| ActivityRecord.Digits | src/elasticfeeds/activity/activity.py:197 | each ISO field is written with exactly its width in decimal digits |
| ActivityRecord.IsoSplit | src/elasticfeeds/activity/activity.py:197-202 | splitting the ISO form at "T", then the time at ".", gives exactly the date and the time of day |
| ActivityRecord.SplitDateTime | src/elasticfeeds/activity/activity.py:198-202 | the same two splits, for any date without "T" and time without "." or "T" |
| ActivityRecord.SplitTimeFraction | src/elasticfeeds/activity/activity.py:200-201 | cutting the time part at its first "." leaves the time of day, with or without the microseconds |
| ActivityRecord.BaseDict | src/elasticfeeds/activity/activity.py:203-212 | the document always has the eight published, actor, type and object keys with their values |
| ActivityRecord.OptionalDict | src/elasticfeeds/activity/activity.py:212-217 | origin, target and extra keys are present exactly when each is set, with its value |
| ActivityRecord.ActivityDoc | src/elasticfeeds/activity/activity.py:192-218 | the activity document's keys are the required ones plus one per set optional part; published_date and published_time are the ISO date and time of day; every value is given |
| ActivityRecord.Activity.Create | src/elasticfeeds/activity/activity.py:71-80 | ExtraTypeError for a non-dict extra, then KeyWordError for a non-alphabetic type; on success the type is lowercased |
| ActivityRecord.Activity.SetActivityType | src/elasticfeeds/activity/activity.py:93-96 | KeyWordError and no change for a non-alphabetic type, else the lowercased type is set |
| ActivityRecord.Activity.SetActor | src/elasticfeeds/activity/activity.py:108-111 | the actor is replaced |
| ActivityRecord.Activity.SetObject | src/elasticfeeds/activity/activity.py:123-126 | the object is replaced |
| ActivityRecord.Activity.SetPublished | src/elasticfeeds/activity/activity.py:137-140 | the published date is replaced |
| ActivityRecord.Activity.SetOrigin | src/elasticfeeds/activity/activity.py:153-156 | OriginObjectError and no change for None, else the origin is set |
| ActivityRecord.Activity.SetTarget | src/elasticfeeds/activity/activity.py:170-173 | TargetObjectError and no change for None, else the target is set |
| ActivityRecord.Activity.SetExtra | src/elasticfeeds/activity/activity.py:186-190 | ExtraTypeError and no change unless the value is None or a dict, else extra is set |
| ActivityRecord.Activity.GetDict | src/elasticfeeds/activity/activity.py:192-218 | the stored document: the keys present exactly as ActivityDoc says, nested entity documents, date and time cut from the ISO form |
| LinkedActivityRecord.LinkedCheck | elasticfeeds/network/activity.py:21-33 | IDError for an id with a space, KeyWordError for a non-alphabetic class, ActivityClassError for a class other than actor or object, KeyWordError for a non-alphabetic type, each exactly when it is the first to fail |
| LinkedActivityRecord.LinkClassIsLowerCase | elasticfeeds/network/activity.py:28-29 | lowercasing an admitted class leaves it unchanged |
| LinkedActivityRecord.LinkedActivity.Create | elasticfeeds/network/activity.py:11-34 | fails exactly as LinkedCheck says; on success the class is actor or object and the type is lowercased |
| LinkedActivityRecord.LinkedActivity.SetActivityId | elasticfeeds/network/activity.py:45-50 | IDError and no change for an id with a space, else the id is set |
| LinkedActivityRecord.LinkedActivity.SetActivityClass | elasticfeeds/network/activity.py:61-67 | KeyWordError for a non-alphabetic class, ActivityClassError for another word, no change on either; else the class is set |
| LinkedActivityRecord.LinkedActivity.SetActivityType | elasticfeeds/network/activity.py:80-83 | KeyWordError and no change for a non-alphabetic type, else the lowercased type is set |
| LinkedActivityRecord.LinkedActivity.GetDict | elasticfeeds/network/activity.py:85-95 | the document has exactly activity_class, id and type; its class is actor or object |
| LinkedActivityRecord.ProjectionRevalidates | elasticfeeds/network/activity.py:85-95 | the fields of a valid linked activity's document pass the constructor's checks again |
| LegacyLinkedActivityRecord.LegacyLinkedCheck | src/elasticfeeds/network/activity.py:8-17 | IDError, then KeyWordError for the class, then for the type; any alphabetic class is admitted |
| LegacyLinkedActivityRecord.LinkedActivity.Create | src/elasticfeeds/network/activity.py:7-19 | fails exactly as LegacyLinkedCheck says; on success class and type are stored as given |
| LegacyLinkedActivityRecord.LinkedActivity.SetActivityId | src/elasticfeeds/network/activity.py:26-31 | IDError and no change for an id with a space, else the id is set |
| LegacyLinkedActivityRecord.LinkedActivity.SetActivityClass | src/elasticfeeds/network/activity.py:38-41 | KeyWordError and no change for a non-alphabetic class, else it is set as given |
| LegacyLinkedActivityRecord.LinkedActivity.SetActivityType | src/elasticfeeds/network/activity.py:48-51 | KeyWordError and no change for a non-alphabetic type, else it is set as given |
| LegacyLinkedActivityRecord.LinkedActivity.GetDict | src/elasticfeeds/network/activity.py:53-59 | the document has exactly class, id and type |
| LegacyLinkedActivityRecord.ProjectionRevalidates | src/elasticfeeds/network/activity.py:53-59 | the fields of a valid linked activity's document pass the constructor's checks again |
| NetworkLinkRecord.LinkCheck | src/elasticfeeds/network/network.py:8-39 | IDError for either id, KeyWordError for link type, class, then type, ExtraTypeError, WeightTypeError, each exactly when it is the first check to fail |
| NetworkLinkRecord.LinkDict | src/elasticfeeds/network/network.py:127-141 | the link document has the six link keys, plus extra exactly when set, with the link's date and weight |
| NetworkLinkRecord.LinkDictFields | src/elasticfeeds/network/network.py:127-141 | the document's nested fields hold the link's actor id, link type, class, type and component id |
| NetworkLinkRecord.SearchFindsSameKey | src/elasticfeeds/network/network.py:143-177 | a link's five-term search matches a link document exactly when both have the same five key fields |
| NetworkLinkRecord.SearchTermsInjective | src/elasticfeeds/network/network.py:143-177 | different links have different searches |
| NetworkLinkRecord.Link.Create | src/elasticfeeds/network/network.py:8-39 | fails exactly as LinkCheck says; on success every field is stored |
| NetworkLinkRecord.Link.CreateWithDefaults | src/elasticfeeds/network/network.py:8-9 | with the defaults only the ids can fail; the link is a follow of an actor of type person with weight 1 |
| NetworkLinkRecord.Link.SetActorId | src/elasticfeeds/network/network.py:46-52 | IDError and no change for an id with a space, else the id is set |
| NetworkLinkRecord.Link.SetComponentId | src/elasticfeeds/network/network.py:58-64 | IDError and no change for an id with a space, else the id is set |
| NetworkLinkRecord.Link.SetLinked | src/elasticfeeds/network/network.py:70-74 | the link date is replaced |
| NetworkLinkRecord.Link.SetLinkType | src/elasticfeeds/network/network.py:80-84 | KeyWordError and no change for a non-alphabetic link type, else it is set |
| NetworkLinkRecord.Link.SetComponentClass | src/elasticfeeds/network/network.py:90-94 | KeyWordError and no change for a non-alphabetic class, else it is set |
| NetworkLinkRecord.Link.SetComponentType | src/elasticfeeds/network/network.py:100-104 | KeyWordError and no change for a non-alphabetic type, else it is set |
| NetworkLinkRecord.Link.SetExtra | src/elasticfeeds/network/network.py:110-115 | ExtraTypeError and no change unless the value is None or a dict, else extra is set |
| NetworkLinkRecord.Link.SetWeight | src/elasticfeeds/network/network.py:121-126 | WeightTypeError and no change unless the value is an int or a float, else the weight is set |
| NetworkLinkRecord.Link.NetworkLink | src/elasticfeeds/network/network.py:127-141 | the link's document has the link keys, and extra exactly when set; the link's own search finds it |
| NetworkLinkRecord.Link.SearchForLink | src/elasticfeeds/network/network.py:143-177 | five terms, which match a link document exactly when it has this link's key |
| QueryCompiler.CountActor | src/elasticfeeds/aggregators/base.py:156-159 | the number of actor-class links is at most the number of links, and is zero exactly when no link has class actor |
| QueryCompiler.LinkClauses | src/elasticfeeds/aggregators/base.py:159-190 | an actor link gives one clause, any other link two |
| QueryCompiler.YearClauses | src/elasticfeeds/aggregators/yearmonthtype.py:36-95 | as many clauses as the base compiler, each restricted to the year when one is given (None otherwise) |
| QueryCompiler.BaseClauses | src/elasticfeeds/aggregators/base.py:151-190 | one clause per actor link and two per other link; none exactly when there are no links; no clause carries a year |
| QueryCompiler.BaseClausesAppend | src/elasticfeeds/aggregators/base.py:156-190 | the clauses of two link lists in a row are the clauses of each, in that order |
| QueryCompiler.ClausesInLinkOrder | src/elasticfeeds/aggregators/base.py:156-190 | the clauses of link j sit in the query right after the clauses of the links before it |
| QueryCompiler.YearNoneIsBase | src/elasticfeeds/aggregators/yearmonthtype.py:36-95 | without a year the year aggregator compiles the same query as the base compiler |
| QueryCompiler.YearSomeFiltersBase | src/elasticfeeds/aggregators/yearmonthtype.py:41-87 | with a year each base clause gains exactly that year restriction |
| QueryCompiler.ActorLinks | src/elasticfeeds/aggregators/dateweight.py:16-19 | the actor links of the network, each of them actor-class and one of the links |
| QueryCompiler.ActorOnlyClauses | src/elasticfeeds/aggregators/dateweight.py:11-36 | one clause per actor link, each on the actor field |
| QueryCompiler.ActorOnlyIsBaseOfActorLinks | src/elasticfeeds/aggregators/dateweight.py:11-36 | the date-weight query is the base query of the actor links alone; it is empty exactly without actor links |
| QueryCompiler.QueryMatchesAppend | src/elasticfeeds/aggregators/base.py:191-195 | a should-list matches an event when either part does |
| QueryCompiler.LinkClausesMeanCover | src/elasticfeeds/aggregators/base.py:159-190 | a link's clauses match an event exactly when the event is the linked actor's, or is on or into the watched object, since the link date |
| QueryCompiler.BaseQueryMeansNetwork | src/elasticfeeds/aggregators/base.py:151-197 | the compiled query matches an event exactly when some link of the network covers it |
| QueryCompiler.YearQueryMeansNetworkInYear | src/elasticfeeds/aggregators/yearmonthtype.py:36-95 | the year query matches exactly the network's events, and with a year only those published in it |
| QueryCompiler.ActorQueryMeansFollowedActor | src/elasticfeeds/aggregators/dateweight.py:11-36 | the date-weight query matches exactly the events of followed actors since their link date |
| QueryCompiler.ActorLinksCoverFollowed | src/elasticfeeds/aggregators/dateweight.py:16-19 | the filtered actor links cover an event exactly when some actor-class link of the network does |
| QueryCompiler.ActorLinksComplete | src/elasticfeeds/aggregators/dateweight.py:16-19 | every actor link of the network is kept |
| QueryCompiler.Weights | src/elasticfeeds/aggregators/dateweight.py:40-45 | one entry per actor link, in order, with its id and weight |
| QueryCompiler.ScriptScore | src/elasticfeeds/aggregators/dateweight.py:58 | weight 1 for an unknown actor, else the weight of the first entry with its id |
| QueryCompiler.ScoreOfNetwork | src/elasticfeeds/aggregators/dateweight.py:40-58 | an event's actor scores the weight of the first network link to it |
| QueryCompiler.WeightsPrefix | src/elasticfeeds/aggregators/dateweight.py:40-45 | the weights of a prefix of the links are a prefix of the weights |
| QueryCompiler.UnfollowedScoresOne | src/elasticfeeds/aggregators/dateweight.py:58 | an actor the network does not follow scores 1 |
| QueryCompiler.CompileBase | src/elasticfeeds/aggregators/base.py:155-190 | the loop builds BaseClauses |
| QueryCompiler.CompileActorOnly | src/elasticfeeds/aggregators/dateweight.py:15-29 | the loop builds ActorOnlyClauses |
| QueryCompiler.CompileYear | src/elasticfeeds/aggregators/yearmonthtype.py:40-87 | the loop builds YearClauses |
| QueryCompiler.BuildWeights | src/elasticfeeds/aggregators/dateweight.py:40-45 | the loop builds Weights |
| FeedResponse.PlainHasHits | src/elasticfeeds/aggregators/base.py:204 | `total > 0` succeeds only on a plain count and then says whether it is positive; a tracked total raises TypeError |
| FeedResponse.TrackedHasHits | src/elasticfeeds/aggregators/recenttypeobject.py:76 | `total["value"] > 0` succeeds only on a tracked total; a plain count raises TypeError |
| FeedResponse.CollectSources | src/elasticfeeds/aggregators/unaggregated.py:39-42 | the sources of the hits, one per hit, in order |
| FeedResponse.ReshapeByDate | src/elasticfeeds/aggregators/dateweight.py:110-118 | the loop builds DateGroups |
| FeedResponse.ReshapeByType | src/elasticfeeds/aggregators/recenttype.py:75-83 | the loop builds TypeGroups |
| FeedResponse.ReshapeById | src/elasticfeeds/aggregators/recenttypeobject.py:82-88 | the loop builds IdGroups |
| FeedResponse.ReshapeByObjectType | src/elasticfeeds/aggregators/recentobjecttype.py:92-105 | the loop builds ObjectGroups |
| FeedResponse.ReshapeByTypeObject | src/elasticfeeds/aggregators/recenttypeobject.py:76-91 | the loop builds TypeIdGroups |
| FeedResponse.ReshapeByYearMonthType | src/elasticfeeds/aggregators/yearmonthtype.py:179-197 | the nested loops build YearGroups |
| FeedResponse.SourcesAppend | src/elasticfeeds/aggregators/unaggregated.py:40-41 | the sources of two hit lists in a row are the sources of each |
| FeedResponse.TypeGroupsKeepHits | src/elasticfeeds/aggregators/recenttype.py:75-83 | the type groups hold exactly the top hits of the buckets, in order |
| FeedResponse.IdGroupsKeepHits | src/elasticfeeds/aggregators/recenttypeobject.py:82-88 | the id groups hold exactly the top hits of the buckets, in order |
| FeedResponse.DateGroupsKeepHits | src/elasticfeeds/aggregators/dateweight.py:110-118 | one group per date bucket, holding exactly its top hits, in order |
| FeedResponse.ObjectGroupsKeepHits | src/elasticfeeds/aggregators/recentobjecttype.py:92-105 | the object groups hold exactly the leaf hits of the two-level buckets, in order |
| FeedResponse.TypeIdGroupsKeepHits | src/elasticfeeds/aggregators/recenttypeobject.py:76-91 | the type groups hold exactly the leaf hits of the two-level buckets, in order |
| FeedResponse.MonthGroupsKeepHits | src/elasticfeeds/aggregators/yearmonthtype.py:183-194 | the month groups hold exactly the leaf hits of the two-level buckets, in order |
| FeedResponse.YearGroupsKeepHits | src/elasticfeeds/aggregators/yearmonthtype.py:179-197 | the year groups hold exactly the leaf hits of the three-level buckets, in order |
| Aggregators.SortArray | src/elasticfeeds/aggregators/base.py:147-149 | the feed is sorted by published date alone, in the configured order |
| Aggregators.AggregationSpec | src/elasticfeeds/aggregators/dateweight.py:47-79 | the aggs literal of every set_aggregation_section (also recenttype.py:10-43, recentobjecttype.py:9-57, recenttypeobject.py:9-43, yearmonthtype.py:96-144): none for the unaggregated aggregator, else one to three terms levels and top_hits_size hits with the same source fields; only the date-weight aggregator sorts hits by the weight script and leaves its dates level in the engine's order |
| Aggregators.QueryNoneIff | src/elasticfeeds/aggregators/base.py:191-197 | the query dict is None exactly when the network is empty (date weight: has no actor link); otherwise it sorts by published in the configured order |
| Aggregators.WithAggregation | src/elasticfeeds/aggregators/unaggregated.py:9-11 | the unaggregated query pages the hits; every other sets size 0 and adds its aggregations; the clauses and sort are kept |
| Aggregators.ReshapeKeepsLeafHits | src/elasticfeeds/aggregators/recenttype.py:45-83 | every aggregator's feeds hold exactly the leaf hits of the levels its aggregation section asked for |
| Aggregators.FeedsOf | src/elasticfeeds/aggregators/dateweight.py:110-118 | get_feeds as written: TypeError without a kept response or with a total of the other form; for a total of the form it reads, the reshaped response when the hit count is positive and `[]` otherwise |
| Aggregators.FeedsOfCorrected | src/elasticfeeds/aggregators/recenttypeobject.py:76 | get_feeds reading the hit count in either form: the reshape with hits, `[]` without |
| Aggregators.StoredAfterQuery | src/elasticfeeds/aggregators/base.py:199-205 | query_feeds as written: a tracked total raises TypeError; a positive count replaces the kept response; zero keeps the previous one |
| Aggregators.ZeroHitsFreshAggregatorFails | src/elasticfeeds/aggregators/base.py:204-205 | a fresh aggregator sent a zero-hit response still has no result, and get_feeds raises TypeError |
| Aggregators.ZeroHitsReusedAggregatorIsStale | src/elasticfeeds/aggregators/base.py:204-205 | a reused aggregator sent a zero-hit response returns the previous feeds |
| Aggregators.FeedsFollowLatestResponse | src/elasticfeeds/aggregators/base.py:199-205 | once every response is kept, the feeds are `[]` without hits and the latest response's reshape with hits |
| Aggregators.TrackedReaderNeverSucceeds | src/elasticfeeds/aggregators/recenttypeobject.py:76 | as written, an aggregator reading `total["value"]` behind query_feeds never returns feeds |
| Aggregators.CorrectedFeedsAlwaysRead | src/elasticfeeds/aggregators/recenttypeobject.py:76 | once corrected, a kept response is always readable |
| Aggregators.Aggregator.Create | src/elasticfeeds/aggregators/base.py:12-35 | IDError for an actor id with a space, the year error for a non-int year; the defaults desc, 10000, 0 and 100 with an empty network |
| Aggregators.Aggregator.SetResultFrom | src/elasticfeeds/aggregators/base.py:47-50 | FromError and no change for a non-int, else the offset is set |
| Aggregators.Aggregator.SetResultSize | src/elasticfeeds/aggregators/base.py:61-64 | SizeError and no change for a non-int, else the size is set |
| Aggregators.Aggregator.SetTopHitsSize | src/elasticfeeds/aggregators/base.py:75-78 | SizeError and no change for a non-int, else the top hits size is set |
| Aggregators.Aggregator.SetActorId | src/elasticfeeds/aggregators/base.py:89-94 | IDError and no change for an id with a space, else the id is set |
| Aggregators.Aggregator.SetOrder | src/elasticfeeds/aggregators/base.py:129-133 | OrderError and no change unless asc or desc, else the order is set |
| Aggregators.Aggregator.SetYear | src/elasticfeeds/aggregators/yearmonthtype.py:31-34 | the year error and no change for a non-int, else the year is set |
| Aggregators.Aggregator.SetNetworkArray | src/elasticfeeds/aggregators/base.py:144-145 | the network is replaced |
| Aggregators.Aggregator.SetQueryDict | src/elasticfeeds/aggregators/base.py:151-197 | the query dict is the compiled query of the aggregator's kind, network, year and order |
| Aggregators.Aggregator.SetAggregationSection | src/elasticfeeds/aggregators/dateweight.py:38-79 | TypeError on a None query dict; else the query dict gains the kind's size, offset and aggregations |
| Aggregators.Aggregator.QueryFeeds | src/elasticfeeds/aggregators/base.py:199-205 | the kept response changes as StoredAfterQuery says |
| Aggregators.Aggregator.QueryFeedsCorrected | src/elasticfeeds/aggregators/base.py:199-205 | every response is kept |
| Aggregators.Aggregator.GetFeeds | src/elasticfeeds/aggregators/yearmonthtype.py:146-197 | get_feeds as written returns FeedsOf of the kept response |
| Aggregators.Aggregator.GetFeedsCorrected | src/elasticfeeds/aggregators/recenttypeobject.py:45-91 | get_feeds reading either total form returns FeedsOfCorrected of the kept response |
| Aggregators.ReshapeFeeds | src/elasticfeeds/aggregators/recentobjecttype.py:59-105 | each kind's loops build that kind's reshape |
| NetworkManager.RemoveLink | elasticfeeds/manager/manager.py:401-420 | removal deletes every document of the link and keeps every other one unchanged |
| NetworkManager.AddKeepsIdentitiesUnique | elasticfeeds/manager/manager.py:378-399 | adding a link not yet stored keeps every stored link unique |
| NetworkManager.RemoveKeepsIdentitiesUnique | elasticfeeds/manager/manager.py:401-420 | removing keeps every stored link unique |
| NetworkManager.AddedLinkExists | elasticfeeds/manager/manager.py:359-376 | a link just added is found by its own search |
| NetworkManager.RemoveUndoesAdd | elasticfeeds/manager/manager.py:378-420 | removing a link just added gives back the network as it was |
| NetworkManager.RemoveDeletesOneDocument | elasticfeeds/manager/manager.py:401-420 | in a network of unique links, removing a link deletes exactly its one document |
| NetworkManager.NewLink | elasticfeeds/manager/manager.py:422-441 | follow and watch store a link with the given identity and date, weight 1 and no extra |
| NetworkManager.NewLinkCheck | elasticfeeds/manager/manager.py:439-440 | building the link fails with the linked activity's error first, then IDError for the actor id |
| NetworkManager.UnFollowFindsFollowIff | elasticfeeds/manager/manager.py:443-452 | un_follow searches for the link follow declared exactly when that link's type lowercases to person |
| NetworkManager.UnFollowUndoesFollow | elasticfeeds/manager/manager.py:422-452 | un_follow after a follow of the default type gives back the network as it was |
| NetworkManager.UnFollowKeepsOtherTypes | elasticfeeds/manager/manager.py:443-452 | a follow of another type survives un_follow |
| NetworkManager.UnWatchUndoesWatch | elasticfeeds/manager/manager.py:454-477 | un_watch after a watch gives back the network as it was |
| NetworkManager.NetworkOf | elasticfeeds/manager/manager.py:512-528 | the network is the hits' sources, in order, when `total["value"]` is positive, `[]` when not; a plain count raises TypeError |
| NetworkManager.GetNetwork | elasticfeeds/manager/manager.py:517-526 | the loop builds NetworkOf |
| NetworkManager.ManagedFeeds | elasticfeeds/manager/manager.py:530-551 | get_feeds with the corrected query_feeds and get_feeds: TypeError when the network cannot be read; `[]` for an empty network (date weight: no actor link) without using the feed response; else the corrected feeds of the feed response |
| NetworkManager.ManagedFeedsAsWritten | elasticfeeds/manager/manager.py:530-551 | get_feeds as written, behind src/elasticfeeds/aggregators/base.py's query_feeds: TypeError when the network cannot be read, `[]` without a query; with a query, TypeError for a tracked feed total, the feeds of the response for a positive plain total, and the feeds of the previously kept response otherwise |
| NetworkManager.AsWrittenAgreesWithHits | elasticfeeds/manager/manager.py:544-547 | with a positive plain hit count read by a plain-count aggregator, the pipeline as written and the corrected one give the same feeds |
| NetworkManager.AsWrittenZeroHitsFails | elasticfeeds/manager/manager.py:544-547 | a fresh aggregator with a query and a zero-hit feed response raises TypeError as written, where the corrected pipeline gives `[]` |
| NetworkManager.AsWrittenTrackedReaderFails | elasticfeeds/manager/manager.py:544-547 | behind src/elasticfeeds/aggregators/base.py's query_feeds, an aggregator reading `hits.total.value` never gets feeds through get_feeds once its network compiles to a query |
| NetworkManager.Manager.Init | elasticfeeds/manager/manager.py:236-262 | the link cap is stored as given |
| NetworkManager.Manager.Default | elasticfeeds/manager/manager.py:236 | the link cap defaults to 1000 |
| NetworkManager.Manager.SetMaxLinkSize | elasticfeeds/manager/manager.py:329-333 | MaxLinkError and no change for a non-int, else the cap is set |
| NetworkManager.Manager.GetSearchDict | elasticfeeds/manager/manager.py:499-510 | the network search is capped at max_link_size, newest link first, and matches a link exactly when it is the actor's |
| NetworkManager.Manager.AddNetworkLink | elasticfeeds/manager/manager.py:378-399 | LinkExistError and no change for a stored link, else exactly one document under the new id |
| NetworkManager.Manager.RemoveNetworkLink | elasticfeeds/manager/manager.py:401-420 | LinkNotExistError and no change for a missing link, else True and every matching document gone |
| NetworkManager.Manager.Follow | elasticfeeds/manager/manager.py:422-441 | the build errors, else LinkExistError or exactly one new actor link of the lowercased type |
| NetworkManager.Manager.UnFollow | elasticfeeds/manager/manager.py:443-452 | removes the actor link of type person, or fails as remove_network_link does |
| NetworkManager.Manager.Watch | elasticfeeds/manager/manager.py:454-465 | the build errors, else LinkExistError or exactly one new watch link to the object |
| NetworkManager.Manager.UnWatch | elasticfeeds/manager/manager.py:467-477 | removes the watch link to the object, or fails as remove_network_link does |
| NetworkManager.Manager.GetFeeds | elasticfeeds/manager/manager.py:530-551 | the aggregator gets the network and its compiled query; only when the query exists is it completed and the response kept; the result is ManagedFeeds |
| NetworkManager.Manager.GetFeedsAsWritten | elasticfeeds/manager/manager.py:530-551 | the same steps through the aggregator's own get_feeds and the query_feeds of src/elasticfeeds/aggregators/base.py: the response is kept as StoredAfterQuery says and the result is ManagedFeedsAsWritten |

## Left out

- Connection and index plumbing is not modelled: `create_connection`, index creation and deletion, the index
  mappings, `add_activity_feed` and the raw query pass-throughs. The engine's answers are parameters instead.
- Term matching is modelled as exact string equality (QueryCompiler.ClauseMatches,
  NetworkLinkRecord.TermMatches, NetworkManager.LinkExists, NetworkManager.SearchMatches). That is how a
  term query behaves on the keyword fields of the index mappings (elasticfeeds/manager/manager.py:92-131
  and 172-186).
- The rest of the engine's search semantics is not modelled: top-hits size, sort order and the link cap of a
  response. Each response is taken as given.
- `uuid.uuid4()` is not modelled; `AddNetworkLink`, `Follow` and `Watch` take the new id as a parameter that
  is not yet in the store.
- `datetime.datetime.now()` default arguments are not modelled; link and activity dates are always given.
  Python evaluates such a default once, when the module is loaded (elasticfeeds/manager/manager.py:426 and
  454, src/elasticfeeds/activity/activity.py:30). So every follow, watch or activity created without a date
  gets the same date, the module's load time, not the time of the call. `un_follow` and `un_watch` build a
  link with such a default date, which their search does not use.
- isinstance checks on class-typed arguments are not modelled: ActorObjectError, ObjectObjectError,
  PublishedTypeError, LinkedTypeError, LinkObjectError, ActivityObjectError and AggregatorObjectError. Dafny's
  static types already exclude those arguments. The None checks of the activity's origin and target setters
  remain.
- In Python, `bool` is a subclass of `int`. The model's `IsInt` and `IsNumber` do not admit booleans.
- `str.isalpha` and `str.lower` are modelled for ASCII letters only.
- The `DotMap` wrapper of the older type aggregator's groups is not modelled; its groups are plain records.
- The aggregation names and field paths of each aggregation section are abstracted into the levels of
  `AggSpec`. The painless sort script is modelled by `ScriptScore`.
- `query_feeds` does nothing when the connection is None; the model always has an engine.
- The exception classes (src/elasticfeeds/exceptions/exceptions.py) are constructors of `Error`, without
  their messages.
- elasticfeeds/network/network.py, the Link class the manager builds, is not part of this model. The
  manager's link is the `NetworkLink` record. Its identity is its actor id, link type and linked
  activity, the five fields the earlier Link's search asks for (src/elasticfeeds/network/network.py:143-177).
  In follow, watch, un_follow and un_watch only the actor-id check of building it can fail: the linked
  activity was already validated and the other arguments are the defaults (link type follow or watch,
  weight 1, no extra).
- elasticfeeds/aggregators/base.py is not part of this model. The later type aggregator, which reads
  `total["value"]`, is modelled behind the query_feeds of src/elasticfeeds/aggregators/base.py.
- NetworkManager.ManagedFeeds: states the feeds of the corrected query_feeds and get_feeds (see Findings),
  not those of manager.py:546-547 as written. The as-written result is NetworkManager.ManagedFeedsAsWritten.
- NetworkManager.ManagedFeedsAsWritten: together with NetworkManager.Manager.GetFeedsAsWritten,
  NetworkManager.AsWrittenAgreesWithHits, NetworkManager.AsWrittenZeroHitsFails and
  NetworkManager.AsWrittenTrackedReaderFails, it composes elasticfeeds/manager/manager.py:530-551 with the
  query_feeds of src/elasticfeeds/aggregators/base.py:199-205. The manager's own aggregator base,
  elasticfeeds/aggregators/base.py, is not part of this model. So the TypeError for a tracked feed total,
  and the failure of every aggregator reading `hits.total.value`, follow from that query_feeds. They are
  not promises of manager.py itself.
- NetworkManager.Manager.GetFeeds: orchestrates with the corrected query_feeds and get_feeds (see Findings).
  The as-written method is NetworkManager.Manager.GetFeedsAsWritten.
- ActivityRecord.ActivityDoc: only naive datetimes are modelled, and every month may have 31 days. The
  published setter (src/elasticfeeds/activity/activity.py:137-140) also accepts an aware datetime, whose
  isoformat ends in `+HH:MM`. For such a datetime without microseconds, the source's published_time keeps
  that offset, so it is not the time of day the contract states.
- ActivityRecord.Activity.GetDict: the same naive-datetime restriction as ActivityRecord.ActivityDoc.

## Findings

| source | as written | input that shows it | evidently intended | confidence | as-written member | corrected member |
|---|---|---|---|---|---|---|
| src/elasticfeeds/aggregators/base.py:204-205 | query_feeds keeps the response only when `hits.total > 0` | a fresh aggregator with a non-empty network, sent a response with total 0: get_feeds subscripts None and raises TypeError; a reused aggregator returns the previous response's feeds | every response is kept, so zero hits give `[]` | not executed | Aggregators.ZeroHitsFreshAggregatorFails | Aggregators.FeedsFollowLatestResponse |
| src/elasticfeeds/aggregators/recenttypeobject.py:76 | get_feeds reads `hits.total["value"]` while query_feeds compares `hits.total` with 0 | any response: a `{value, relation}` total makes query_feeds raise TypeError; a plain count makes get_feeds raise TypeError | the hit count is read in the form the engine returns | not executed | Aggregators.TrackedReaderNeverSucceeds | Aggregators.CorrectedFeedsAlwaysRead |
