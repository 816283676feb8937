/** The network query compiler of the aggregators (src/elasticfeeds/aggregators/base.py, dateweight.py and
    yearmonthtype.py): the links of an actor's network become a disjunction of conjunctive clauses over the
    feed index, and, for the date-weight aggregator, a weight table and the score its sort script computes. */
module QueryCompiler {
  import opened Common

  // ---------------------------------------------------------------------------
  // Network documents

  /** The `linked_activity` part of a network document: what is followed or watched. */
  datatype LinkedFields = LinkedFields(activityClass: string, id: string, activityType: string)

  /** A document of the network index as the aggregators read it: since when the link holds, whose network
      it belongs to, the kind of link, what it links to, its weight and its extra data. */
  datatype NetworkLink = NetworkLink(linked: Timestamp, actorId: string, linkType: string,
                                     activity: LinkedFields, weight: real, extra: Option<Extra>)

  /** `linked_activity["activity_class"] == "actor"`: an exact, case-sensitive comparison. */
  predicate IsActorLink(l: NetworkLink) {
    l.activity.activityClass == "actor"
  }

  /** How many links of the network are actor-class links: none exactly when no link is of class actor. */
  function CountActor(links: seq<NetworkLink>): (n: nat)
    ensures n <= |links|
    ensures n == 0 <==> forall k :: 0 <= k < |links| ==> !IsActorLink(links[k])
  {
    if links == [] then 0
    else CountActor(links[..|links| - 1]) + (if IsActorLink(links[|links| - 1]) then 1 else 0)
  }

  // ---------------------------------------------------------------------------
  // Clauses

  /** The part of an activity document a clause looks at. */
  datatype Field = ActorField | ObjectField | TargetField

  /** One `bool.must` item of the `should` list: `<field>.id == id`, `<field>.type == type`,
      `published >= since` and, when year is set, `published_year == year`. */
  datatype Clause = Clause(field: Field, id: string, entityType: string, since: Timestamp, year: Option<int>)

  function MakeClause(field: Field, l: NetworkLink): Clause {
    Clause(field, l.activity.id, l.activity.activityType, l.linked, None)
  }

  /** The clauses one link contributes in base.py: one on the actor for an actor-class link, otherwise one
      on the object followed by one on the target. */
  function LinkClauses(l: NetworkLink): (cs: seq<Clause>)
    ensures |cs| == if IsActorLink(l) then 1 else 2
  {
    if IsActorLink(l) then [MakeClause(ActorField, l)]
    else [MakeClause(ObjectField, l), MakeClause(TargetField, l)]
  }

  /** The `should` list of base.py's set_query_dict: the links' clauses, in link order. */
  function BaseClauses(links: seq<NetworkLink>): (cs: seq<Clause>)
    ensures |cs| == CountActor(links) + 2 * (|links| - CountActor(links))
    ensures |cs| == 0 <==> |links| == 0
    ensures forall k :: 0 <= k < |cs| ==> cs[k].year.None?
  {
    if links == [] then []
    else BaseClauses(links[..|links| - 1]) + LinkClauses(links[|links| - 1])
  }

  /** Compiling a concatenation of networks concatenates their clause lists. */
  lemma {:induction false} BaseClausesAppend(a: seq<NetworkLink>, b: seq<NetworkLink>)
    ensures BaseClauses(a + b) == BaseClauses(a) + BaseClauses(b)
    decreases |b|
  {
    if b == [] {
      assert a + b == a;
    } else {
      var b0 := b[..|b| - 1];
      assert (a + b)[..|a + b| - 1] == a + b0;
      assert (a + b)[|a + b| - 1] == b[|b| - 1];
      BaseClausesAppend(a, b0);
    }
  }

  /** The clauses of the j-th link sit, contiguously, right after those of the links before it. */
  lemma ClausesInLinkOrder(links: seq<NetworkLink>, j: nat)
    requires j < |links|
    ensures |BaseClauses(links[..j])| + |LinkClauses(links[j])| <= |BaseClauses(links)|
    ensures var off := |BaseClauses(links[..j])|;
            BaseClauses(links)[off .. off + |LinkClauses(links[j])|] == LinkClauses(links[j])
  {
    assert links == links[..j] + [links[j]] + links[j + 1..];
    BaseClausesAppend(links[..j] + [links[j]], links[j + 1..]);
    BaseClausesAppend(links[..j], [links[j]]);
    assert BaseClauses([links[j]]) == LinkClauses(links[j]) by {
      assert [links[j]][..0] == [];
    }
  }

  // ---------------------------------------------------------------------------
  // The year-filtered compiler of yearmonthtype.py

  /** `if self.year is not None: must.append({"term": {"published_year": year}})` */
  function WithYear(c: Clause, year: Option<int>): Clause {
    if year.Some? then c.(year := year) else c
  }

  function YearLinkClauses(l: NetworkLink, year: Option<int>): seq<Clause> {
    if IsActorLink(l) then [WithYear(MakeClause(ActorField, l), year)]
    else [WithYear(MakeClause(ObjectField, l), year), WithYear(MakeClause(TargetField, l), year)]
  }

  /** The `should` list of YearMonthTypeAggregator.set_query_dict: as many clauses as the base compiler,
      each restricted to the year when one is given. */
  function YearClauses(links: seq<NetworkLink>, year: Option<int>): (cs: seq<Clause>)
    ensures |cs| == |BaseClauses(links)|
    ensures forall k :: 0 <= k < |cs| ==> cs[k].year == year
  {
    if links == [] then []
    else YearClauses(links[..|links| - 1], year) + YearLinkClauses(links[|links| - 1], year)
  }

  /** With no year the year-filtered compiler emits exactly the base compiler's clauses. */
  lemma {:induction false} YearNoneIsBase(links: seq<NetworkLink>)
    ensures YearClauses(links, None) == BaseClauses(links)
  {
    if links != [] {
      YearNoneIsBase(links[..|links| - 1]);
    }
  }

  /** With a year every base clause, in the same position, gains the published_year term. */
  lemma {:induction false} YearSomeFiltersBase(links: seq<NetworkLink>, y: int)
    ensures |YearClauses(links, Some(y))| == |BaseClauses(links)|
    ensures forall k :: 0 <= k < |BaseClauses(links)| ==>
              YearClauses(links, Some(y))[k] == BaseClauses(links)[k].(year := Some(y))
  {
    if links != [] {
      YearSomeFiltersBase(links[..|links| - 1], y);
    }
  }

  // ---------------------------------------------------------------------------
  // The actor-only compiler of dateweight.py

  /** The actor-class links, in network order. */
  function ActorLinks(links: seq<NetworkLink>): (r: seq<NetworkLink>)
    ensures |r| == CountActor(links)
    ensures forall k :: 0 <= k < |r| ==> IsActorLink(r[k]) && r[k] in links
  {
    if links == [] then []
    else
      var prev := ActorLinks(links[..|links| - 1]);
      var last := links[|links| - 1];
      assert forall k :: 0 <= k < |prev| ==> prev[k] in links[..|links| - 1];
      if IsActorLink(last) then prev + [last] else prev
  }

  /** The `should` list of DateWeightAggregator.set_query_dict: one actor clause per actor-class link. */
  function ActorOnlyClauses(links: seq<NetworkLink>): (cs: seq<Clause>)
    ensures |cs| == CountActor(links)
    ensures forall k :: 0 <= k < |cs| ==> cs[k].field == ActorField
  {
    if links == [] then []
    else
      var last := links[|links| - 1];
      var prev := ActorOnlyClauses(links[..|links| - 1]);
      if IsActorLink(last) then prev + [MakeClause(ActorField, last)] else prev
  }

  /** The date-weight compiler is the base compiler run on the actor-class links alone; in particular a
      network without actor-class links gives no clauses. */
  lemma {:induction false} ActorOnlyIsBaseOfActorLinks(links: seq<NetworkLink>)
    ensures ActorOnlyClauses(links) == BaseClauses(ActorLinks(links))
    ensures ActorOnlyClauses(links) == [] <==> CountActor(links) == 0
  {
    if links != [] {
      var init := links[..|links| - 1];
      var last := links[|links| - 1];
      ActorOnlyIsBaseOfActorLinks(init);
      if IsActorLink(last) {
        BaseClausesAppend(ActorLinks(init), [last]);
        assert [last][..0] == [];
      }
    }
  }

  // ---------------------------------------------------------------------------
  // What a compiled query selects

  datatype EntityRef = EntityRef(id: string, entityType: string)

  /** The fields of an activity document the compiled queries test. */
  datatype Event = Event(actor: EntityRef, obj: EntityRef, target: Option<EntityRef>, published: Timestamp,
                         year: int)

  /** The term and range tests of one clause, evaluated on an event. */
  predicate ClauseMatches(c: Clause, e: Event) {
    var r := match c.field
      case ActorField => Some(e.actor)
      case ObjectField => Some(e.obj)
      case TargetField => e.target;
    r.Some? && r.value.id == c.id && r.value.entityType == c.entityType && e.published >= c.since
    && (c.year.Some? ==> e.year == c.year.value)
  }

  /** `bool.should`: at least one clause matches. */
  predicate QueryMatches(cs: seq<Clause>, e: Event) {
    exists k :: 0 <= k < |cs| && ClauseMatches(cs[k], e)
  }

  /** What a link means, stated on its own: since the link was made, an actor-class link brings in the
      activities of that actor, any other link the activities on or to that object. */
  predicate LinkCovers(l: NetworkLink, e: Event) {
    var r := EntityRef(l.activity.id, l.activity.activityType);
    e.published >= l.linked && if IsActorLink(l) then e.actor == r else e.obj == r || e.target == Some(r)
  }

  predicate InNetwork(links: seq<NetworkLink>, e: Event) {
    exists j :: 0 <= j < |links| && LinkCovers(links[j], e)
  }

  lemma QueryMatchesAppend(a: seq<Clause>, b: seq<Clause>, e: Event)
    ensures QueryMatches(a + b, e) <==> QueryMatches(a, e) || QueryMatches(b, e)
  {
    if QueryMatches(a + b, e) {
      var k :| 0 <= k < |a + b| && ClauseMatches((a + b)[k], e);
      if k >= |a| {
        assert b[k - |a|] == (a + b)[k];
      }
    }
    if QueryMatches(a, e) {
      var k :| 0 <= k < |a| && ClauseMatches(a[k], e);
      assert (a + b)[k] == a[k];
    }
    if QueryMatches(b, e) {
      var k :| 0 <= k < |b| && ClauseMatches(b[k], e);
      assert (a + b)[|a| + k] == b[k];
    }
  }

  /** A link's own clauses select exactly the events it covers. */
  lemma LinkClausesMeanCover(l: NetworkLink, e: Event)
    ensures QueryMatches(LinkClauses(l), e) <==> LinkCovers(l, e)
  {
    var cs := LinkClauses(l);
    var r := EntityRef(l.activity.id, l.activity.activityType);
    if IsActorLink(l) {
      if LinkCovers(l, e) {
        assert ClauseMatches(cs[0], e);
      }
    } else {
      if LinkCovers(l, e) {
        if e.obj == r {
          assert ClauseMatches(cs[0], e);
        } else {
          assert ClauseMatches(cs[1], e);
        }
      }
      if QueryMatches(cs, e) {
        var k :| 0 <= k < |cs| && ClauseMatches(cs[k], e);
        assert k == 0 || k == 1;
      }
    }
  }

  /** The base query selects exactly the events the network covers. */
  lemma {:induction false} BaseQueryMeansNetwork(links: seq<NetworkLink>, e: Event)
    ensures QueryMatches(BaseClauses(links), e) <==> InNetwork(links, e)
  {
    if links != [] {
      var init := links[..|links| - 1];
      var last := links[|links| - 1];
      BaseQueryMeansNetwork(init, e);
      QueryMatchesAppend(BaseClauses(init), LinkClauses(last), e);
      LinkClausesMeanCover(last, e);
      if InNetwork(links, e) {
        var j :| 0 <= j < |links| && LinkCovers(links[j], e);
        if j < |init| {
          assert init[j] == links[j];
        }
      }
      if InNetwork(init, e) {
        var j :| 0 <= j < |init| && LinkCovers(init[j], e);
        assert links[j] == init[j];
      }
    }
  }

  /** With a year, the query selects the events the network covers that were published in that year;
      without one, it is the base query. */
  lemma YearQueryMeansNetworkInYear(links: seq<NetworkLink>, year: Option<int>, e: Event)
    ensures year.None? ==> (QueryMatches(YearClauses(links, year), e) <==> InNetwork(links, e))
    ensures year.Some? ==>
              (QueryMatches(YearClauses(links, year), e) <==> InNetwork(links, e) && e.year == year.value)
  {
    BaseQueryMeansNetwork(links, e);
    if year.None? {
      YearNoneIsBase(links);
    } else {
      var y := year.value;
      var base := BaseClauses(links);
      var filtered := YearClauses(links, year);
      YearSomeFiltersBase(links, y);
      if QueryMatches(filtered, e) {
        var k :| 0 <= k < |filtered| && ClauseMatches(filtered[k], e);
        assert ClauseMatches(base[k], e);
      }
      if QueryMatches(base, e) && e.year == y {
        var k :| 0 <= k < |base| && ClauseMatches(base[k], e);
        assert ClauseMatches(filtered[k], e);
      }
    }
  }

  /** The date-weight query selects exactly the events whose actor some actor-class link follows. */
  lemma ActorQueryMeansFollowedActor(links: seq<NetworkLink>, e: Event)
    ensures QueryMatches(ActorOnlyClauses(links), e)
            <==> exists j :: 0 <= j < |links| && IsActorLink(links[j]) && LinkCovers(links[j], e)
  {
    ActorOnlyIsBaseOfActorLinks(links);
    BaseQueryMeansNetwork(ActorLinks(links), e);
    ActorLinksCoverFollowed(links, e);
  }

  /** An event is covered by some actor link exactly when some actor-class link of the network covers it. */
  lemma ActorLinksCoverFollowed(links: seq<NetworkLink>, e: Event)
    ensures InNetwork(ActorLinks(links), e)
            <==> exists j :: 0 <= j < |links| && IsActorLink(links[j]) && LinkCovers(links[j], e)
  {
    var actors := ActorLinks(links);
    if InNetwork(actors, e) {
      var j :| 0 <= j < |actors| && LinkCovers(actors[j], e);
      var i :| 0 <= i < |links| && links[i] == actors[j];
      assert IsActorLink(links[i]) && LinkCovers(links[i], e);
    }
    if exists j :: 0 <= j < |links| && IsActorLink(links[j]) && LinkCovers(links[j], e) {
      var j :| 0 <= j < |links| && IsActorLink(links[j]) && LinkCovers(links[j], e);
      ActorLinksComplete(links, j);
    }
  }

  /** Every actor-class link appears among the actor links. */
  lemma {:induction false} ActorLinksComplete(links: seq<NetworkLink>, j: nat)
    requires j < |links| && IsActorLink(links[j])
    ensures links[j] in ActorLinks(links)
  {
    if j < |links| - 1 {
      var init := links[..|links| - 1];
      ActorLinksComplete(init, j);
    }
  }

  // ---------------------------------------------------------------------------
  // The weight table and the sort script of dateweight.py

  /** One `{"id": ..., "weight": ...}` entry of the script's parameters. */
  datatype WeightEntry = WeightEntry(id: string, weight: real)

  /** The weight table: one entry per actor-class link, in network order. */
  function Weights(links: seq<NetworkLink>): (ws: seq<WeightEntry>)
    ensures |ws| == CountActor(links)
    ensures forall k :: 0 <= k < |ws| ==>
              ws[k] == WeightEntry(ActorLinks(links)[k].activity.id, ActorLinks(links)[k].weight)
  {
    if links == [] then []
    else
      var last := links[|links| - 1];
      var prev := Weights(links[..|links| - 1]);
      if IsActorLink(last) then prev + [WeightEntry(last.activity.id, last.weight)] else prev
  }

  predicate HasId(ws: seq<WeightEntry>, id: string) {
    exists i :: 0 <= i < |ws| && ws[i].id == id
  }

  /** The painless sort script: the weight of the first entry whose id is the event's actor id, or 1. */
  function ScriptScore(ws: seq<WeightEntry>, actorId: string): (score: real)
    ensures !HasId(ws, actorId) ==> score == 1.0
    ensures HasId(ws, actorId) ==>
              exists i :: 0 <= i < |ws| && ws[i].id == actorId && score == ws[i].weight
                          && forall j :: 0 <= j < i ==> ws[j].id != actorId
  {
    if ws == [] then 1.0
    else if ws[0].id == actorId then ws[0].weight
    else
      var rest := ScriptScore(ws[1..], actorId);
      assert HasId(ws, actorId) ==> HasId(ws[1..], actorId) by {
        if HasId(ws, actorId) {
          var i :| 0 <= i < |ws| && ws[i].id == actorId;
          assert ws[1..][i - 1] == ws[i];
        }
      }
      assert HasId(ws[1..], actorId) ==> HasId(ws, actorId) by {
        if HasId(ws[1..], actorId) {
          var i :| 0 <= i < |ws[1..]| && ws[1..][i].id == actorId;
          assert ws[i + 1] == ws[1..][i];
        }
      }
      if HasId(ws[1..], actorId) then
        var i :| 0 <= i < |ws[1..]| && ws[1..][i].id == actorId && rest == ws[1..][i].weight
                 && forall j :: 0 <= j < i ==> ws[1..][j].id != actorId;
        assert ws[i + 1].id == actorId && forall j :: 0 <= j < i + 1 ==> ws[j].id != actorId;
        rest
      else
        rest
  }

  /** An event's score is the weight of the first actor-class link to its actor, or 1 when no actor-class
      link names its actor. */
  lemma ScoreOfNetwork(links: seq<NetworkLink>, actorId: string, j: nat)
    requires j < |links| && IsActorLink(links[j]) && links[j].activity.id == actorId
    requires forall k :: 0 <= k < j && IsActorLink(links[k]) ==> links[k].activity.id != actorId
    ensures ScriptScore(Weights(links), actorId) == links[j].weight
  {
    var ws := Weights(links);
    var n := CountActor(links[..j]);
    WeightsPrefix(links, j);
    assert ws[n].id == actorId;
    var i :| 0 <= i < |ws| && ws[i].id == actorId && ScriptScore(ws, actorId) == ws[i].weight
             && forall m :: 0 <= m < i ==> ws[m].id != actorId;
    assert i == n;
  }

  /** The first CountActor(links[..j]) weight entries come from links before j; the next one, when
      links[j] is an actor-class link, is links[j]'s. */
  lemma {:induction false} WeightsPrefix(links: seq<NetworkLink>, j: nat)
    requires j < |links|
    ensures var n := CountActor(links[..j]);
            n <= |Weights(links)|
            && (forall m :: 0 <= m < n ==> Weights(links)[m] == Weights(links[..j])[m])
            && (IsActorLink(links[j]) ==>
                  n < |Weights(links)| && Weights(links)[n] == WeightEntry(links[j].activity.id, links[j].weight))
    decreases |links|
  {
    var init := links[..|links| - 1];
    if j == |links| - 1 {
      assert links[..j] == init;
    } else {
      WeightsPrefix(init, j);
      assert init[..j] == links[..j];
    }
  }

  /** An actor that no actor-class link names scores 1. */
  lemma UnfollowedScoresOne(links: seq<NetworkLink>, actorId: string)
    requires forall k :: 0 <= k < |links| && IsActorLink(links[k]) ==> links[k].activity.id != actorId
    ensures ScriptScore(Weights(links), actorId) == 1.0
  {
  }

  // ---------------------------------------------------------------------------
  // The loops of set_query_dict and set_aggregation_section

  /** The loop of base.py's set_query_dict: appends each link's clauses to `should`, in link order. */
  method CompileBase(links: seq<NetworkLink>) returns (should: seq<Clause>)
    ensures should == BaseClauses(links)
  {
    should := [];
    var i := 0;
    while i < |links|
      invariant 0 <= i <= |links|
      invariant should == BaseClauses(links[..i])
    {
      var link := links[i];
      assert links[..i + 1][..i] == links[..i];
      if link.activity.activityClass == "actor" {
        should := should + [MakeClause(ActorField, link)];
      } else {
        should := should + [MakeClause(ObjectField, link)];
        should := should + [MakeClause(TargetField, link)];
      }
      i := i + 1;
    }
    assert links[..i] == links;
  }

  /** The loop of dateweight.py's set_query_dict: only actor-class links contribute a clause. */
  method CompileActorOnly(links: seq<NetworkLink>) returns (should: seq<Clause>)
    ensures should == ActorOnlyClauses(links)
  {
    should := [];
    var i := 0;
    while i < |links|
      invariant 0 <= i <= |links|
      invariant should == ActorOnlyClauses(links[..i])
    {
      var link := links[i];
      assert links[..i + 1][..i] == links[..i];
      if link.activity.activityClass == "actor" {
        should := should + [MakeClause(ActorField, link)];
      }
      i := i + 1;
    }
    assert links[..i] == links;
  }

  /** The loop of yearmonthtype.py's set_query_dict: each clause is built, given the published_year term
      when a year is set, and appended. */
  method CompileYear(links: seq<NetworkLink>, year: Option<int>) returns (should: seq<Clause>)
    ensures should == YearClauses(links, year)
  {
    should := [];
    var i := 0;
    while i < |links|
      invariant 0 <= i <= |links|
      invariant should == YearClauses(links[..i], year)
    {
      var link := links[i];
      assert links[..i + 1][..i] == links[..i];
      assert YearClauses(links[..i + 1], year) == should + YearLinkClauses(link, year);
      if link.activity.activityClass == "actor" {
        var item := MakeClause(ActorField, link);
        if year.Some? {
          item := item.(year := year);
        }
        should := should + [item];
      } else {
        var item := MakeClause(ObjectField, link);
        if year.Some? {
          item := item.(year := year);
        }
        should := should + [item];
        item := MakeClause(TargetField, link);
        if year.Some? {
          item := item.(year := year);
        }
        should := should + [item];
      }
      i := i + 1;
    }
    assert links[..i] == links;
  }

  /** The weights loop of dateweight.py's set_aggregation_section. */
  method BuildWeights(links: seq<NetworkLink>) returns (weights: seq<WeightEntry>)
    ensures weights == Weights(links)
  {
    weights := [];
    var i := 0;
    while i < |links|
      invariant 0 <= i <= |links|
      invariant weights == Weights(links[..i])
    {
      assert links[..i + 1][..i] == links[..i];
      if links[i].activity.activityClass == "actor" {
        weights := weights + [WeightEntry(links[i].activity.id, links[i].weight)];
      }
      i := i + 1;
    }
    assert links[..i] == links;
  }
}
