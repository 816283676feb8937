/** A link of an actor's network, as the earlier generation describes it
    (src/elasticfeeds/network/network.py): who links to which feed component, how, since when, with what
    weight; its stored document and the search that finds it again. */
module NetworkLinkRecord {
  import opened Common

  /** The defaults of the constructor's keyword arguments. */
  const DefaultLinkType: string := "follow"
  const DefaultComponentClass: string := "actor"
  const DefaultComponentType: string := "person"
  const DefaultWeight: real := 1.0

  /** `isinstance(v, int) or isinstance(v, float)` */
  predicate IsNumber(v: Value) {
    v.IntValue? || v.FloatValue?
  }

  function NumberOf(v: Value): real
    requires IsNumber(v)
  {
    if v.IntValue? then v.i as real else v.r
  }

  /** Validation of the constructor's arguments in the order the source runs them: actor id and component
      id (IDError), link type, component class and component type (KeyWordError), extra (ExtraTypeError),
      weight (WeightTypeError). The linked datetime's class check holds by typing. */
  function LinkCheck(actorId: string, componentId: string, linkType: string, componentClass: string,
                     componentType: string, weight: Value, extra: Value): (err: Option<Error>)
    ensures err.None? <==> ' ' !in actorId && ' ' !in componentId && IsAlpha(linkType)
                           && IsAlpha(componentClass) && IsAlpha(componentType) && IsExtra(extra)
                           && IsNumber(weight)
    ensures err == Some(IDError) <==> ' ' in actorId || ' ' in componentId
    ensures ' ' !in actorId && ' ' !in componentId && !IsAlpha(linkType) ==> err == Some(KeyWordError(linkType))
    ensures (' ' !in actorId && ' ' !in componentId && IsAlpha(linkType) && !IsAlpha(componentClass))
            ==> err == Some(KeyWordError(componentClass))
    ensures (' ' !in actorId && ' ' !in componentId && IsAlpha(linkType) && IsAlpha(componentClass)
             && !IsAlpha(componentType))
            ==> err == Some(KeyWordError(componentType))
    ensures (' ' !in actorId && ' ' !in componentId && IsAlpha(linkType) && IsAlpha(componentClass)
             && IsAlpha(componentType) && !IsExtra(extra))
            ==> err == Some(ExtraTypeError)
    ensures err == Some(WeightTypeError) <==>
              ' ' !in actorId && ' ' !in componentId && IsAlpha(linkType) && IsAlpha(componentClass)
              && IsAlpha(componentType) && IsExtra(extra) && !IsNumber(weight)
  {
    if !IsId(actorId) then Some(IDError)
    else if !IsId(componentId) then Some(IDError)
    else if !IsAlpha(linkType) then Some(KeyWordError(linkType))
    else if !IsAlpha(componentClass) then Some(KeyWordError(componentClass))
    else if !IsAlpha(componentType) then Some(KeyWordError(componentType))
    else if !IsExtra(extra) then Some(ExtraTypeError)
    else if !IsNumber(weight) then Some(WeightTypeError)
    else None
  }

  // ---------------------------------------------------------------------------
  // The stored document and the identity search

  /** What identifies a link: the five fields search_for_link tests. */
  datatype LinkKey = LinkKey(actorId: string, linkType: string, componentClass: string,
                             componentType: string, componentId: string)

  /** `network_link()`: linked, actor_id, link_type, feed_component_class, feed_component {id, type} and
      link_weight, plus extra when it is set. */
  function LinkDict(linked: Timestamp, k: LinkKey, weight: real, extra: Option<Extra>): (d: Dict)
    ensures d.Keys == LinkKeys + (if extra.Some? then {"extra"} else {})
    ensures d["linked"] == IntValue(linked) && d["link_weight"] == FloatValue(weight)
    ensures extra.Some? ==> d["extra"] == DictValue(extra.value)
  {
    var base := map["linked" := IntValue(linked), "actor_id" := StrValue(k.actorId),
                     "link_type" := StrValue(k.linkType), "feed_component_class" := StrValue(k.componentClass),
                     "feed_component" := DictValue(map["id" := StrValue(k.componentId),
                                                       "type" := StrValue(k.componentType)]),
                     "link_weight" := FloatValue(weight)];
    ExtraIsNotALinkKey();
    if extra.Some? then base["extra" := DictValue(extra.value)] else base
  }

  /** The keys every stored link document has. */
  const LinkKeys: set<string> :=
    {"linked", "actor_id", "link_type", "feed_component_class", "feed_component", "link_weight"}

  lemma ExtraIsNotALinkKey()
    ensures "extra" !in LinkKeys
  {
    assert "extra"[0] != "linked"[0] && "extra"[0] != "actor_id"[0] && "extra"[0] != "link_type"[0];
    assert "extra"[0] != "feed_component_class"[0] && "extra"[0] != "feed_component"[0];
  }

  /** One `{"term": {path: value}}` item; a path of two names is a field of a nested object. */
  datatype Term = Term(path: seq<string>, value: string)

  /** `search_for_link()`: the conjunction of exactly five terms. */
  function SearchTerms(k: LinkKey): (ts: seq<Term>)
    ensures |ts| == 5
  {
    [Term(["actor_id"], k.actorId), Term(["link_type"], k.linkType),
     Term(["feed_component_class"], k.componentClass), Term(["feed_component", "type"], k.componentType),
     Term(["feed_component", "id"], k.componentId)]
  }

  /** The value at a path of nested dicts, if there is one. */
  function Lookup(d: Dict, path: seq<string>): Option<Value>
    decreases |path|
  {
    if path == [] || path[0] !in d then None
    else if |path| == 1 then Some(d[path[0]])
    else if d[path[0]].DictValue? then Lookup(d[path[0]].entries, path[1..])
    else None
  }

  predicate TermMatches(t: Term, d: Dict) {
    Lookup(d, t.path) == Some(StrValue(t.value))
  }

  predicate AllMatch(ts: seq<Term>, d: Dict) {
    forall i :: 0 <= i < |ts| ==> TermMatches(ts[i], d)
  }

  /** The five field names of the stored document the search reads. */
  lemma LinkDictFields(linked: Timestamp, k: LinkKey, weight: real, extra: Option<Extra>)
    ensures var d := LinkDict(linked, k, weight, extra);
            Lookup(d, ["actor_id"]) == Some(StrValue(k.actorId))
            && Lookup(d, ["link_type"]) == Some(StrValue(k.linkType))
            && Lookup(d, ["feed_component_class"]) == Some(StrValue(k.componentClass))
            && Lookup(d, ["feed_component", "type"]) == Some(StrValue(k.componentType))
            && Lookup(d, ["feed_component", "id"]) == Some(StrValue(k.componentId))
  {
    var d := LinkDict(linked, k, weight, extra);
    ExtraIsNotALinkKey();
    assert ["feed_component", "type"][1..] == ["type"];
    assert ["feed_component", "id"][1..] == ["id"];
  }

  /** A stored link matches the search for a link exactly when the two have the same key: the linked
      date, the weight and extra play no part in a link's identity. */
  lemma SearchFindsSameKey(k: LinkKey, linked: Timestamp, other: LinkKey, weight: real, extra: Option<Extra>)
    ensures AllMatch(SearchTerms(k), LinkDict(linked, other, weight, extra)) <==> k == other
  {
    var d := LinkDict(linked, other, weight, extra);
    var ts := SearchTerms(k);
    LinkDictFields(linked, other, weight, extra);
    if AllMatch(ts, d) {
      assert TermMatches(ts[0], d) && TermMatches(ts[1], d) && TermMatches(ts[2], d);
      assert TermMatches(ts[3], d) && TermMatches(ts[4], d);
    }
  }

  /** Different keys give different searches. */
  lemma SearchTermsInjective(k1: LinkKey, k2: LinkKey)
    ensures SearchTerms(k1) == SearchTerms(k2) ==> k1 == k2
  {
    if SearchTerms(k1) == SearchTerms(k2) {
      assert SearchTerms(k1)[0] == SearchTerms(k2)[0] && SearchTerms(k1)[1] == SearchTerms(k2)[1];
      assert SearchTerms(k1)[2] == SearchTerms(k2)[2] && SearchTerms(k1)[3] == SearchTerms(k2)[3];
      assert SearchTerms(k1)[4] == SearchTerms(k2)[4];
    }
  }

  // ---------------------------------------------------------------------------
  // The Link object

  class Link {
    var actorId: string
    var componentId: string
    var linked: Timestamp
    var linkType: string
    var componentClass: string
    var componentType: string
    var extra: Option<Extra>
    var weight: real

    /** What construction and every setter keep: nothing is lowercased. */
    ghost predicate Valid()
      reads this
    {
      ' ' !in actorId && ' ' !in componentId && IsAlpha(linkType) && IsAlpha(componentClass)
      && IsAlpha(componentType)
    }

    constructor Init(actorId: string, componentId: string, linked: Timestamp, linkType: string,
                     componentClass: string, componentType: string, weight: real, extra: Option<Extra>)
      ensures this.actorId == actorId && this.componentId == componentId && this.linked == linked
      ensures this.linkType == linkType && this.componentClass == componentClass
      ensures this.componentType == componentType && this.weight == weight && this.extra == extra
    {
      this.actorId := actorId;
      this.componentId := componentId;
      this.linked := linked;
      this.linkType := linkType;
      this.componentClass := componentClass;
      this.componentType := componentType;
      this.weight := weight;
      this.extra := extra;
    }

    /** `Link(actor_id, feed_component_id, linked, link_type, feed_component_class, feed_component_type,
        link_weight, extra)`: the first failing check raises; keywords are stored as given. */
    static method Create(actorId: string, componentId: string, linked: Timestamp, linkType: string,
                         componentClass: string, componentType: string, weight: Value, extra: Value)
      returns (r: Result<Link>)
      ensures r.Failure? <==>
                LinkCheck(actorId, componentId, linkType, componentClass, componentType, weight, extra).Some?
      ensures r.Failure? ==>
                r.error == LinkCheck(actorId, componentId, linkType, componentClass, componentType, weight, extra).value
      ensures r.Success? ==> fresh(r.value) && r.value.Valid()
      ensures r.Success? ==> r.value.actorId == actorId && r.value.componentId == componentId
                             && r.value.linked == linked && r.value.linkType == linkType
                             && r.value.componentClass == componentClass
                             && r.value.componentType == componentType
                             && r.value.weight == NumberOf(weight) && r.value.extra == ExtraOf(extra)
    {
      var err := LinkCheck(actorId, componentId, linkType, componentClass, componentType, weight, extra);
      if err.Some? {
        return Failure(err.value);
      }
      var l := new Link.Init(actorId, componentId, linked, linkType, componentClass, componentType,
                             NumberOf(weight), ExtraOf(extra));
      return Success(l);
    }

    /** The constructor called with only the ids and the date: a weight-1 follow of a person actor. */
    static method CreateWithDefaults(actorId: string, componentId: string, linked: Timestamp)
      returns (r: Result<Link>)
      ensures r.Failure? <==> ' ' in actorId || ' ' in componentId
      ensures r.Failure? ==> r.error == IDError
      ensures r.Success? ==> fresh(r.value) && r.value.Valid()
      ensures r.Success? ==> r.value.linkType == "follow" && r.value.componentClass == "actor"
                             && r.value.componentType == "person" && r.value.weight == 1.0
                             && r.value.extra.None?
    {
      r := Create(actorId, componentId, linked, DefaultLinkType, DefaultComponentClass, DefaultComponentType,
                  IntValue(1), NoneValue);
    }

    /** The actor_id setter: a value with a space raises IDError and leaves the id unchanged. */
    method SetActorId(value: string) returns (err: Option<Error>)
      requires Valid()
      modifies this`actorId
      ensures Valid()
      ensures err.None? <==> ' ' !in value
      ensures err.Some? ==> err.value == IDError && actorId == old(actorId)
      ensures err.None? ==> actorId == value
    {
      if IsId(value) {
        actorId := value;
        return None;
      }
      return Some(IDError);
    }

    /** The feed_component_id setter: a value with a space raises IDError and leaves the id unchanged. */
    method SetComponentId(value: string) returns (err: Option<Error>)
      requires Valid()
      modifies this`componentId
      ensures Valid()
      ensures err.None? <==> ' ' !in value
      ensures err.Some? ==> err.value == IDError && componentId == old(componentId)
      ensures err.None? ==> componentId == value
    {
      if IsId(value) {
        componentId := value;
        return None;
      }
      return Some(IDError);
    }

    /** The linked setter (its datetime check holds by typing). */
    method SetLinked(value: Timestamp)
      modifies this`linked
      requires Valid()
      ensures Valid()
      ensures linked == value
    {
      linked := value;
    }

    /** The link_type setter: a non-alphabetic value raises KeyWordError; any other is stored as given. */
    method SetLinkType(value: string) returns (err: Option<Error>)
      requires Valid()
      modifies this`linkType
      ensures Valid()
      ensures err.None? <==> IsAlpha(value)
      ensures err.Some? ==> err.value == KeyWordError(value) && linkType == old(linkType)
      ensures err.None? ==> linkType == value
    {
      if !IsAlpha(value) {
        return Some(KeyWordError(value));
      }
      linkType := value;
      return None;
    }

    /** The feed_component_class setter: a non-alphabetic value raises KeyWordError; any other is stored
        as given. */
    method SetComponentClass(value: string) returns (err: Option<Error>)
      requires Valid()
      modifies this`componentClass
      ensures Valid()
      ensures err.None? <==> IsAlpha(value)
      ensures err.Some? ==> err.value == KeyWordError(value) && componentClass == old(componentClass)
      ensures err.None? ==> componentClass == value
    {
      if !IsAlpha(value) {
        return Some(KeyWordError(value));
      }
      componentClass := value;
      return None;
    }

    /** The feed_component_type setter: a non-alphabetic value raises KeyWordError; any other is stored
        as given. */
    method SetComponentType(value: string) returns (err: Option<Error>)
      requires Valid()
      modifies this`componentType
      ensures Valid()
      ensures err.None? <==> IsAlpha(value)
      ensures err.Some? ==> err.value == KeyWordError(value) && componentType == old(componentType)
      ensures err.None? ==> componentType == value
    {
      if !IsAlpha(value) {
        return Some(KeyWordError(value));
      }
      componentType := value;
      return None;
    }

    /** The extra setter: None or a dict is stored, anything else raises ExtraTypeError. */
    method SetExtra(value: Value) returns (err: Option<Error>)
      modifies this`extra
      requires Valid()
      ensures Valid()
      ensures err.None? <==> IsExtra(value)
      ensures err.Some? ==> err.value == ExtraTypeError && extra == old(extra)
      ensures err.None? ==> extra == ExtraOf(value)
    {
      if !IsExtra(value) {
        return Some(ExtraTypeError);
      }
      extra := ExtraOf(value);
      return None;
    }

    /** The link_weight setter: an int or a float is stored, anything else raises WeightTypeError and leaves
        the weight unchanged. */
    method SetWeight(value: Value) returns (err: Option<Error>)
      modifies this`weight
      requires Valid()
      ensures Valid()
      ensures err.None? <==> IsNumber(value)
      ensures err.Some? ==> err.value == WeightTypeError && weight == old(weight)
      ensures err.None? ==> weight == NumberOf(value)
    {
      if !IsNumber(value) {
        return Some(WeightTypeError);
      }
      weight := NumberOf(value);
      return None;
    }

    function Key(): LinkKey
      reads this
    {
      LinkKey(actorId, linkType, componentClass, componentType, componentId)
    }

    /** `network_link()`: the stored document, whose search fields read back this link's key and which
        has extra exactly when extra is set. */
    function NetworkLink(): (d: Dict)
      reads this
      ensures d.Keys == LinkKeys + (if extra.Some? then {"extra"} else {})
      ensures AllMatch(SearchTerms(Key()), d)
    {
      SearchFindsSameKey(Key(), linked, Key(), weight, extra);
      LinkDict(linked, Key(), weight, extra)
    }

    /** `search_for_link()`: five terms, which a stored link document satisfies exactly when it has this
        link's key. */
    function SearchForLink(): (ts: seq<Term>)
      reads this
      ensures |ts| == 5
      ensures forall l: Timestamp, other: LinkKey, w: real, x: Option<Extra> ::
                AllMatch(ts, LinkDict(l, other, w, x)) <==> other == Key()
    {
      forall l: Timestamp, other: LinkKey, w: real, x: Option<Extra>
        ensures AllMatch(SearchTerms(Key()), LinkDict(l, other, w, x)) <==> other == Key()
      {
        SearchFindsSameKey(Key(), l, other, w, x);
      }
      SearchTerms(Key())
    }
  }
}
