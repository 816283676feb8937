/** The provenance of an activity's object, current generation (elasticfeeds/activity/origin.py). */
module OriginEntity {
  import opened Common

  class Origin {
    var originId: string
    var originType: string
    var extra: Option<Extra>

    /** What construction and every setter keep: a space-free id and a lower-case alphabetic type. */
    ghost predicate Valid()
      reads this
    {
      ' ' !in originId && IsAlpha(originType) && IsLowerCase(originType)
    }

    constructor Init(originId: string, originType: string, extra: Option<Extra>)
      ensures this.originId == originId && this.originType == originType && this.extra == extra
    {
      this.originId := originId;
      this.originType := originType;
      this.extra := extra;
    }

    /** `Origin(origin_id, origin_type, extra)`: validates id, type and extra in that order and stores the
        type lowercased. */
    static method Create(originId: string, originType: string, extra: Value) returns (r: Result<Origin>)
      ensures r.Failure? <==> EntityCheck(originId, originType, extra).Some?
      ensures r.Failure? ==> r.error == EntityCheck(originId, originType, extra).value
      ensures r.Success? ==> fresh(r.value) && r.value.Valid()
      ensures r.Success? ==> r.value.originId == originId && r.value.originType == Lower(originType)
                             && r.value.extra == ExtraOf(extra)
    {
      var err := EntityCheck(originId, originType, extra);
      if err.Some? {
        return Failure(err.value);
      }
      LowerKeyword(originType);
      var a := new Origin.Init(originId, Lower(originType), ExtraOf(extra));
      return Success(a);
    }

    /** The origin_id setter: a value with a space raises IDError and leaves the id as it was. */
    method SetOriginId(value: string) returns (err: Option<Error>)
      requires Valid()
      modifies this`originId
      ensures Valid()
      ensures err.None? <==> ' ' !in value
      ensures err.Some? ==> err.value == IDError && originId == old(originId)
      ensures err.None? ==> originId == value
    {
      if IsId(value) {
        originId := value;
        return None;
      }
      return Some(IDError);
    }

    /** The origin_type setter: a non-alphabetic value raises KeyWordError; otherwise it is stored lowercased. */
    method SetOriginType(value: string) returns (err: Option<Error>)
      requires Valid()
      modifies this`originType
      ensures Valid()
      ensures err.None? <==> IsAlpha(value)
      ensures err.Some? ==> err.value == KeyWordError(value) && originType == old(originType)
      ensures err.None? ==> originType == Lower(value)
    {
      if !IsAlpha(value) {
        return Some(KeyWordError(value));
      }
      LowerKeyword(value);
      originType := Lower(value);
      return None;
    }

    /** The extra setter: None or a dict is stored, anything else raises ExtraTypeError. */
    method SetExtra(value: Value) returns (err: Option<Error>)
      requires Valid()
      modifies this`extra
      ensures Valid()
      ensures err.None? <==> IsExtra(value)
      ensures err.Some? ==> err.value == ExtraTypeError && extra == old(extra)
      ensures err.None? ==> extra == ExtraOf(value)
    {
      if !IsExtra(value) {
        return Some(ExtraTypeError);
      }
      extra := ExtraOf(value);
      return None;
    }

    /** `get_dict`: {id, type} plus extra when it is set; it reads back to exactly the stored fields. */
    function GetDict(): (d: Dict)
      reads this
      ensures d.Keys == {"id", "type"} + (if extra.Some? then {"extra"} else {})
      ensures ParseEntityDict(d) == Some(EntityFields(originId, originType, extra))
    {
      EntityDictRoundTrip(originId, originType, extra, map[]);
      EntityDict(originId, originType, extra)
    }
  }

  /** Building an origin again from a valid origin's projection succeeds and reproduces its fields. */
  lemma RebuildFromDict(a: Origin)
    requires a.Valid()
    ensures var f := ParseEntityDict(a.GetDict()).value;
            EntityCheck(f.id, f.entityType, if f.extra.Some? then DictValue(f.extra.value) else NoneValue).None?
            && Lower(f.entityType) == a.originType && f.extra == a.extra && f.id == a.originId
  {
    LowerOfLowerCase(a.originType);
  }
}
