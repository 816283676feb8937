/** The destination of an activity's object (src/elasticfeeds/activity/target.py). */
module TargetEntity {
  import opened Common

  class Target {
    var targetId: string
    var targetType: string
    var extra: Option<Extra>

    /** What construction and every setter keep: a space-free id and a lower-case alphabetic type. */
    ghost predicate Valid()
      reads this
    {
      ' ' !in targetId && IsAlpha(targetType) && IsLowerCase(targetType)
    }

    constructor Init(targetId: string, targetType: string, extra: Option<Extra>)
      ensures this.targetId == targetId && this.targetType == targetType && this.extra == extra
    {
      this.targetId := targetId;
      this.targetType := targetType;
      this.extra := extra;
    }

    /** `Target(target_id, target_type, extra)`: validates id, type and extra in that order and stores the
        type lowercased. */
    static method Create(targetId: string, targetType: string, extra: Value) returns (r: Result<Target>)
      ensures r.Failure? <==> EntityCheck(targetId, targetType, extra).Some?
      ensures r.Failure? ==> r.error == EntityCheck(targetId, targetType, extra).value
      ensures r.Success? ==> fresh(r.value) && r.value.Valid()
      ensures r.Success? ==> r.value.targetId == targetId && r.value.targetType == Lower(targetType)
                             && r.value.extra == ExtraOf(extra)
    {
      var err := EntityCheck(targetId, targetType, extra);
      if err.Some? {
        return Failure(err.value);
      }
      LowerKeyword(targetType);
      var a := new Target.Init(targetId, Lower(targetType), ExtraOf(extra));
      return Success(a);
    }

    /** The target_id setter: a value with a space raises IDError and leaves the id as it was. */
    method SetTargetId(value: string) returns (err: Option<Error>)
      requires Valid()
      modifies this`targetId
      ensures Valid()
      ensures err.None? <==> ' ' !in value
      ensures err.Some? ==> err.value == IDError && targetId == old(targetId)
      ensures err.None? ==> targetId == value
    {
      if IsId(value) {
        targetId := value;
        return None;
      }
      return Some(IDError);
    }

    /** The target_type setter: a non-alphabetic value raises KeyWordError; otherwise it is stored lowercased. */
    method SetTargetType(value: string) returns (err: Option<Error>)
      requires Valid()
      modifies this`targetType
      ensures Valid()
      ensures err.None? <==> IsAlpha(value)
      ensures err.Some? ==> err.value == KeyWordError(value) && targetType == old(targetType)
      ensures err.None? ==> targetType == Lower(value)
    {
      if !IsAlpha(value) {
        return Some(KeyWordError(value));
      }
      LowerKeyword(value);
      targetType := Lower(value);
      return None;
    }

    /** The extra setter: None or a dict is stored, anything else raises ExtraTypeError. */
    method SetExtra(value: Value) returns (err: Option<Error>)
      requires Valid()
      modifies this`extra
      ensures Valid()
      ensures err.None? <==> IsExtra(value)
      ensures err.Some? ==> err.value == ExtraTypeError && extra == old(extra)
      ensures err.None? ==> extra == ExtraOf(value)
    {
      if !IsExtra(value) {
        return Some(ExtraTypeError);
      }
      extra := ExtraOf(value);
      return None;
    }

    /** `get_dict`: {id, type} plus extra when it is set; it reads back to exactly the stored fields. */
    function GetDict(): (d: Dict)
      reads this
      ensures d.Keys == {"id", "type"} + (if extra.Some? then {"extra"} else {})
      ensures ParseEntityDict(d) == Some(EntityFields(targetId, targetType, extra))
    {
      EntityDictRoundTrip(targetId, targetType, extra, map[]);
      EntityDict(targetId, targetType, extra)
    }
  }

  /** Building a target again from a valid target's projection succeeds and reproduces its fields. */
  lemma RebuildFromDict(a: Target)
    requires a.Valid()
    ensures var f := ParseEntityDict(a.GetDict()).value;
            EntityCheck(f.id, f.entityType, if f.extra.Some? then DictValue(f.extra.value) else NoneValue).None?
            && Lower(f.entityType) == a.targetType && f.extra == a.extra && f.id == a.targetId
  {
    LowerOfLowerCase(a.targetType);
  }
}
