/** An object of any kind that an activity acts on (src/elasticfeeds/activity/object.py). */
module ObjectEntity {
  import opened Common

  class Object {
    var objectId: string
    var objectType: string
    var extra: Option<Extra>

    /** What construction and every setter keep: a space-free id and a lower-case alphabetic type. */
    ghost predicate Valid()
      reads this
    {
      ' ' !in objectId && IsAlpha(objectType) && IsLowerCase(objectType)
    }

    constructor Init(objectId: string, objectType: string, extra: Option<Extra>)
      ensures this.objectId == objectId && this.objectType == objectType && this.extra == extra
    {
      this.objectId := objectId;
      this.objectType := objectType;
      this.extra := extra;
    }

    /** `Object(object_id, object_type, extra)`: validates id, type and extra in that order and stores the
        type lowercased. */
    static method Create(objectId: string, objectType: string, extra: Value) returns (r: Result<Object>)
      ensures r.Failure? <==> EntityCheck(objectId, objectType, extra).Some?
      ensures r.Failure? ==> r.error == EntityCheck(objectId, objectType, extra).value
      ensures r.Success? ==> fresh(r.value) && r.value.Valid()
      ensures r.Success? ==> r.value.objectId == objectId && r.value.objectType == Lower(objectType)
                             && r.value.extra == ExtraOf(extra)
    {
      var err := EntityCheck(objectId, objectType, extra);
      if err.Some? {
        return Failure(err.value);
      }
      LowerKeyword(objectType);
      var a := new Object.Init(objectId, Lower(objectType), ExtraOf(extra));
      return Success(a);
    }

    /** The object_id setter: a value with a space raises IDError and leaves the id as it was. */
    method SetObjectId(value: string) returns (err: Option<Error>)
      requires Valid()
      modifies this`objectId
      ensures Valid()
      ensures err.None? <==> ' ' !in value
      ensures err.Some? ==> err.value == IDError && objectId == old(objectId)
      ensures err.None? ==> objectId == value
    {
      if IsId(value) {
        objectId := value;
        return None;
      }
      return Some(IDError);
    }

    /** The object_type setter: a non-alphabetic value raises KeyWordError; otherwise it is stored lowercased. */
    method SetObjectType(value: string) returns (err: Option<Error>)
      requires Valid()
      modifies this`objectType
      ensures Valid()
      ensures err.None? <==> IsAlpha(value)
      ensures err.Some? ==> err.value == KeyWordError(value) && objectType == old(objectType)
      ensures err.None? ==> objectType == Lower(value)
    {
      if !IsAlpha(value) {
        return Some(KeyWordError(value));
      }
      LowerKeyword(value);
      objectType := Lower(value);
      return None;
    }

    /** The extra setter: None or a dict is stored, anything else raises ExtraTypeError. */
    method SetExtra(value: Value) returns (err: Option<Error>)
      requires Valid()
      modifies this`extra
      ensures Valid()
      ensures err.None? <==> IsExtra(value)
      ensures err.Some? ==> err.value == ExtraTypeError && extra == old(extra)
      ensures err.None? ==> extra == ExtraOf(value)
    {
      if !IsExtra(value) {
        return Some(ExtraTypeError);
      }
      extra := ExtraOf(value);
      return None;
    }

    /** `get_dict`: {id, type} plus extra when it is set; it reads back to exactly the stored fields. */
    function GetDict(): (d: Dict)
      reads this
      ensures d.Keys == {"id", "type"} + (if extra.Some? then {"extra"} else {})
      ensures ParseEntityDict(d) == Some(EntityFields(objectId, objectType, extra))
    {
      EntityDictRoundTrip(objectId, objectType, extra, map[]);
      EntityDict(objectId, objectType, extra)
    }
  }

  /** Building an object again from a valid object's projection succeeds and reproduces its fields. */
  lemma RebuildFromDict(a: Object)
    requires a.Valid()
    ensures var f := ParseEntityDict(a.GetDict()).value;
            EntityCheck(f.id, f.entityType, if f.extra.Some? then DictValue(f.extra.value) else NoneValue).None?
            && Lower(f.entityType) == a.objectType && f.extra == a.extra && f.id == a.objectId
  {
    LowerOfLowerCase(a.objectType);
  }
}
