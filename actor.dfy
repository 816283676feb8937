/** The entity performing an activity (src/elasticfeeds/activity/actor.py). */
module ActorEntity {
  import opened Common

  class Actor {
    var actorId: string
    var actorType: string
    var extra: Option<Extra>

    /** What construction and every setter keep: a space-free id and a lower-case alphabetic type. */
    ghost predicate Valid()
      reads this
    {
      ' ' !in actorId && IsAlpha(actorType) && IsLowerCase(actorType)
    }

    constructor Init(actorId: string, actorType: string, extra: Option<Extra>)
      ensures this.actorId == actorId && this.actorType == actorType && this.extra == extra
    {
      this.actorId := actorId;
      this.actorType := actorType;
      this.extra := extra;
    }

    /** `Actor(actor_id, actor_type, extra)`: validates id, type and extra in that order and stores the
        type lowercased. */
    static method Create(actorId: string, actorType: string, extra: Value) returns (r: Result<Actor>)
      ensures r.Failure? <==> EntityCheck(actorId, actorType, extra).Some?
      ensures r.Failure? ==> r.error == EntityCheck(actorId, actorType, extra).value
      ensures r.Success? ==> fresh(r.value) && r.value.Valid()
      ensures r.Success? ==> r.value.actorId == actorId && r.value.actorType == Lower(actorType)
                             && r.value.extra == ExtraOf(extra)
    {
      var err := EntityCheck(actorId, actorType, extra);
      if err.Some? {
        return Failure(err.value);
      }
      LowerKeyword(actorType);
      var a := new Actor.Init(actorId, Lower(actorType), ExtraOf(extra));
      return Success(a);
    }

    /** The actor_id setter: a value with a space raises IDError and leaves the id as it was. */
    method SetActorId(value: string) returns (err: Option<Error>)
      requires Valid()
      modifies this`actorId
      ensures Valid()
      ensures err.None? <==> ' ' !in value
      ensures err.Some? ==> err.value == IDError && actorId == old(actorId)
      ensures err.None? ==> actorId == value
    {
      if IsId(value) {
        actorId := value;
        return None;
      }
      return Some(IDError);
    }

    /** The actor_type setter: a non-alphabetic value raises KeyWordError; otherwise it is stored lowercased. */
    method SetActorType(value: string) returns (err: Option<Error>)
      requires Valid()
      modifies this`actorType
      ensures Valid()
      ensures err.None? <==> IsAlpha(value)
      ensures err.Some? ==> err.value == KeyWordError(value) && actorType == old(actorType)
      ensures err.None? ==> actorType == Lower(value)
    {
      if !IsAlpha(value) {
        return Some(KeyWordError(value));
      }
      LowerKeyword(value);
      actorType := Lower(value);
      return None;
    }

    /** The extra setter: None or a dict is stored, anything else raises ExtraTypeError. */
    method SetExtra(value: Value) returns (err: Option<Error>)
      requires Valid()
      modifies this`extra
      ensures Valid()
      ensures err.None? <==> IsExtra(value)
      ensures err.Some? ==> err.value == ExtraTypeError && extra == old(extra)
      ensures err.None? ==> extra == ExtraOf(value)
    {
      if !IsExtra(value) {
        return Some(ExtraTypeError);
      }
      extra := ExtraOf(value);
      return None;
    }

    /** `get_dict`: {id, type} plus extra when it is set; it reads back to exactly the stored fields. */
    function GetDict(): (d: Dict)
      reads this
      ensures d.Keys == {"id", "type"} + (if extra.Some? then {"extra"} else {})
      ensures ParseEntityDict(d) == Some(EntityFields(actorId, actorType, extra))
    {
      EntityDictRoundTrip(actorId, actorType, extra, map[]);
      EntityDict(actorId, actorType, extra)
    }
  }

  /** Building an actor again from a valid actor's projection succeeds and reproduces its fields. */
  lemma RebuildFromDict(a: Actor)
    requires a.Valid()
    ensures var f := ParseEntityDict(a.GetDict()).value;
            EntityCheck(f.id, f.entityType, if f.extra.Some? then DictValue(f.extra.value) else NoneValue).None?
            && Lower(f.entityType) == a.actorType && f.extra == a.extra && f.id == a.actorId
  {
    LowerOfLowerCase(a.actorType);
  }
}
