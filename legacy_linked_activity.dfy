/** An entry of an actor's network, as the earlier generation describes it
    (src/elasticfeeds/network/activity.py): any alphabetic class is accepted and nothing is lowercased. */
module LegacyLinkedActivityRecord {
  import opened Common

  /** Validation in the order the source runs it: the id (IDError), the class keyword, the type keyword
      (both KeyWordError). */
  function LegacyLinkedCheck(id: string, activityClass: string, activityType: string): (err: Option<Error>)
    ensures err.None? <==> ' ' !in id && IsAlpha(activityClass) && IsAlpha(activityType)
    ensures err == Some(IDError) <==> ' ' in id
    ensures ' ' !in id && !IsAlpha(activityClass) ==> err == Some(KeyWordError(activityClass))
    ensures ' ' !in id && IsAlpha(activityClass) && !IsAlpha(activityType)
            ==> err == Some(KeyWordError(activityType))
  {
    if !IsId(id) then Some(IDError)
    else if !IsAlpha(activityClass) then Some(KeyWordError(activityClass))
    else if !IsAlpha(activityType) then Some(KeyWordError(activityType))
    else None
  }

  class LinkedActivity {
    var activityId: string
    var activityClass: string
    var activityType: string

    /** What construction and every setter keep: no lower-case requirement and no class set. */
    ghost predicate Valid()
      reads this
    {
      ' ' !in activityId && IsAlpha(activityClass) && IsAlpha(activityType)
    }

    constructor Init(activityId: string, activityClass: string, activityType: string)
      ensures this.activityId == activityId && this.activityClass == activityClass
      ensures this.activityType == activityType
    {
      this.activityId := activityId;
      this.activityClass := activityClass;
      this.activityType := activityType;
    }

    /** `LinkedActivity(activity_id, activity_class, activity_type)`: the first failing check raises;
        class and type are stored exactly as given. */
    static method Create(activityId: string, activityClass: string, activityType: string)
      returns (r: Result<LinkedActivity>)
      ensures r.Failure? <==> LegacyLinkedCheck(activityId, activityClass, activityType).Some?
      ensures r.Failure? ==> r.error == LegacyLinkedCheck(activityId, activityClass, activityType).value
      ensures r.Success? ==> fresh(r.value) && r.value.Valid()
      ensures r.Success? ==> r.value.activityId == activityId && r.value.activityClass == activityClass
                             && r.value.activityType == activityType
    {
      var err := LegacyLinkedCheck(activityId, activityClass, activityType);
      if err.Some? {
        return Failure(err.value);
      }
      var a := new LinkedActivity.Init(activityId, activityClass, activityType);
      return Success(a);
    }

    /** The activity_id setter: a value with a space raises IDError and leaves the id as it was. */
    method SetActivityId(value: string) returns (err: Option<Error>)
      requires Valid()
      modifies this`activityId
      ensures Valid()
      ensures err.None? <==> ' ' !in value
      ensures err.Some? ==> err.value == IDError && activityId == old(activityId)
      ensures err.None? ==> activityId == value
    {
      if IsId(value) {
        activityId := value;
        return None;
      }
      return Some(IDError);
    }

    /** The activity_class setter: any alphabetic value is stored as given, anything else raises
        KeyWordError. */
    method SetActivityClass(value: string) returns (err: Option<Error>)
      requires Valid()
      modifies this`activityClass
      ensures Valid()
      ensures err.None? <==> IsAlpha(value)
      ensures err.Some? ==> err.value == KeyWordError(value) && activityClass == old(activityClass)
      ensures err.None? ==> activityClass == value
    {
      if !IsAlpha(value) {
        return Some(KeyWordError(value));
      }
      activityClass := value;
      return None;
    }

    /** The activity_type setter: any alphabetic value is stored as given, anything else raises
        KeyWordError. */
    method SetActivityType(value: string) returns (err: Option<Error>)
      requires Valid()
      modifies this`activityType
      ensures Valid()
      ensures err.None? <==> IsAlpha(value)
      ensures err.Some? ==> err.value == KeyWordError(value) && activityType == old(activityType)
      ensures err.None? ==> activityType == value
    {
      if !IsAlpha(value) {
        return Some(KeyWordError(value));
      }
      activityType := value;
      return None;
    }

    /** `get_dict`: exactly {"class", "id", "type"} holding the stored values. */
    function GetDict(): (d: Dict)
      reads this
      ensures d.Keys == {"class", "id", "type"}
      ensures d["id"] == StrValue(activityId) && d["class"] == StrValue(activityClass)
      ensures d["type"] == StrValue(activityType)
    {
      map["class" := StrValue(activityClass), "id" := StrValue(activityId), "type" := StrValue(activityType)]
    }
  }

  /** Re-validating a valid record's projection succeeds: the projection is a fixed point of
      construction, since nothing is lowercased. */
  lemma ProjectionRevalidates(a: LinkedActivity)
    requires a.Valid()
    ensures var d := a.GetDict(); LegacyLinkedCheck(d["id"].s, d["class"].s, d["type"].s).None?
  {
  }
}
