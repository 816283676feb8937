/** An entry of an actor's network, as the current generation describes it
    (elasticfeeds/network/activity.py): the id being followed or watched, its class and its type. */
module LinkedActivityRecord {
  import opened Common

  /** The only classes a linked activity may have. */
  predicate IsLinkClass(s: string) {
    s == "actor" || s == "object"
  }

  /** Validation of the constructor's arguments in the order the source runs them: the id (IDError),
      the class keyword (KeyWordError), the class membership (ActivityClassError), the type keyword
      (KeyWordError). */
  function LinkedCheck(id: string, activityClass: string, activityType: string): (err: Option<Error>)
    ensures err.None? <==> ' ' !in id && IsLinkClass(activityClass) && IsAlpha(activityType)
    ensures err == Some(IDError) <==> ' ' in id
    ensures err == Some(ActivityClassError)
            <==> ' ' !in id && IsAlpha(activityClass) && !IsLinkClass(activityClass)
    ensures ' ' !in id && !IsAlpha(activityClass) ==> err == Some(KeyWordError(activityClass))
    ensures ' ' !in id && IsLinkClass(activityClass) && !IsAlpha(activityType)
            ==> err == Some(KeyWordError(activityType))
  {
    if !IsId(id) then Some(IDError)
    else if !IsAlpha(activityClass) then Some(KeyWordError(activityClass))
    else if !IsLinkClass(activityClass) then Some(ActivityClassError)
    else if !IsAlpha(activityType) then Some(KeyWordError(activityType))
    else None
  }

  /** Both admitted classes are already lower case, so the source's lowercasing leaves them as given. */
  lemma LinkClassIsLowerCase(s: string)
    requires IsLinkClass(s)
    ensures IsAlpha(s) && Lower(s) == s
  {
    LowerOfLowerCase(s);
  }

  class LinkedActivity {
    var activityId: string
    var activityClass: string
    var activityType: string

    /** What construction and every setter keep. */
    ghost predicate Valid()
      reads this
    {
      ' ' !in activityId && IsLinkClass(activityClass) && IsAlpha(activityType) && IsLowerCase(activityType)
    }

    constructor Init(activityId: string, activityClass: string, activityType: string)
      ensures this.activityId == activityId && this.activityClass == activityClass
      ensures this.activityType == activityType
    {
      this.activityId := activityId;
      this.activityClass := activityClass;
      this.activityType := activityType;
    }

    /** `LinkedActivity(activity_id, activity_class, activity_type)`: the first failing check raises;
        the type is stored lowercased. */
    static method Create(activityId: string, activityClass: string, activityType: string)
      returns (r: Result<LinkedActivity>)
      ensures r.Failure? <==> LinkedCheck(activityId, activityClass, activityType).Some?
      ensures r.Failure? ==> r.error == LinkedCheck(activityId, activityClass, activityType).value
      ensures r.Success? ==> fresh(r.value) && r.value.Valid()
      ensures r.Success? ==> r.value.activityId == activityId && r.value.activityClass == activityClass
                             && r.value.activityType == Lower(activityType)
    {
      var err := LinkedCheck(activityId, activityClass, activityType);
      if err.Some? {
        return Failure(err.value);
      }
      LinkClassIsLowerCase(activityClass);
      LowerKeyword(activityType);
      var a := new LinkedActivity.Init(activityId, Lower(activityClass), Lower(activityType));
      return Success(a);
    }

    /** The activity_id setter: a value with a space raises IDError and leaves the id as it was. */
    method SetActivityId(value: string) returns (err: Option<Error>)
      requires Valid()
      modifies this`activityId
      ensures Valid()
      ensures err.None? <==> ' ' !in value
      ensures err.Some? ==> err.value == IDError && activityId == old(activityId)
      ensures err.None? ==> activityId == value
    {
      if IsId(value) {
        activityId := value;
        return None;
      }
      return Some(IDError);
    }

    /** The activity_class setter: a non-alphabetic value raises KeyWordError, an alphabetic value other
        than "actor" or "object" raises ActivityClassError; on error the class is unchanged. */
    method SetActivityClass(value: string) returns (err: Option<Error>)
      requires Valid()
      modifies this`activityClass
      ensures Valid()
      ensures err.None? <==> IsLinkClass(value)
      ensures !IsAlpha(value) ==> err == Some(KeyWordError(value))
      ensures IsAlpha(value) && !IsLinkClass(value) ==> err == Some(ActivityClassError)
      ensures err.Some? ==> activityClass == old(activityClass)
      ensures err.None? ==> activityClass == value
    {
      if !IsAlpha(value) {
        return Some(KeyWordError(value));
      }
      if !IsLinkClass(value) {
        return Some(ActivityClassError);
      }
      LinkClassIsLowerCase(value);
      activityClass := Lower(value);
      return None;
    }

    /** The activity_type setter: a non-alphabetic value raises KeyWordError; otherwise it is stored
        lowercased. */
    method SetActivityType(value: string) returns (err: Option<Error>)
      requires Valid()
      modifies this`activityType
      ensures Valid()
      ensures err.None? <==> IsAlpha(value)
      ensures err.Some? ==> err.value == KeyWordError(value) && activityType == old(activityType)
      ensures err.None? ==> activityType == Lower(value)
    {
      if !IsAlpha(value) {
        return Some(KeyWordError(value));
      }
      LowerKeyword(value);
      activityType := Lower(value);
      return None;
    }

    /** `get_dict`: exactly {activity_class, id, type}; on a valid record the class is actor or object
        and the type is a lower-case keyword. */
    function GetDict(): (d: Dict)
      reads this
      ensures d.Keys == {"activity_class", "id", "type"}
      ensures d["id"] == StrValue(activityId) && d["activity_class"] == StrValue(activityClass)
      ensures d["type"] == StrValue(activityType)
      ensures Valid() ==> d["activity_class"] == StrValue("actor") || d["activity_class"] == StrValue("object")
    {
      map["activity_class" := StrValue(activityClass), "id" := StrValue(activityId),
          "type" := StrValue(activityType)]
    }
  }

  /** A record built from a valid record's projection passes validation again and is the same record:
      the projection loses nothing. */
  lemma ProjectionRevalidates(a: LinkedActivity)
    requires a.Valid()
    ensures var d := a.GetDict();
            LinkedCheck(d["id"].s, d["activity_class"].s, d["type"].s).None?
            && Lower(d["type"].s) == a.activityType && d["activity_class"].s == a.activityClass
  {
    LowerOfLowerCase(a.activityType);
  }
}
