/** An event of the feed (src/elasticfeeds/activity/activity.py): who did what to which object, when,
    optionally from an origin and to a target. */
module ActivityRecord {
  import opened Common
  import opened ActorEntity
  import opened ObjectEntity
  import opened TargetEntity
  import opened LegacyOriginEntity

  // ---------------------------------------------------------------------------
  // datetime.datetime and its isoformat()

  datatype DateTimeFields = DateTimeFields(year: int, month: int, day: int,
                                           hour: int, minute: int, second: int, microsecond: int)

  /** The ranges Python's datetime enforces (days per month are not modelled). */
  predicate WellFormed(d: DateTimeFields) {
    1 <= d.year <= 9999 && 1 <= d.month <= 12 && 1 <= d.day <= 31
    && 0 <= d.hour < 24 && 0 <= d.minute < 60 && 0 <= d.second < 60
    && 0 <= d.microsecond < 1000000
  }

  /** A naive (time-zone free) datetime. */
  type DateTime = d: DateTimeFields | WellFormed(d) witness DateTimeFields(1, 1, 1, 0, 0, 0, 0)

  predicate IsDigit(ch: char) {
    '0' <= ch <= '9'
  }

  function DigitChar(n: nat): (ch: char)
    requires n < 10
    ensures IsDigit(ch)
  {
    ('0' as int + n) as char
  }

  /** The last `width` decimal digits of n, zero-padded: Python's `%0<width>d` for n < 10^width. */
  function Digits(n: nat, width: nat): (s: string)
    ensures |s| == width
    ensures forall i :: 0 <= i < |s| ==> IsDigit(s[i])
  {
    if width == 0 then "" else Digits(n / 10, width - 1) + [DigitChar(n % 10)]
  }

  /** YYYY-MM-DD */
  function DateString(d: DateTime): string {
    Digits(d.year, 4) + "-" + Digits(d.month, 2) + "-" + Digits(d.day, 2)
  }

  /** HH:MM:SS */
  function TimeString(d: DateTime): string {
    Digits(d.hour, 2) + ":" + Digits(d.minute, 2) + ":" + Digits(d.second, 2)
  }

  /** `.ffffff`, present only when the microseconds are not zero. */
  function Fraction(d: DateTime): string {
    if d.microsecond == 0 then "" else "." + Digits(d.microsecond, 6)
  }

  /** `datetime.isoformat()` of a naive datetime. */
  function IsoFormat(d: DateTime): string {
    DateString(d) + "T" + TimeString(d) + Fraction(d)
  }

  lemma DateHasNoT(d: DateTime)
    ensures 'T' !in DateString(d)
  {
    var s := DateString(d);
    forall i | 0 <= i < |s| ensures s[i] != 'T' {
      assert IsDigit(s[i]) || s[i] == '-';
    }
  }

  lemma TimeHasNoSeparator(d: DateTime)
    ensures '.' !in TimeString(d) && 'T' !in TimeString(d) && 'T' !in Fraction(d)
  {
    var s := TimeString(d);
    forall i | 0 <= i < |s| ensures s[i] != '.' && s[i] != 'T' {
      assert IsDigit(s[i]) || s[i] == ':';
    }
    var f := Fraction(d);
    forall i | 0 <= i < |f| ensures f[i] != 'T' {
      assert IsDigit(f[i]) || f[i] == '.';
    }
  }

  /** Cutting `date + "T" + time + fraction` at the first "T" and then at the first "." recovers the
      date and the time when neither contains its separator and the fraction is empty or starts with ".". */
  lemma {:induction false} SplitDateTime(date: string, time: string, fraction: string)
    requires 'T' !in date && 'T' !in time && 'T' !in fraction && '.' !in time
    requires fraction == [] || fraction[0] == '.'
    ensures |SplitOn(date + "T" + time + fraction, 'T')| >= 2
    ensures SplitOn(date + "T" + time + fraction, 'T')[0] == date
    ensures SplitOn(SplitOn(date + "T" + time + fraction, 'T')[1], '.')[0] == time
  {
    var rest := time + fraction;
    var s := date + "T" + time + fraction;
    assert s == date + ['T'] + rest;
    assert 'T' !in rest;
    SplitAtFirst(date, 'T', rest);
    SplitWithout(rest, 'T');
    assert SplitOn(s, 'T') == [date, rest];
    SplitTimeFraction(time, fraction);
  }

  /** Cutting `time + fraction` at the first "." recovers the time when the fraction is empty or starts
      with ".". */
  lemma {:induction false} SplitTimeFraction(time: string, fraction: string)
    requires '.' !in time
    requires fraction == [] || fraction[0] == '.'
    ensures SplitOn(time + fraction, '.')[0] == time
  {
    if fraction == [] {
      assert time + fraction == time;
      SplitWithout(time, '.');
    } else {
      assert time + fraction == time + ['.'] + fraction[1..];
      SplitAtFirst(time, '.', fraction[1..]);
    }
  }

  /** Splitting the ISO string at its first "T" gives the date, and splitting what follows at its first
      "." gives the time of day without the microseconds, whether or not they are printed. */
  lemma IsoSplit(d: DateTime)
    ensures |SplitOn(IsoFormat(d), 'T')| >= 2
    ensures SplitOn(IsoFormat(d), 'T')[0] == DateString(d)
    ensures SplitOn(SplitOn(IsoFormat(d), 'T')[1], '.')[0] == TimeString(d)
  {
    DateHasNoT(d);
    TimeHasNoSeparator(d);
    SplitDateTime(DateString(d), TimeString(d), Fraction(d));
  }

  // ---------------------------------------------------------------------------
  // The Activity record

  /** The keys every activity document has. */
  const RequiredKeys: set<string> :=
    {"published", "published_date", "published_time", "published_year", "published_month",
     "actor", "type", "object"}

  /** `iso.split("T")[0]` and `iso.split("T")[1].split(".")[0]`. */
  function CutIso(iso: string): (dateAndTime: (string, string))
    requires |SplitOn(iso, 'T')| >= 2
  {
    var parts := SplitOn(iso, 'T');
    (parts[0], SplitOn(parts[1], '.')[0])
  }

  /** The entries every activity document has. */
  function BaseDict(iso: string, date: string, time: string, year: int, month: int,
                    actor: Dict, activityType: string, obj: Dict): (d: Dict)
    ensures d.Keys == RequiredKeys
    ensures d["published"] == StrValue(iso) && d["published_date"] == StrValue(date)
    ensures d["published_time"] == StrValue(time)
    ensures d["published_year"] == IntValue(year) && d["published_month"] == IntValue(month)
    ensures d["actor"] == DictValue(actor) && d["type"] == StrValue(activityType)
    ensures d["object"] == DictValue(obj)
  {
    map["published" := StrValue(iso), "published_date" := StrValue(date),
        "published_time" := StrValue(time), "published_year" := IntValue(year),
        "published_month" := IntValue(month), "actor" := DictValue(actor),
        "type" := StrValue(activityType), "object" := DictValue(obj)]
  }

  lemma OptionalKeysAreNew()
    ensures "origin" !in RequiredKeys && "target" !in RequiredKeys && "extra" !in RequiredKeys
    ensures "origin" != "target" && "origin" != "extra" && "target" != "extra"
  {
    assert "origin"[1] != "object"[1];
  }

  /** The keys an activity document has besides the required ones. */
  function OptionalKeys(hasOrigin: bool, hasTarget: bool, hasExtra: bool): set<string> {
    (if hasOrigin then {"origin"} else {}) + (if hasTarget then {"target"} else {})
    + (if hasExtra then {"extra"} else {})
  }

  /** The entries for origin, target and extra, each present exactly when it is set. */
  function OptionalDict(origin: Option<Dict>, target: Option<Dict>, extra: Option<Extra>): (d: Dict)
    ensures d.Keys == OptionalKeys(origin.Some?, target.Some?, extra.Some?)
    ensures origin.Some? ==> d["origin"] == DictValue(origin.value)
    ensures target.Some? ==> d["target"] == DictValue(target.value)
    ensures extra.Some? ==> d["extra"] == DictValue(extra.value)
  {
    OptionalKeysAreNew();
    var d0: Dict := if origin.Some? then map["origin" := DictValue(origin.value)] else map[];
    var d1 := if target.Some? then d0["target" := DictValue(target.value)] else d0;
    if extra.Some? then d1["extra" := DictValue(extra.value)] else d1
  }

  /** The document of an activity published at `published`, given the projections of its parts. */
  function ActivityDoc(published: DateTime, activityType: string, actor: Dict, obj: Dict,
                       origin: Option<Dict>, target: Option<Dict>, extra: Option<Extra>): (d: Dict)
    ensures d.Keys == OptionalKeys(origin.Some?, target.Some?, extra.Some?) + RequiredKeys
    ensures d["published"] == StrValue(IsoFormat(published))
    ensures d["published_date"] == StrValue(DateString(published))
    ensures d["published_time"] == StrValue(TimeString(published))
    ensures d["published_year"] == IntValue(published.year)
    ensures d["published_month"] == IntValue(published.month)
    ensures d["type"] == StrValue(activityType)
    ensures d["actor"] == DictValue(actor) && d["object"] == DictValue(obj)
    ensures origin.Some? ==> d["origin"] == DictValue(origin.value)
    ensures target.Some? ==> d["target"] == DictValue(target.value)
    ensures extra.Some? ==> d["extra"] == DictValue(extra.value)
  {
    IsoSplit(published);
    OptionalKeysAreNew();
    var iso := IsoFormat(published);
    var dateAndTime := CutIso(iso);
    OptionalDict(origin, target, extra)
    + BaseDict(iso, dateAndTime.0, dateAndTime.1, published.year, published.month, actor, activityType, obj)
  }

  class Activity {
    var activityType: string
    var actor: Actor
    var obj: Object
    var origin: Origin?
    var target: Target?
    var extra: Option<Extra>
    var published: DateTime

    /** What construction and every setter keep: a lower-case alphabetic type. */
    ghost predicate Valid()
      reads this
    {
      IsAlpha(activityType) && IsLowerCase(activityType)
    }

    constructor Init(activityType: string, actor: Actor, obj: Object, published: DateTime,
                     origin: Origin?, target: Target?, extra: Option<Extra>)
      ensures this.activityType == activityType && this.actor == actor && this.obj == obj
      ensures this.published == published && this.origin == origin && this.target == target
      ensures this.extra == extra
    {
      this.activityType := activityType;
      this.actor := actor;
      this.obj := obj;
      this.published := published;
      this.origin := origin;
      this.target := target;
      this.extra := extra;
    }

    /** `Activity(activity_type, actor, object, published, origin, target, extra)`. The source checks,
        in order, the classes of actor, object, origin and target (guaranteed here by the parameter
        types), then extra, then the class of published (likewise), then the type keyword; the first
        failing check raises. Origin and target may be None. */
    static method Create(activityType: string, actor: Actor, obj: Object, published: DateTime,
                         origin: Origin?, target: Target?, extra: Value) returns (r: Result<Activity>)
      ensures r.Success? <==> IsExtra(extra) && IsAlpha(activityType)
      ensures !IsExtra(extra) ==> r == Failure(ExtraTypeError)
      ensures IsExtra(extra) && !IsAlpha(activityType) ==> r == Failure(KeyWordError(activityType))
      ensures r.Success? ==> fresh(r.value) && r.value.Valid()
      ensures r.Success? ==> r.value.activityType == Lower(activityType) && r.value.actor == actor
                             && r.value.obj == obj && r.value.published == published
                             && r.value.origin == origin && r.value.target == target
                             && r.value.extra == ExtraOf(extra)
    {
      if !IsExtra(extra) {
        return Failure(ExtraTypeError);
      }
      if !IsAlpha(activityType) {
        return Failure(KeyWordError(activityType));
      }
      LowerKeyword(activityType);
      var a := new Activity.Init(Lower(activityType), actor, obj, published, origin, target, ExtraOf(extra));
      return Success(a);
    }

    /** The activity_type setter: non-alphabetic raises KeyWordError, otherwise stored lowercased. */
    method SetActivityType(value: string) returns (err: Option<Error>)
      requires Valid()
      modifies this`activityType
      ensures Valid()
      ensures err.None? <==> IsAlpha(value)
      ensures err.Some? ==> err.value == KeyWordError(value) && activityType == old(activityType)
      ensures err.None? ==> activityType == Lower(value)
    {
      if !IsAlpha(value) {
        return Some(KeyWordError(value));
      }
      LowerKeyword(value);
      activityType := Lower(value);
      return None;
    }

    /** The activity_actor setter (its class check holds by typing). */
    method SetActor(value: Actor)
      modifies this`actor
      requires Valid()
      ensures Valid()
      ensures actor == value
    {
      actor := value;
    }

    /** The activity_object setter (its class check holds by typing). */
    method SetObject(value: Object)
      modifies this`obj
      requires Valid()
      ensures Valid()
      ensures obj == value
    {
      obj := value;
    }

    /** The published setter (its datetime check holds by typing). */
    method SetPublished(value: DateTime)
      modifies this`published
      requires Valid()
      ensures Valid()
      ensures published == value
    {
      published := value;
    }

    /** The activity_origin setter: unlike the constructor it rejects None with OriginObjectError. */
    method SetOrigin(value: Origin?) returns (err: Option<Error>)
      modifies this`origin
      requires Valid()
      ensures Valid()
      ensures err.None? <==> value != null
      ensures err.Some? ==> err.value == OriginObjectError && origin == old(origin)
      ensures err.None? ==> origin == value
    {
      if value == null {
        return Some(OriginObjectError);
      }
      origin := value;
      return None;
    }

    /** The activity_target setter: unlike the constructor it rejects None with TargetObjectError. */
    method SetTarget(value: Target?) returns (err: Option<Error>)
      modifies this`target
      requires Valid()
      ensures Valid()
      ensures err.None? <==> value != null
      ensures err.Some? ==> err.value == TargetObjectError && target == old(target)
      ensures err.None? ==> target == value
    {
      if value == null {
        return Some(TargetObjectError);
      }
      target := value;
      return None;
    }

    /** The extra setter: None or a dict is stored, anything else raises ExtraTypeError. */
    method SetExtra(value: Value) returns (err: Option<Error>)
      modifies this`extra
      requires Valid()
      ensures Valid()
      ensures err.None? <==> IsExtra(value)
      ensures err.Some? ==> err.value == ExtraTypeError && extra == old(extra)
      ensures err.None? ==> extra == ExtraOf(value)
    {
      if !IsExtra(value) {
        return Some(ExtraTypeError);
      }
      extra := ExtraOf(value);
      return None;
    }

    /** `get_dict`: the document stored in the feed index. The date and time are cut out of the ISO
        string; origin, target and extra appear exactly when they are set. */
    function GetDict(): (d: Dict)
      reads this, actor, obj, origin, target
      ensures d.Keys == OptionalKeys(origin != null, target != null, extra.Some?) + RequiredKeys
      ensures d["published"] == StrValue(IsoFormat(published))
      ensures d["published_date"] == StrValue(DateString(published))
      ensures d["published_time"] == StrValue(TimeString(published))
      ensures d["published_year"] == IntValue(published.year)
      ensures d["published_month"] == IntValue(published.month)
      ensures d["type"] == StrValue(activityType)
      ensures d["actor"] == DictValue(actor.GetDict()) && d["object"] == DictValue(obj.GetDict())
      ensures origin != null ==> d["origin"] == DictValue(origin.GetDict())
      ensures target != null ==> d["target"] == DictValue(target.GetDict())
      ensures extra.Some? ==> d["extra"] == DictValue(extra.value)
    {
      var originDict := if origin != null then Some(origin.GetDict()) else None;
      var targetDict := if target != null then Some(target.GetDict()) else None;
      assert OptionalKeys(originDict.Some?, targetDict.Some?, extra.Some?)
             == OptionalKeys(origin != null, target != null, extra.Some?);
      ActivityDoc(published, activityType, actor.GetDict(), obj.GetDict(), originDict, targetDict, extra)
    }
  }
}
