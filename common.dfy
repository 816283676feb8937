/** Values, errors and string checks shared by every part of the feed engine. */
module Common {

  datatype Option<+T> = None | Some(value: T)

  /** The outcome of an operation that may raise one of the library's exceptions. */
  datatype Result<+T> = Success(value: T) | Failure(error: Error)

  /** The exceptions the library raises (one constructor per exception class), plus Python's own
      TypeError, which the source raises implicitly when it subscripts None or compares a dict with 0. */
  datatype Error =
    | IDError
    | KeyWordError(keyword: string)
    | ExtraTypeError
    | WeightTypeError
    | LinkExistError
    | LinkNotExistError
    | OriginObjectError
    | TargetObjectError
    | ActivityClassError
    | MaxLinkError
    | OrderError
    | SizeError
    | FromError
    | ElasticFeedException(message: string)
    | TypeError

  /** A Python value as the library receives it: setters check these dynamically with isinstance. */
  datatype Value =
    | NoneValue
    | IntValue(i: int)
    | FloatValue(r: real)
    | StrValue(s: string)
    | DictValue(entries: map<string, Value>)
    | ListValue(items: seq<Value>)

  /** The opaque "extra" dictionary: stored and returned verbatim, never interpreted. */
  type Extra = map<string, Value>

  /** A Python dict as produced by the get_dict projections. */
  type Dict = map<string, Value>

  /** Timestamps of links, in any fixed unit; only their order matters. */
  type Timestamp = int

  /** `extra is None or isinstance(extra, dict)`: the only shapes an extra argument may take. */
  predicate IsExtra(v: Value) {
    v.NoneValue? || v.DictValue?
  }

  /** What an accepted extra argument is stored as. */
  function ExtraOf(v: Value): (e: Option<Extra>)
    requires IsExtra(v)
    ensures e.None? <==> v.NoneValue?
    ensures v.DictValue? ==> e == Some(v.entries)
  {
    if v.DictValue? then Some(v.entries) else None
  }

  /** Python's `isinstance(v, int)` (booleans are not modelled). */
  predicate IsInt(v: Value) {
    v.IntValue?
  }

  // ---------------------------------------------------------------------------
  // str.split with an explicit separator

  /** `s.split(c)`: the pieces of s between occurrences of c, empty pieces included. */
  function SplitOn(s: string, c: char): (parts: seq<string>)
    ensures |parts| == multiset(s)[c] + 1
    ensures forall k :: 0 <= k < |parts| ==> c !in parts[k]
  {
    if s == [] then [""]
    else
      var rest := SplitOn(s[1..], c);
      assert s == [s[0]] + s[1..];
      if s[0] == c then [""] + rest
      else [[s[0]] + rest[0]] + rest[1..]
  }

  /** When the first separator follows the prefix a, the first piece is a and the rest is split alone. */
  lemma {:induction false} SplitAtFirst(a: string, c: char, b: string)
    requires c !in a
    ensures SplitOn(a + [c] + b, c) == [a] + SplitOn(b, c)
  {
    if a == [] {
      assert a + [c] + b == [c] + b;
      assert ([c] + b)[1..] == b;
    } else {
      var s := a + [c] + b;
      assert s[0] == a[0] && s[1..] == a[1..] + [c] + b;
      SplitAtFirst(a[1..], c, b);
      assert [a[0]] + a[1..] == a;
    }
  }

  /** A string without the separator splits into itself alone. */
  lemma {:induction false} SplitWithout(a: string, c: char)
    requires c !in a
    ensures SplitOn(a, c) == [a]
  {
    if a != [] {
      SplitWithout(a[1..], c);
      assert [a[0]] + a[1..] == a;
    }
  }

  /** The ID check of every record: `len(s.split(" ")) == 1`, i.e. no literal space character.
      The empty string and other whitespace (tabs, newlines) pass. */
  predicate IsId(s: string)
    ensures IsId(s) <==> ' ' !in s
  {
    |SplitOn(s, ' ')| == 1
  }

  // ---------------------------------------------------------------------------
  // str.isalpha and str.lower, on ASCII

  predicate IsLetter(ch: char) {
    'a' <= ch <= 'z' || 'A' <= ch <= 'Z'
  }

  /** `s.isalpha()`: non-empty and letters only (ASCII approximation). */
  predicate IsAlpha(s: string) {
    |s| > 0 && forall i :: 0 <= i < |s| ==> IsLetter(s[i])
  }

  function LowerChar(ch: char): (r: char)
    ensures 'A' <= ch <= 'Z' ==> 'a' <= r <= 'z'
    ensures !('A' <= ch <= 'Z') ==> r == ch
  {
    if 'A' <= ch <= 'Z' then (ch as int - 'A' as int + 'a' as int) as char else ch
  }

  /** `s.lower()` (ASCII approximation). */
  function Lower(s: string): (r: string)
    ensures |r| == |s|
    ensures forall i :: 0 <= i < |s| ==> r[i] == LowerChar(s[i])
  {
    if s == [] then [] else [LowerChar(s[0])] + Lower(s[1..])
  }

  predicate IsLowerCase(s: string) {
    forall i :: 0 <= i < |s| ==> !('A' <= s[i] <= 'Z')
  }

  /** Lowercasing an alphabetic keyword keeps it alphabetic, makes it lower case, and is idempotent. */
  lemma LowerKeyword(s: string)
    ensures IsAlpha(s) ==> IsAlpha(Lower(s))
    ensures IsLowerCase(Lower(s))
    ensures Lower(Lower(s)) == Lower(s)
  {
  }

  /** A lower-case string is its own lowercasing. */
  lemma LowerOfLowerCase(s: string)
    requires IsLowerCase(s)
    ensures Lower(s) == s
  {
  }

  // ---------------------------------------------------------------------------
  // The {id, type, extra?} projection shared by Actor, Object, Origin and Target

  /** Validation of an entity's constructor arguments, in the order the source runs them:
      the id first (IDError), then the type keyword (KeyWordError), then extra (ExtraTypeError). */
  function EntityCheck(id: string, entityType: string, extra: Value): (err: Option<Error>)
    ensures err.None? <==> ' ' !in id && IsAlpha(entityType) && IsExtra(extra)
    ensures err == Some(IDError) <==> ' ' in id
    ensures err == Some(KeyWordError(entityType)) <==> ' ' !in id && !IsAlpha(entityType)
    ensures err == Some(ExtraTypeError) <==> ' ' !in id && IsAlpha(entityType) && !IsExtra(extra)
  {
    if !IsId(id) then Some(IDError)
    else if !IsAlpha(entityType) then Some(KeyWordError(entityType))
    else if !IsExtra(extra) then Some(ExtraTypeError)
    else None
  }

  /** `{"id": id, "type": type}` plus `"extra"` when extra is not None. */
  function EntityDict(id: string, entityType: string, extra: Option<Extra>): (d: Dict)
    ensures "id" in d && "type" in d
    ensures "extra" in d <==> extra.Some?
  {
    var base := map["id" := StrValue(id), "type" := StrValue(entityType)];
    if extra.Some? then base["extra" := DictValue(extra.value)] else base
  }

  datatype EntityFields = EntityFields(id: string, entityType: string, extra: Option<Extra>)

  /** Reads an entity projection back: the partner of EntityDict. */
  function ParseEntityDict(d: Dict): Option<EntityFields> {
    if "id" in d && d["id"].StrValue? && "type" in d && d["type"].StrValue?
       && d.Keys <= {"id", "type", "extra"}
       && ("extra" in d ==> d["extra"].DictValue?)
    then Some(EntityFields(d["id"].s, d["type"].s,
                           if "extra" in d then Some(d["extra"].entries) else None))
    else None
  }

  /** The projection loses nothing, and it is the only dict that reads back to these fields. */
  lemma EntityDictRoundTrip(id: string, entityType: string, extra: Option<Extra>, d: Dict)
    ensures ParseEntityDict(EntityDict(id, entityType, extra)) == Some(EntityFields(id, entityType, extra))
    ensures ParseEntityDict(d) == Some(EntityFields(id, entityType, extra)) ==> d == EntityDict(id, entityType, extra)
  {
    var e := EntityDict(id, entityType, extra);
    assert e.Keys == if extra.Some? then {"id", "type", "extra"} else {"id", "type"};
    if ParseEntityDict(d) == Some(EntityFields(id, entityType, extra)) {
      assert d.Keys == e.Keys;
    }
  }
}
