/**
 * Helpers of app/pkg/utils.go: the random string generators, with each
 * draw of `random.Intn` an arbitrary index into the charset and the
 * petname words a parameter; `ExtractString`, which reads one string out of
 * a decoded JSON object; and `BindPayloadToStruct`, which fills a struct's
 * string fields, in field order, from the keys its json tags name.
 */
module Utils {
  import opened Wrappers

  /** The charset of `GenerateRandomString`: lower-case letters, upper-case letters, digits. */
  const Alphanumeric: string := "abcdefghijklmnopqrstuvwxyzABCDEFGHIJKLMNOPQRSTUVWXYZ0123456789"

  /** The charset of `GenerateRandomNumericString`. */
  const Digits: string := "0123456789"

  /** A string of `length` characters each drawn from `charset` by an arbitrary index. */
  method RandomFrom(charset: string, length: nat) returns (s: string)
    requires |charset| > 0
    ensures |s| == length
    ensures forall i :: 0 <= i < |s| ==> s[i] in charset
  {
    var result := new char[length];
    for i := 0 to length
      invariant forall k :: 0 <= k < i ==> result[k] in charset
    {
      var index :| 0 <= index < |charset|;
      result[i] := charset[index];
    }
    s := result[..];
  }

  /** `GenerateRandomString`: `length` characters of the alphanumeric charset. */
  method GenerateRandomString(length: nat) returns (s: string)
    ensures |s| == length
    ensures forall i :: 0 <= i < |s| ==> s[i] in Alphanumeric
  {
    s := RandomFrom(Alphanumeric, length);
  }

  /** `GenerateRandomNumericString`: `length` decimal digits. */
  method GenerateRandomNumericString(length: nat) returns (s: string)
    ensures |s| == length
    ensures forall i :: 0 <= i < |s| ==> '0' <= s[i] <= '9'
  {
    s := RandomFrom(Digits, length);
    forall i | 0 <= i < |s|
      ensures '0' <= s[i] <= '9'
    {
      var k :| 0 <= k < |Digits| && Digits[k] == s[i];
      assert Digits[k] == ('0' as int + k) as char;
    }
  }

  /** `GenerateRandomUserName`: the petname words, a '-', and four random digits. */
  method GenerateRandomUserName(petName: string) returns (name: string)
    ensures |name| == |petName| + 5
    ensures name[..|petName|] == petName && name[|petName|] == '-'
    ensures forall i :: |petName| < i < |name| ==> '0' <= name[i] <= '9'
  {
    var digits := GenerateRandomNumericString(4);
    name := petName + "-" + digits;
    assert name[..|petName|] == petName;
    forall i | |petName| < i < |name|
      ensures '0' <= name[i] <= '9'
    {
      assert name[i] == digits[i - |petName| - 1];
    }
  }

  /** A decoded JSON value: a string, or something else, named by its Go type. */
  datatype Value = Str(text: string) | NonString(typeName: string)

  /** The message of `ExtractString`'s missing-key error. */
  function MissingKey(key: string): string
  {
    "missing key: " + key
  }

  /** The message of `ExtractString`'s wrong-type error. */
  function NotAString(key: string, typeName: string): string
  {
    "key '" + key + "' is not a string, found type " + typeName
  }

  /** `ExtractString`: the string under `key`, or "" and an error message when the key is missing or the value is not a string. */
  function ExtractString(payload: map<string, Value>, key: string): (r: (string, Option<string>))
    ensures r.1.None? <==> key in payload && payload[key].Str?
    ensures r.1.None? ==> r.0 == payload[key].text
    ensures r.1.Some? ==> r.0 == ""
    ensures key !in payload ==> r.1 == Some(MissingKey(key))
    ensures key in payload && payload[key].NonString? ==> r.1 == Some(NotAString(key, payload[key].typeName))
  {
    if key !in payload then ("", Some(MissingKey(key)))
    else match payload[key]
      case Str(text) => (text, None)
      case NonString(typeName) => ("", Some(NotAString(key, typeName)))
  }

  /** A struct whose fields are strings, each with a json tag, in declaration order. */
  class Struct {
    const tags: seq<string>
    var fields: seq<string>

    ghost predicate Valid()
      reads this
    {
      |fields| == |tags|
    }

    /** A struct value with every field at Go's zero value. */
    constructor(tags: seq<string>)
      ensures this.tags == tags && fields == seq(|tags|, _ => "") && Valid()
    {
      this.tags := tags;
      fields := seq(|tags|, _ => "");
    }
  }

  /** What `BindPayloadToStruct` is handed: a pointer to a struct, or anything else. */
  datatype Target = StructPointer(obj: Struct) | Other

  /** The message of the not-a-struct-pointer error. */
  const NotStructPointer: string := "provided object is not a pointer to a struct"

  /** The first tag, in field order, whose key cannot be extracted. */
  function FirstFailure(payload: map<string, Value>, tags: seq<string>): (r: Option<nat>)
    ensures r.None? ==> forall j :: 0 <= j < |tags| ==> ExtractString(payload, tags[j]).1.None?
    ensures r.Some? ==> r.value < |tags| && ExtractString(payload, tags[r.value]).1.Some?
    ensures r.Some? ==> forall j :: 0 <= j < r.value ==> ExtractString(payload, tags[j]).1.None?
  {
    if |tags| == 0 then None
    else if ExtractString(payload, tags[0]).1.Some? then Some(0)
    else match FirstFailure(payload, tags[1..])
      case None => None
      case Some(i) => Some(i + 1)
  }

  /** The fields with the first `n` set from the payload and the rest as they were. */
  function Bound(payload: map<string, Value>, tags: seq<string>, fields: seq<string>, n: nat): (r: seq<string>)
    requires |fields| == |tags| && n <= |tags|
    ensures |r| == |fields|
  {
    seq(|fields|, j requires 0 <= j < |fields| => if j < n then ExtractString(payload, tags[j]).0 else fields[j])
  }

  /** The error `BindPayloadToStruct` wraps around a failed extraction. */
  function BindFailed(key: string, cause: string): string
  {
    "failed to bind key '" + key + "': " + cause
  }

  /**
   * `BindPayloadToStruct`: refuses anything but a struct pointer; otherwise
   * sets the fields one by one and stops at the first key it cannot
   * extract, leaving the fields before it set and the rest untouched.
   */
  method BindPayloadToStruct(payload: map<string, Value>, target: Target) returns (err: Option<string>)
    requires target.StructPointer? ==> target.obj.Valid()
    modifies if target.StructPointer? then {target.obj} else {}
    ensures target.Other? ==> err == Some(NotStructPointer)
    ensures target.StructPointer? ==> target.obj.Valid()
    ensures target.StructPointer? && FirstFailure(payload, target.obj.tags).None? ==>
      err.None? && target.obj.fields == Bound(payload, target.obj.tags, old(target.obj.fields), |target.obj.tags|)
    ensures target.StructPointer? && FirstFailure(payload, target.obj.tags).Some? ==>
      var i := FirstFailure(payload, target.obj.tags).value;
      err == Some(BindFailed(target.obj.tags[i], ExtractString(payload, target.obj.tags[i]).1.value)) &&
      target.obj.fields == Bound(payload, target.obj.tags, old(target.obj.fields), i)
  {
    if target.Other? {
      return Some(NotStructPointer);
    }
    var obj := target.obj;
    var tags := obj.tags;
    for i := 0 to |tags|
      invariant obj.Valid()
      invariant obj.fields == Bound(payload, tags, old(obj.fields), i)
      invariant forall j :: 0 <= j < i ==> ExtractString(payload, tags[j]).1.None?
    {
      var fieldName := tags[i];
      var (fieldValue, extractErr) := ExtractString(payload, fieldName);
      if extractErr.Some? {
        FirstFailureAt(payload, tags, i);
        return Some(BindFailed(fieldName, extractErr.value));
      }
      obj.fields := obj.fields[i := fieldValue];
    }
    return None;
  }

  /** A failing tag with no failing tag before it is the first failure. */
  lemma FirstFailureAt(payload: map<string, Value>, tags: seq<string>, i: nat)
    requires i < |tags| && ExtractString(payload, tags[i]).1.Some?
    requires forall j :: 0 <= j < i ==> ExtractString(payload, tags[j]).1.None?
    ensures FirstFailure(payload, tags) == Some(i)
  {
  }

  /** With every key present as a string, binding sets every field to its payload string. */
  lemma BindAll(payload: map<string, Value>, tags: seq<string>, fields: seq<string>)
    requires |fields| == |tags|
    requires forall j :: 0 <= j < |tags| ==> tags[j] in payload && payload[tags[j]].Str?
    ensures FirstFailure(payload, tags).None?
    ensures forall j :: 0 <= j < |tags| ==> Bound(payload, tags, fields, |tags|)[j] == payload[tags[j]].text
  {
  }
}
