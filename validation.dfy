/**
 * The shape validators of `src/utils/dataValidation.ts`: total predicates over untyped
 * values, and the two loaders that fall back to a default value.
 */
module DataValidation {
  import opened Wrappers
  import opened JsonValues
  import opened Sequences

  /** `validateData`: `data != null && typeof data === 'object'`. */
  function ValidateData(v: Json): (ok: bool)
    ensures ok <==> v.JArr? || v.JObj?
  {
    !Nullish(v) && TypeOf(v) == "object"
  }

  /** `validateArray`: `Array.isArray(data)`; the empty array passes. */
  function ValidateArray(v: Json): (ok: bool)
    ensures ok ==> ValidateData(v)
    ensures v == JArr([]) ==> ok
    ensures ok <==> ValidateData(v) && !v.JObj?
    ensures v.JStr? || Nullish(v) ==> !ok
  {
    v.JArr?
  }

  /** `validateNonEmptyArray`: an array with at least one element. */
  function ValidateNonEmptyArray(v: Json): (ok: bool)
    ensures ok <==> ValidateArray(v) && v.items != []
  {
    v.JArr? && |v.items| > 0
  }

  /** `obj.hasOwnProperty(prop) && obj[prop] != null`. */
  predicate HasRequired(v: Json, key: string) {
    match OwnProperty(v, key)
    case Some(x) => !Nullish(x)
    case None => false
  }

  /** `requiredProps.every(...)`, checked from the first key on. */
  function EveryRequired(v: Json, keys: seq<string>): (ok: bool)
    ensures ok <==> forall i :: 0 <= i < |keys| ==> HasRequired(v, keys[i])
  {
    keys == [] || (HasRequired(v, keys[0]) && EveryRequired(v, keys[1..]))
  }

  /** `validateObjectProperties`: false for non-objects, else every listed key is an own, non-null property. */
  function ValidateObjectProperties(v: Json, keys: seq<string>): (ok: bool)
    ensures ok <==> ValidateData(v) && forall k :: k in keys ==> HasRequired(v, k)
    ensures keys == [] ==> (ok <==> ValidateData(v))
  {
    ValidateData(v) && EveryRequired(v, keys)
  }

  /** The object `v` has own property `k` holding a string (resp. boolean, number, array). */
  predicate StrField(v: Json, k: string) { v.JObj? && k in v.fields && v.fields[k].JStr? }
  predicate BoolField(v: Json, k: string) { v.JObj? && k in v.fields && v.fields[k].JBool? }
  predicate NumField(v: Json, k: string) { v.JObj? && k in v.fields && v.fields[k].JNum? }
  predicate ArrField(v: Json, k: string) { v.JObj? && k in v.fields && v.fields[k].JArr? }

  const ServiceKeys: seq<string> := ["id", "title", "description", "icon", "image", "features"]
  const TestimonialKeys: seq<string> := ["id", "name", "event", "rating", "comment", "visible"]
  const ReferenceKeys: seq<string> := ["id", "name", "type", "event", "year", "visible"]
  const SlotKeys: seq<string> := ["date", "available", "type"]

  /** Property names that start with a letter are never own properties of an array. */
  lemma NamedKeysMissOnArrays(v: Json, keys: seq<string>)
    requires keys != [] && |keys[0]| > 0 && !IsDigit(keys[0][0]) && keys[0] != "length"
    ensures v.JArr? ==> !ValidateObjectProperties(v, keys)
  {
    if v.JArr? {
      assert !HasRequired(v, keys[0]);
    }
  }

  /** `validateService`: the six keys present, five strings and an array of features. */
  function ValidateService(v: Json): (ok: bool)
    ensures ok ==> ValidateObjectProperties(v, ServiceKeys)
    ensures ok <==> StrField(v, "id") && StrField(v, "title") && StrField(v, "description")
                    && StrField(v, "icon") && StrField(v, "image") && ArrField(v, "features")
  {
    NamedKeysMissOnArrays(v, ServiceKeys);
      && ValidateObjectProperties(v, ServiceKeys)
      && Get(v, "id").JStr?
      && Get(v, "title").JStr?
      && Get(v, "description").JStr?
      && Get(v, "icon").JStr?
      && Get(v, "image").JStr?
      && Get(v, "features").JArr?
  }

  /** `validateTestimonial`: `visible` must be a boolean, not necessarily true; `date` is not required. */
  function ValidateTestimonial(v: Json): (ok: bool)
    ensures ok ==> ValidateObjectProperties(v, TestimonialKeys)
    ensures ok <==> StrField(v, "id") && StrField(v, "name") && StrField(v, "event")
                    && NumField(v, "rating") && StrField(v, "comment") && BoolField(v, "visible")
  {
    NamedKeysMissOnArrays(v, TestimonialKeys);
      && ValidateObjectProperties(v, TestimonialKeys)
      && Get(v, "id").JStr?
      && Get(v, "name").JStr?
      && Get(v, "event").JStr?
      && Get(v, "rating").JNum?
      && Get(v, "comment").JStr?
      && Get(v, "visible").JBool?
  }

  /** `validateReference`: five strings and a boolean `visible`. */
  function ValidateReference(v: Json): (ok: bool)
    ensures ok ==> ValidateObjectProperties(v, ReferenceKeys)
    ensures ok <==> StrField(v, "id") && StrField(v, "name") && StrField(v, "type")
                    && StrField(v, "event") && StrField(v, "year") && BoolField(v, "visible")
  {
    NamedKeysMissOnArrays(v, ReferenceKeys);
      && ValidateObjectProperties(v, ReferenceKeys)
      && Get(v, "id").JStr?
      && Get(v, "name").JStr?
      && Get(v, "type").JStr?
      && Get(v, "event").JStr?
      && Get(v, "year").JStr?
      && Get(v, "visible").JBool?
  }

  /** `validateAvailabilitySlot`: a non-empty string date, a boolean `available` and a string `type`. */
  function ValidateAvailabilitySlot(v: Json): (ok: bool)
    ensures ok ==> ValidateObjectProperties(v, SlotKeys)
    ensures ok <==> StrField(v, "date") && v.fields["date"].s != ""
                    && BoolField(v, "available") && StrField(v, "type")
  {
    NamedKeysMissOnArrays(v, SlotKeys);
      && ValidateObjectProperties(v, SlotKeys)
      && Get(v, "date").JStr?
      && Get(v, "available").JBool?
      && Get(v, "type").JStr?
      && |Get(v, "date").s| > 0
  }

  /**
   * `safeParseJSON(text, fallback)`, with `JSON.parse(text)` given as its outcome:
   * the parsed value when parsing succeeds and it is an object, the fallback otherwise.
   */
  function SafeParseJson(parsed: Result<Json, string>, fallback: Json): (r: Json)
    ensures r == fallback || (parsed == Ok(r) && ValidateData(r))
    ensures parsed.Ok? && ValidateData(parsed.value) ==> r == parsed.value
  {
    match parsed
    case Ok(v) => if ValidateData(v) then v else fallback
    case Err(_) => fallback
  }

  /** `safeImportJSON(importFn, fallback)`, with the call `importFn()` given as its outcome (a throw is `Err`). */
  function SafeImportJson(imported: Result<Json, string>, fallback: Json): (r: Json)
    ensures r == fallback || (imported == Ok(r) && ValidateData(r))
    ensures imported.Ok? && ValidateData(imported.value) ==> r == imported.value
  {
    match imported
    case Ok(v) => if ValidateData(v) then v else fallback
    case Err(_) => fallback
  }

  /** With an object as fallback, both loaders always hand their caller an object. */
  lemma SafeLoadersYieldObjects(outcome: Result<Json, string>, fallback: Json)
    requires ValidateData(fallback)
    ensures ValidateData(SafeParseJson(outcome, fallback))
    ensures ValidateData(SafeImportJson(outcome, fallback))
  {
  }
}
