/** Total helpers over arrays, optional values and locale codes (src/lib/type-utils.ts). */
module TypeUtils {
  import Seqs

  /** The date-fns locales the site formats dates with. */
  datatype Locale = FaIR | EnUS | De

  /** A JavaScript value as the dynamic helpers see it at run time. */
  datatype JsValue = Undefined | Null | Bool(b: bool) | Number(n: int) | NaN | Str(s: string) | Obj(id: nat)

  /** JavaScript truthiness: `false`, `0`, `NaN`, `''`, `null` and `undefined` are falsy. */
  predicate Truthy(v: JsValue) {
    match v
    case Undefined => false
    case Null => false
    case Bool(b) => b
    case Number(n) => n != 0
    case NaN => false
    case Str(s) => s != ""
    case Obj(_) => true
  }

  /** `safeArrayAccess`: the element at `index` when it is a valid index, otherwise `undefined`.
      An element that is itself `undefined` reads the same as an index out of range. */
  function SafeArrayAccess(items: seq<JsValue>, index: int): (r: JsValue)
    ensures 0 <= index < |items| ==> r == items[index]
    ensures !(0 <= index < |items|) ==> r == Undefined
  {
    if index >= 0 && index < |items| then items[index] else Undefined
  }

  /** `withDefault`: the value unless it is `undefined` (a `null` is kept). */
  function WithDefault(value: JsValue, defaultValue: JsValue): (r: JsValue)
    ensures value != Undefined ==> r == value
    ensures value == Undefined ==> r == defaultValue
  {
    if value != Undefined then value else defaultValue
  }

  /** `isDefined`: the value is not `undefined`. */
  predicate IsDefined(value: JsValue) {
    value != Undefined
  }

  /** Reading through `safeArrayAccess` with a default gives the element when the index is valid
      and the element is not `undefined`, and the default otherwise; a `null` element is returned
      as it is, not replaced, and the result is `undefined` only when the default is. */
  lemma AccessWithDefault(items: seq<JsValue>, index: int, d: JsValue)
    ensures 0 <= index < |items| && items[index] != Undefined ==>
      WithDefault(SafeArrayAccess(items, index), d) == items[index]
    ensures 0 <= index < |items| && items[index] == Undefined ==>
      WithDefault(SafeArrayAccess(items, index), d) == d
    ensures !(0 <= index < |items|) ==> WithDefault(SafeArrayAccess(items, index), d) == d
    ensures 0 <= index < |items| && items[index] == Null ==> WithDefault(SafeArrayAccess(items, index), d) == Null
    ensures WithDefault(SafeArrayAccess(items, index), d) == Undefined ==> d == Undefined
  {
  }

  /** `ensureNumber`: the value when its type is number (NaN included), otherwise the default. */
  function EnsureNumber(value: JsValue, defaultValue: int): (r: JsValue)
    ensures r.Number? || r.NaN?
    ensures (value.Number? || value.NaN?) ==> r == value
    ensures !(value.Number? || value.NaN?) ==> r == Number(defaultValue)
  {
    match value
    case Number(_) => value
    case NaN => value
    case _ => Number(defaultValue)
  }

  /** `ensureString`: the value when it is a string, otherwise the default. */
  function EnsureString(value: JsValue, defaultValue: string): (r: string)
    ensures value.Str? ==> r == value.s
    ensures !value.Str? ==> r == defaultValue
  {
    if value.Str? then value.s else defaultValue
  }

  /** Applying either guard to its own result changes nothing. */
  lemma EnsureIdempotent(value: JsValue, d: int, e: string)
    ensures EnsureNumber(EnsureNumber(value, d), d) == EnsureNumber(value, d)
    ensures EnsureString(Str(EnsureString(value, e)), e) == EnsureString(value, e)
  {
  }

  /** `filterDefined`: the elements that are not `undefined`, in their original order. */
  function FilterDefined(items: seq<JsValue>): (r: seq<JsValue>)
    ensures |r| <= |items|
    ensures Undefined !in r
    ensures forall v :: v in items && v != Undefined ==> v in r
  {
    if items == [] then []
    else (if items[0] != Undefined then [items[0]] else []) + FilterDefined(items[1..])
  }

  /** `filterDefined` is exactly `array.filter(isDefined)`: it removes the `undefined` elements
      and keeps the others in order. */
  lemma {:induction false} FilterDefinedIsFilter(items: seq<JsValue>)
    ensures FilterDefined(items) == Seqs.Filter(items, IsDefined)
  {
    if items != [] {
      FilterDefinedIsFilter(items[1..]);
    }
  }

  /** `safeArrayUpdate`: a copy with element `index` replaced by `updater(item)` when the index is
      valid and the element is truthy; otherwise the input array unchanged. */
  function SafeArrayUpdate(items: seq<JsValue>, index: int, updater: JsValue -> JsValue): (r: seq<JsValue>)
    ensures |r| == |items|
    ensures 0 <= index < |items| && Truthy(items[index]) ==>
      r[index] == updater(items[index]) && forall j :: 0 <= j < |items| && j != index ==> r[j] == items[j]
    ensures !(0 <= index < |items| && Truthy(items[index])) ==> r == items
  {
    var item := SafeArrayAccess(items, index);
    if !Truthy(item) then items
    else items[index := updater(item)]
  }

  // ---- getValidLocale ----

  /** What `locales[code]` yields on the object literal `{ fa, en, de }`: an own property, a member
      inherited from `Object.prototype`, or `undefined`. */
  datatype Lookup = Found(locale: Locale) | Inherited(member: string) | Missing

  /** The members every plain object inherits from `Object.prototype`. */
  predicate IsObjectPrototypeMember(code: string) {
    code in ["constructor", "hasOwnProperty", "isPrototypeOf", "propertyIsEnumerable",
             "toLocaleString", "toString", "valueOf", "__proto__", "__defineGetter__",
             "__defineSetter__", "__lookupGetter__", "__lookupSetter__"]
  }

  function LocalesLookup(code: string): Lookup {
    if code == "fa" then Found(FaIR)
    else if code == "en" then Found(EnUS)
    else if code == "de" then Found(De)
    else if IsObjectPrototypeMember(code) then Inherited(code)
    else Missing
  }

  /** `getValidLocale` as written: `locales[language] ?? faIR` falls back only when the lookup
      is `undefined`, so an inherited member is returned instead of a locale. */
  function GetValidLocaleAsWritten(code: string): (r: Lookup)
    ensures r.Missing? == false
  {
    match LocalesLookup(code)
    case Missing => Found(FaIR)
    case other => other
  }

  /** The code "toString" gets back `Object.prototype.toString`, not a locale. */
  lemma AsWrittenReturnsNonLocale()
    ensures !GetValidLocaleAsWritten("toString").Found?
  {
  }

  /** `getValidLocale` as intended: fa, en and de map to their locales, any other code to Persian. */
  function GetValidLocale(code: string): (r: Locale)
    ensures code == "en" ==> r == EnUS
    ensures code == "de" ==> r == De
    ensures code != "en" && code != "de" ==> r == FaIR
  {
    if code == "en" then EnUS else if code == "de" then De else FaIR
  }

  /** The corrected lookup agrees with the written one on every code that is not an
      `Object.prototype` member name. */
  lemma GetValidLocaleAgrees(code: string)
    requires !IsObjectPrototypeMember(code)
    ensures GetValidLocaleAsWritten(code) == Found(GetValidLocale(code))
  {
  }
}
