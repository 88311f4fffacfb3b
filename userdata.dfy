/**
 * The URL-payload loader of App.tsx (loadUserData): choose a payload
 * source among the query parameters, decode it (secure path through
 * decryptData and validateSecureData, or the legacy `data` JSON), and turn
 * an accepted payload into the card's DailyLogData with numeric defaults.
 * Whatever goes wrong, the data the card shows stays as it was (the mock
 * data at start-up).
 *
 * URLSearchParams, decodeURIComponent, parseInt and JSON.parse are engine
 * calls and come in as the fields of Env; the clock is the parameter `now`.
 */
module UserData {
  import opened Wrappers
  import opened Json
  import opened Encryption

  datatype Weight = Weight(current: real, diff: real)
  datatype Calories = Calories(current: real, target: real)
  datatype Macro = Macro(current: real, target: real, unit: string)
  datatype Pfc = Pfc(p: Macro, f: Macro, c: Macro)
  datatype Exercise = Exercise(minutes: real, caloriesBurned: real)

  /** The card's date: the clock's current date, or the Date built from a payload value. */
  datatype CardDate = Today | DateOf(raw: Json)

  datatype DailyLogData = DailyLogData(
    date: CardDate,
    weight: Weight,
    calories: Calories,
    pfc: Pfc,
    exercise: Exercise,
    achievementRate: real)

  /** The daily targets of the macro nutrients, in grams, whatever the payload says. */
  const ProteinTarget: real := 160.0
  const FatTarget: real := 65.0
  const CarbsTarget: real := 240.0
  /** The calorie target used when the payload gives none (or a zero or non-number). */
  const DefaultCaloriesTarget: real := 2100.0

  /** MOCK_DATA: what the card shows until a payload is accepted. */
  const MockData: DailyLogData := DailyLogData(
    Today,
    Weight(72.4, -0.4),
    Calories(1850.0, 2100.0),
    Pfc(Macro(145.0, ProteinTarget, "g"), Macro(48.0, FatTarget, "g"), Macro(210.0, CarbsTarget, "g")),
    Exercise(45.0, 320.0),
    88.0)

  /** The query parameters the loader reads; None when a parameter is absent. */
  datatype UrlParams = UrlParams(secure: Option<string>, t: Option<string>, u: Option<string>, data: Option<string>)

  datatype Source = SecureSource | LegacySource | NoSource

  /** The secure parameters are used only together, and then before the legacy `data` parameter. */
  function SelectSource(p: UrlParams): (r: Source)
    ensures r == SecureSource <==> IsTruthy(p.secure) && IsTruthy(p.t) && IsTruthy(p.u)
    ensures r == LegacySource <==> !(IsTruthy(p.secure) && IsTruthy(p.t) && IsTruthy(p.u)) && IsTruthy(p.data)
    ensures r == NoSource <==> !(IsTruthy(p.secure) && IsTruthy(p.t) && IsTruthy(p.u)) && !IsTruthy(p.data)
  {
    if IsTruthy(p.secure) && IsTruthy(p.t) && IsTruthy(p.u) then SecureSource
    else if IsTruthy(p.data) then LegacySource
    else NoSource
  }

  /** The engine calls the loader makes; each Option is None where the call throws (or, for parseInt, yields NaN). */
  datatype Env = Env(
    decodeUri: string -> Option<string>,
    parseInt: string -> Option<int>,
    parseJson: string -> Option<Json>,
    crypto: Crypto,
    numbers: NumberOps)

  /** The largest time value a JavaScript Date holds, in milliseconds either side of the epoch. */
  const MaxTimeValue: int := 8_640_000_000_000_000

  /**
   * The secure path's log line formats `new Date(expiresAt).toISOString()`,
   * which throws (RangeError) for a missing or out-of-range expiry.
   */
  predicate IsoStringDefined(expiresAt: Option<int>)
    ensures IsoStringDefined(expiresAt) ==> expiresAt.Some?
    ensures expiresAt.Some? && (expiresAt.value < -MaxTimeValue || MaxTimeValue < expiresAt.value) ==> !IsoStringDefined(expiresAt)
  {
    expiresAt.Some? && -MaxTimeValue <= expiresAt.value <= MaxTimeValue
  }

  /**
   * Why the secure path accepts a decrypted payload: it logs, it is valid, and it belongs to the `u` user.
   * An accepted payload names a non-empty user, the `u` one, and now lies in its validity window.
   */
  predicate Accepted(d: SecurePayload, userIdParam: string, now: int)
    ensures Accepted(d, userIdParam, now) ==>
      && userIdParam != "" && d.userId == Some(userIdParam)
      && d.timestamp.Some? && d.expiresAt.Some? && d.timestamp.value <= now <= d.expiresAt.value
      && d.expiresAt.value <= MaxTimeValue
  {
    IsoStringDefined(d.expiresAt) && ValidateSecureData(d, now) && d.userId == Some(userIdParam)
  }

  /** The secure path: `decodedData`, or None when a step throws or the payload carries no data. */
  function SecureDecoded(p: UrlParams, now: int, env: Env): (r: Option<Json>)
    requires SelectSource(p) == SecureSource
    ensures r.Some? ==>
      && env.decodeUri(p.secure.value).Some?
      && var outcome := DecryptData(env.decodeUri(p.secure.value).value, p.u.value, env.parseInt(p.t.value), env.crypto);
      && outcome.Ok? && Accepted(outcome.value, p.u.value, now) && r == outcome.value.data
    ensures env.decodeUri(p.secure.value).Some? ==>
      var outcome := DecryptData(env.decodeUri(p.secure.value).value, p.u.value, env.parseInt(p.t.value), env.crypto);
      outcome.Ok? && Accepted(outcome.value, p.u.value, now) ==> r == outcome.value.data
  {
    match env.decodeUri(p.secure.value)
    case None => None
    case Some(encrypted) =>
      match DecryptData(encrypted, p.u.value, env.parseInt(p.t.value), env.crypto)
      case Err(_) => None
      case Ok(d) =>
        if !IsoStringDefined(d.expiresAt) then None
        else if !ValidateSecureData(d, now) then None
        else if d.userId != Some(p.u.value) then None
        else d.data
  }

  /** The legacy path: JSON.parse(decodeURIComponent(data)), or None when either throws. */
  function LegacyDecoded(p: UrlParams, env: Env): (r: Option<Json>)
    requires SelectSource(p) == LegacySource
    ensures r.Some? <==> env.decodeUri(p.data.value).Some? && env.parseJson(env.decodeUri(p.data.value).value).Some?
    ensures r.Some? ==> r == env.parseJson(env.decodeUri(p.data.value).value)
  {
    match env.decodeUri(p.data.value)
    case None => None
    case Some(text) => env.parseJson(text)
  }

  /** `decodedData` of the chosen source; None when there is none, when it is undefined, or when a step threw. */
  function Decoded(p: UrlParams, now: int, env: Env): (r: Option<Json>)
    ensures SelectSource(p) == NoSource ==> r.None?
    ensures SelectSource(p) == SecureSource ==> r == SecureDecoded(p, now, env)
    ensures SelectSource(p) == LegacySource ==> r == LegacyDecoded(p, env)
  {
    match SelectSource(p)
    case SecureSource => SecureDecoded(p, now, env)
    case LegacySource => LegacyDecoded(p, env)
    case NoSource => None
  }

  /** Converting the value under `key` throws (a missing key is `undefined`, which converts). */
  predicate KeyThrows(v: Json, key: string) {
    Property(v, key).Some? && ConversionThrows(Property(v, key).value)
  }

  /**
   * Building userData from `v` throws: one of the keys it converts holds a
   * value whose conversion throws. Such a value is an object or an array,
   * so a throwing date is always truthy and reaches `new Date`.
   */
  predicate NormalizeThrows(v: Json) {
    || KeyThrows(v, "date")
    || KeyThrows(v, "weight") || KeyThrows(v, "weightDiff")
    || KeyThrows(v, "calories") || KeyThrows(v, "caloriesTarget")
    || KeyThrows(v, "protein") || KeyThrows(v, "fat") || KeyThrows(v, "carbs")
    || KeyThrows(v, "exerciseTime") || KeyThrows(v, "exerciseBurned")
    || KeyThrows(v, "achievementRate")
  }

  /** The TypeError's message as V8 words it; the loader only logs it. */
  const ConversionError := "Cannot convert object to primitive value"

  /**
   * `x` is `Number(v[key]) || dflt`: the number the key converts to when
   * that is a number other than zero, and the default when the key is
   * missing or converts to zero or NaN.
   */
  predicate Coerced(x: real, v: Json, key: string, dflt: real, ops: NumberOps)
    requires !KeyThrows(v, key)
  {
    var n := ToNumber(Property(v, key), ops);
    && (n.Some? && n.value != 0.0 ==> x == n.value)
    && (n.None? || n.value == 0.0 ==> x == dflt)
  }

  /** `Number(v[key]) || dflt` for a key whose value converts. */
  function Field(v: Json, key: string, dflt: real, ops: NumberOps): (x: real)
    requires !KeyThrows(v, key)
    ensures Coerced(x, v, key, dflt, ops)
  {
    NumberOr(Property(v, key), dflt, ops)
  }

  /** The userData object built from an accepted payload whose conversions do not throw. */
  function UserDataOf(v: Json, ops: NumberOps): (d: DailyLogData)
    requires !NormalizeThrows(v)
    ensures Coerced(d.weight.current, v, "weight", 0.0, ops)
    ensures Coerced(d.weight.diff, v, "weightDiff", 0.0, ops)
    ensures Coerced(d.calories.current, v, "calories", 0.0, ops)
    ensures Coerced(d.calories.target, v, "caloriesTarget", DefaultCaloriesTarget, ops)
    ensures Coerced(d.pfc.p.current, v, "protein", 0.0, ops)
    ensures Coerced(d.pfc.f.current, v, "fat", 0.0, ops)
    ensures Coerced(d.pfc.c.current, v, "carbs", 0.0, ops)
    ensures Coerced(d.exercise.minutes, v, "exerciseTime", 0.0, ops)
    ensures Coerced(d.exercise.caloriesBurned, v, "exerciseBurned", 0.0, ops)
    ensures Coerced(d.achievementRate, v, "achievementRate", 0.0, ops)
    ensures d.pfc.p == Macro(d.pfc.p.current, ProteinTarget, "g")
    ensures d.pfc.f == Macro(d.pfc.f.current, FatTarget, "g")
    ensures d.pfc.c == Macro(d.pfc.c.current, CarbsTarget, "g")
    ensures d.calories.target != 0.0
    ensures Property(v, "caloriesTarget").None? ==> d.calories.target == DefaultCaloriesTarget
    ensures Property(v, "weight").None? ==> d.weight.current == 0.0
    ensures Truthy(Property(v, "date")) ==> d.date == DateOf(Property(v, "date").value)
    ensures !Truthy(Property(v, "date")) ==> d.date == Today
  {
    var date := Property(v, "date");
    DailyLogData(
      if Truthy(date) then DateOf(date.value) else Today,
      Weight(Field(v, "weight", 0.0, ops), Field(v, "weightDiff", 0.0, ops)),
      Calories(Field(v, "calories", 0.0, ops), Field(v, "caloriesTarget", DefaultCaloriesTarget, ops)),
      Pfc(
        Macro(Field(v, "protein", 0.0, ops), ProteinTarget, "g"),
        Macro(Field(v, "fat", 0.0, ops), FatTarget, "g"),
        Macro(Field(v, "carbs", 0.0, ops), CarbsTarget, "g")),
      Exercise(Field(v, "exerciseTime", 0.0, ops), Field(v, "exerciseBurned", 0.0, ops)),
      Field(v, "achievementRate", 0.0, ops))
  }

  /**
   * Building userData inside the loader's try block: the object, or the
   * TypeError thrown when a key's value cannot be converted.
   */
  function Normalize(v: Json, ops: NumberOps): (r: Result<DailyLogData>)
    ensures r.Err? <==> NormalizeThrows(v)
    ensures r.Err? ==> r.message == ConversionError
    ensures r.Ok? ==> r.value == UserDataOf(v, ops)
  {
    if NormalizeThrows(v) then Err(ConversionError) else Ok(UserDataOf(v, ops))
  }

  /**
   * loadUserData: the data the card shows after the loader ran, starting
   * from `current`. It changes only to the normalised form of a decoded
   * payload that is an object (or array) and normalises without throwing.
   */
  function LoadUserData(p: UrlParams, now: int, env: Env, current: DailyLogData): (r: DailyLogData)
    ensures SelectSource(p) == NoSource ==> r == current
    ensures r != current ==> Decoded(p, now, env).Some? && IsObject(Decoded(p, now, env).value)
    ensures r != current ==> Normalize(Decoded(p, now, env).value, env.numbers) == Ok(r)
  {
    match Decoded(p, now, env)
    case None => current
    case Some(v) =>
      if Truthy(Some(v)) && IsObject(v) then
        match Normalize(v, env.numbers)
        case Ok(d) => d
        case Err(_) => current
      else current
  }

  // ---------------------------------------------------------------------
  // Source selection

  /** With all three secure parameters, the legacy `data` parameter plays no part. */
  lemma SecurePathTakesPrecedence(p: UrlParams, data: Option<string>, now: int, env: Env, current: DailyLogData)
    requires IsTruthy(p.secure) && IsTruthy(p.t) && IsTruthy(p.u)
    ensures LoadUserData(p, now, env, current) == LoadUserData(p.(data := data), now, env, current)
  {
  }

  /** Without all three secure parameters, whatever secure parameters are present are ignored. */
  lemma PartialSecureParamsIgnored(p: UrlParams, now: int, env: Env, current: DailyLogData)
    requires !(IsTruthy(p.secure) && IsTruthy(p.t) && IsTruthy(p.u))
    ensures LoadUserData(p, now, env, current) == LoadUserData(UrlParams(None, None, None, p.data), now, env, current)
  {
  }

  /** With no usable parameter the mock data stays. */
  lemma NoParamsKeepMockData(now: int, env: Env)
    ensures LoadUserData(UrlParams(None, None, None, None), now, env, MockData) == MockData
  {
  }

  /**
   * The secure path end to end: a payload that decrypts, can be logged,
   * passes validation and belongs to the `u` user, and whose data is an
   * object, makes the card show that data normalised; if normalising it
   * throws, the data stays.
   */
  lemma SecurePayloadShown(p: UrlParams, payload: SecurePayload, now: int, env: Env, current: DailyLogData)
    requires SelectSource(p) == SecureSource
    requires env.decodeUri(p.secure.value).Some?
    requires DecryptData(env.decodeUri(p.secure.value).value, p.u.value, env.parseInt(p.t.value), env.crypto) == Ok(payload)
    requires Accepted(payload, p.u.value, now)
    requires payload.data.Some? && IsObject(payload.data.value)
    ensures !NormalizeThrows(payload.data.value) ==> LoadUserData(p, now, env, current) == UserDataOf(payload.data.value, env.numbers)
    ensures NormalizeThrows(payload.data.value) ==> LoadUserData(p, now, env, current) == current
  {
    assert Decoded(p, now, env) == payload.data;
  }

  // ---------------------------------------------------------------------
  // Rejections: each leaves the data unchanged

  /** A secure payload that fails to decrypt, fails validation or belongs to another user changes nothing. */
  lemma RejectedSecurePayloadKeepsData(p: UrlParams, now: int, env: Env, current: DailyLogData)
    requires SelectSource(p) == SecureSource
    requires env.decodeUri(p.secure.value).Some?
    requires var outcome := DecryptData(env.decodeUri(p.secure.value).value, p.u.value, env.parseInt(p.t.value), env.crypto);
      outcome.Err? || !ValidateSecureData(outcome.value, now) || outcome.value.userId != Some(p.u.value)
    ensures LoadUserData(p, now, env, current) == current
  {
  }

  /** A malformed escape in the parameter (decodeURIComponent throws) changes nothing, on either path. */
  lemma UndecodableParamKeepsData(p: UrlParams, now: int, env: Env, current: DailyLogData)
    requires SelectSource(p) == SecureSource ==> env.decodeUri(p.secure.value).None?
    requires SelectSource(p) == LegacySource ==> env.decodeUri(p.data.value).None?
    ensures LoadUserData(p, now, env, current) == current
  {
  }

  /** Legacy data that is not JSON changes nothing. */
  lemma MalformedLegacyDataKeepsData(p: UrlParams, text: string, now: int, env: Env, current: DailyLogData)
    requires SelectSource(p) == LegacySource
    requires env.decodeUri(p.data.value) == Some(text) && env.parseJson(text).None?
    ensures LoadUserData(p, now, env, current) == current
  {
  }

  /** A decoded payload that is not an object (null, a number, a string, a boolean) changes nothing. */
  lemma NonObjectPayloadKeepsData(p: UrlParams, now: int, env: Env, current: DailyLogData)
    requires Decoded(p, now, env).Some? && !IsObject(Decoded(p, now, env).value)
    ensures LoadUserData(p, now, env, current) == current
  {
  }

  /**
   * A decoded object replaces the data by its normalised form, unless a
   * conversion throws (a value with a "toString" key of its own), which
   * changes nothing.
   */
  lemma ObjectPayloadNormalized(p: UrlParams, now: int, env: Env, current: DailyLogData)
    requires Decoded(p, now, env).Some? && IsObject(Decoded(p, now, env).value)
    ensures !NormalizeThrows(Decoded(p, now, env).value) ==>
      LoadUserData(p, now, env, current) == UserDataOf(Decoded(p, now, env).value, env.numbers)
    ensures NormalizeThrows(Decoded(p, now, env).value) ==> LoadUserData(p, now, env, current) == current
  {
  }

  /** Legacy data `{"weight":{"toString":0}}`: Number(weight) throws a TypeError, so nothing changes. */
  lemma ToStringKeyKeepsData(p: UrlParams, text: string, now: int, env: Env, current: DailyLogData)
    requires SelectSource(p) == LegacySource
    requires env.decodeUri(p.data.value) == Some(text)
    requires env.parseJson(text) == Some(JObject(map["weight" := JObject(map["toString" := JNumber(0.0)])]))
    ensures LoadUserData(p, now, env, current) == current
  {
  }

  // ---------------------------------------------------------------------
  // Normalisation

  /** The payload object a DailyLogData is sent as, under the keys the loader reads. */
  function PayloadOf(d: DailyLogData): Json {
    match d.date
    case Today => JObject(PayloadNumberFields(d))
    case DateOf(raw) => JObject(PayloadNumberFields(d)["date" := raw])
  }

  /** The numeric keys of that payload. */
  function PayloadNumberFields(d: DailyLogData): map<string, Json> {
    map[
      "weight" := JNumber(d.weight.current),
      "weightDiff" := JNumber(d.weight.diff),
      "calories" := JNumber(d.calories.current),
      "caloriesTarget" := JNumber(d.calories.target),
      "protein" := JNumber(d.pfc.p.current),
      "fat" := JNumber(d.pfc.f.current),
      "carbs" := JNumber(d.pfc.c.current),
      "exerciseTime" := JNumber(d.exercise.minutes),
      "exerciseBurned" := JNumber(d.exercise.caloriesBurned),
      "achievementRate" := JNumber(d.achievementRate)]
  }

  /** The data a normalised payload can carry: fixed macro targets, a non-zero calorie target, a truthy date that converts. */
  predicate Representable(d: DailyLogData) {
    && d.pfc.p.target == ProteinTarget && d.pfc.f.target == FatTarget && d.pfc.c.target == CarbsTarget
    && d.pfc.p.unit == "g" && d.pfc.f.unit == "g" && d.pfc.c.unit == "g"
    && d.calories.target != 0.0
    && (d.date.DateOf? ==> Truthy(Some(d.date.raw)) && !ConversionThrows(d.date.raw))
  }

  /** Each numeric key of the payload holds the number it was built from. */
  lemma PayloadNumbers(d: DailyLogData)
    ensures PayloadOf(d).JObject?
    ensures Property(PayloadOf(d), "weight") == Some(JNumber(d.weight.current))
    ensures Property(PayloadOf(d), "weightDiff") == Some(JNumber(d.weight.diff))
    ensures Property(PayloadOf(d), "calories") == Some(JNumber(d.calories.current))
    ensures Property(PayloadOf(d), "caloriesTarget") == Some(JNumber(d.calories.target))
    ensures Property(PayloadOf(d), "protein") == Some(JNumber(d.pfc.p.current))
    ensures Property(PayloadOf(d), "fat") == Some(JNumber(d.pfc.f.current))
    ensures Property(PayloadOf(d), "carbs") == Some(JNumber(d.pfc.c.current))
    ensures Property(PayloadOf(d), "exerciseTime") == Some(JNumber(d.exercise.minutes))
    ensures Property(PayloadOf(d), "exerciseBurned") == Some(JNumber(d.exercise.caloriesBurned))
    ensures Property(PayloadOf(d), "achievementRate") == Some(JNumber(d.achievementRate))
    ensures d.date.Today? ==> Property(PayloadOf(d), "date") == None
    ensures d.date.DateOf? ==> Property(PayloadOf(d), "date") == Some(d.date.raw)
  {
    var m := PayloadNumberFields(d);
    NumberFieldsHold(d);
    if d.date.DateOf? {
      assert PayloadOf(d).fields == m["date" := d.date.raw];
    }
  }

  /** The numeric map's lookups, key by key. */
  lemma NumberFieldsHold(d: DailyLogData)
    ensures "date" !in PayloadNumberFields(d)
    ensures PayloadNumberFields(d)["weight"] == JNumber(d.weight.current)
    ensures PayloadNumberFields(d)["weightDiff"] == JNumber(d.weight.diff)
    ensures PayloadNumberFields(d)["calories"] == JNumber(d.calories.current)
    ensures PayloadNumberFields(d)["caloriesTarget"] == JNumber(d.calories.target)
    ensures PayloadNumberFields(d)["protein"] == JNumber(d.pfc.p.current)
    ensures PayloadNumberFields(d)["fat"] == JNumber(d.pfc.f.current)
    ensures PayloadNumberFields(d)["carbs"] == JNumber(d.pfc.c.current)
    ensures PayloadNumberFields(d)["exerciseTime"] == JNumber(d.exercise.minutes)
    ensures PayloadNumberFields(d)["exerciseBurned"] == JNumber(d.exercise.caloriesBurned)
    ensures PayloadNumberFields(d)["achievementRate"] == JNumber(d.achievementRate)
  {
  }

  /** Normalising the payload of representable data gives that data back: no field is lost or altered. */
  lemma NormalizeOfPayload(d: DailyLogData, ops: NumberOps)
    requires Representable(d)
    ensures Normalize(PayloadOf(d), ops) == Ok(d)
  {
    var v := PayloadOf(d);
    PayloadNumbers(d);
    assert !NormalizeThrows(v);
    var n := UserDataOf(v, ops);
    assert n.weight == d.weight;
    assert n.calories == d.calories;
    assert n.pfc == d.pfc;
    assert n.exercise == d.exercise;
    assert n.achievementRate == d.achievementRate;
    assert n.date == d.date;
  }

  /** So a legacy URL carrying such a payload shows exactly that data. */
  lemma LegacyPayloadShown(p: UrlParams, d: DailyLogData, now: int, env: Env, current: DailyLogData)
    requires SelectSource(p) == LegacySource
    requires Representable(d)
    requires env.decodeUri(p.data.value).Some? && env.parseJson(env.decodeUri(p.data.value).value) == Some(PayloadOf(d))
    ensures LoadUserData(p, now, env, current) == d
  {
    PayloadNumbers(d);
    assert Decoded(p, now, env) == Some(PayloadOf(d));
    NormalizeOfPayload(d, env.numbers);
  }
}
