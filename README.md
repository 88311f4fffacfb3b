# health-share card: a Dafny model of its deterministic core

health-share renders a daily health summary card (weight, calories, macro
nutrients, exercise) that a user can zoom, pan, restyle and share. The card's
data can arrive in the URL, either as an encrypted "secure" payload
(`secure`, `t`, `u` parameters) or as a legacy plain JSON `data` parameter.
This project models the parts of that program that are logic rather than
rendering, and proves properties of them:

- `gesture.dfy` (module `Gesture`): the card's zoom and pan controller in
  App.tsx. This covers wheel zoom, two-finger pinch zoom with a recorded
  baseline, double tap to reset, and the pan offset set by the draggable
  layer. The pure `Step`/`Run` functions are the specification. The class
  `GestureController` holds the component's refs and state as fields.
  Each of its handlers is proved to perform exactly one `Step` and to keep
  the zoom in [0.3, 3].
- `selectors.dfy` (module `Selectors`): the accent-theme and background
  buttons of the control panel. It also shows how the chosen background,
  the custom image and the font picker reach the card.
- `json.dfy` (module `Json`): the JavaScript semantics the loader relies on.
  This covers truthiness, `typeof … === 'object'`, property reads and the
  `Number(x) || d` defaults.
- `encryption.dfy` (module `Encryption`): `validateSecureData`, and the
  deterministic part of `decryptData`: the salt/IV/ciphertext split of the
  decoded bytes, the key-derivation password, and the single fixed error.
- `userdata.dfy` (module `UserData`): `loadUserData` in App.tsx. It picks
  the payload source, takes the secure or legacy decoding path, and
  normalises the payload into `DailyLogData`. Every failure leaves the
  shown data (initially the mock data) unchanged. That includes the
  TypeError `Number(x)` and `new Date(x)` throw for an object with a
  `toString` key of its own.
- `card.dfy` (module `DailyLogCard`): the selection rules of
  components/DailyLogCard.tsx:
  - the font classes;
  - the forced dark mode under a custom image, with its palette and root
    background;
  - the weight-trend icon and colour, and the number colour;
  - the reflection text (emoji stripping and trimming);
  - where the mascot label goes.
- `wrappers.dfy` (module `Wrappers`): `Option`, `Result` and the truthiness
  of a `string | null`.

Engine and browser calls have no definition here. These are `atob`,
PBKDF2/AES-GCM, `TextDecoder`, `JSON.parse`, `decodeURIComponent`,
`parseInt`, and `Number`'s string conversions in both directions. They
appear as function-valued fields of the records `Crypto`, `Env` and
`NumberOps`. Each returns `None` where the real call throws, so each
property holds for every behaviour of those calls. The clock
(`Date.now()`) and the inter-finger distance (`Math.hypot`) are
parameters.

## Model

| member | source | states |
|---|---|---|
| Gesture.ClampScale | App.tsx:258 | The clamp `min(3, max(0.3, v))` always lands in [0.3, 3]; it is the identity inside the range and gives the bound it crossed outside it |
| Gesture.WheelScale | App.tsx:254-260 | A wheel event yields a scale in [0.3, 3]; from an in-range scale, a non-positive deltaY never zooms out and a non-negative one never zooms in |
| Gesture.PinchScale | App.tsx:285-287 | For a positive baseline the pinch scale is in range; an unchanged distance keeps an in-range start scale; spreading the fingers never gives less than the clamped start scale, pinching them never more |
| Gesture.Step | App.tsx:250-305 | One event keeps an in-range scale in range; every touch-end records its time as the last tap, and no other event touches it |
| Gesture.WheelClamps | App.tsx:257-259 | After a wheel event the scale is `clamp(scale - deltaY*0.002)`, within bounds, and nothing else changes |
| Gesture.TouchStartRecordsBaseline | App.tsx:263-274 | Exactly two touches record the distance as baseline and the current scale as start scale; any other count changes nothing |
| Gesture.TouchMoveScales | App.tsx:276-289 | Two touches with a baseline set the scale to `clamp(startScale * dist/baseline)` and change nothing else; otherwise nothing changes |
| Gesture.TouchEndBaseline | App.tsx:291-294 | Fewer than two remaining touches clear the baseline, two or more keep it; the last tap becomes now and the start scale stays |
| Gesture.TouchEndDoubleTap | App.tsx:296-303 | No touches left and less than 300 ms since the last tap: zoom 1 and layout (0,0); any other touch-end leaves zoom and layout as they were |
| Gesture.DoubleTapResets | App.tsx:291-305 | Two touch-ends within 300 ms, the second with no touches left, reset zoom and pan and clear the baseline, whatever the state before |
| Gesture.PinchHalving | App.tsx:263-289 | A pinch started at distance d that moves to d/2 is enabled and gives `clamp(scale * 0.5)` |
| Gesture.RunKeepsScaleInRange | App.tsx:254-305 | Any sequence of enabled events keeps an in-range scale in range |
| Gesture.ReachableScaleInRange | App.tsx:219-305 | Every state reachable from the initial refs and state has its zoom in [0.3, 3] |
| Gesture.PositiveDistancesEnable | App.tsx:271-285 | If every two-finger touch-start reports a positive distance, every event sequence is enabled: the division guard only excludes zero-distance pinches |
| Gesture.GestureController.constructor | App.tsx:219-226 | The refs and state start as null baseline, start scale 1, last tap 0, zoom 1 and layout (0,0) |
| Gesture.GestureController.HandleWheel | App.tsx:254-260 | Sets the zoom to the clamped wheel scale, changes no other field, and performs `Step(old state, Wheel)` |
| Gesture.GestureController.HandleTouchStart | App.tsx:263-274 | With two touches, records the baseline and the start scale; otherwise changes nothing; performs `Step(old state, TouchStart)` |
| Gesture.GestureController.HandleTouchMove | App.tsx:276-289 | With two touches and a baseline, sets the zoom to the clamped ratio scale; otherwise changes nothing; performs `Step(old state, TouchMove)` |
| Gesture.GestureController.HandleTouchEnd | App.tsx:291-305 | Clears the baseline below two touches, resets zoom and layout on a double tap, always records the tap time; performs `Step(old state, TouchEnd)` |
| Gesture.GestureController.HandleLayoutChange | App.tsx:250-252 | Sets the layout to (x, y) and nothing else; performs `Step(old state, LayoutChange)` |
| Selectors.NextTheme | App.tsx:229-233 | The next theme is in the cycle; it differs from a theme of the cycle; any other value becomes EMERALD |
| Selectors.NextThemeFollowsCycle | App.tsx:229-233 | A press moves one place along EMERALD → CYAN → INDIGO, wrapping around |
| Selectors.ThemeAfterPresses | App.tsx:229-233 | k presses from the i-th colour land on colour (i + k) mod 3 |
| Selectors.ThemeCycleCloses | App.tsx:229-233 | Three presses bring each colour of the cycle back; an outside value joins the cycle at EMERALD |
| Selectors.NextBackground | App.tsx:235-237 | The next index is in [0, 2), differs from a valid current index, and is the successor when there is one |
| Selectors.BackgroundPressed | App.tsx:444-447 | The background button is disabled under a custom image, so a press changes the index only without one; a valid index stays valid, and a press without an image always switches between dark and light |
| Selectors.BackgroundAfterPresses | App.tsx:235-237 | k presses advance the index by k modulo 2, and it stays a valid index |
| Selectors.CardAppearance | App.tsx:307-341 | For any background index, a custom image makes the root `bg-black` and the palette dark; without one the entry's class and darkness decide; an `auto` number colour follows that palette |
| Selectors.FontPickerDistinct | App.tsx:34-43 | The eight picker fonts have pairwise distinct value fonts, and only the first (`standard`) has the default classes |
| Json.Truthy | App.tsx:165-174 | JavaScript truthiness of a property value: every object and array is truthy, and a truthy value is never undefined or null |
| Json.IsObject | App.tsx:167 | `typeof v === 'object' && v !== null` holds only of arrays and objects, never of null or a primitive |
| Json.ToNumber | App.tsx:176-192 | `Number(x)` for a value whose conversion does not throw (`ConversionThrows`: an object with its own `toString` key, or an array holding one): undefined is NaN, null and false are 0, a number is itself; any other object converts as `"[object Object]"`, the empty array as `""`, an array of one number as that number's text |
| Json.NumberOr | App.tsx:176-192 | For a value that converts, `Number(x) \|\| d` is the converted number when it is a non-zero number, and d when it is NaN or zero; the result is d or the converted number, and a non-zero default never yields 0 |
| Json.NumberOrCases | App.tsx:176-192 | A non-zero JSON number is kept; zero, missing, null and false give the default; true gives 1 |
| Encryption.Slice | lib/encryption.ts:42-44 | Typed-array slice with clamped bounds: its length is the clamped end minus the clamped begin (0 when the end comes first), its k-th byte is the input's byte at the clamped begin plus k, and it is never longer than the input |
| Encryption.SplitCombined | lib/encryption.ts:42-44 | Salt, IV and ciphertext concatenate back to the decoded bytes; with 28 or more bytes they are 16, 12 and n-28 bytes long; shorter input gives shorter or empty parts |
| Encryption.SplitOfLaidOut | lib/encryption.ts:42-44 | Splitting a 16-byte salt, a 12-byte IV and a ciphertext laid end to end gives the three back |
| Encryption.DecimalDigits | lib/encryption.ts:47 | The decimal text of a natural number is non-empty, all digits, and has no leading zero |
| Encryption.IntToText | lib/encryption.ts:47 | The decimal text of an integer is non-empty, starts with `-` exactly for a negative number, and is otherwise all digits |
| Encryption.TimestampText | lib/encryption.ts:47 | `${timestamp}` reads back as the timestamp: an integer as itself, NaN (no number from parseInt) as no number |
| Encryption.Password | lib/encryption.ts:47 | The password has the length of the user id, `_`, the timestamp text and the suffix; it starts with the user id followed by `_` and ends with `_health_share_secure` |
| Encryption.IntTextRoundTrip | lib/encryption.ts:47 | Reading back the decimal text of any integer gives that integer |
| Encryption.PasswordTimestampRoundTrip | lib/encryption.ts:47 | The text between the user id's `_` and the suffix reads back as the timestamp it was built from; a NaN timestamp reads as no number |
| Encryption.PasswordInjective | lib/encryption.ts:47 | Two timestamps (or NaN) that give one user the same password are equal |
| Encryption.DecryptData | lib/encryption.ts:32-65 | Every failure is one error with the fixed message; a payload comes out exactly when decoding, decryption with Password(userId, timestamp) and parsing all succeed, and it is then the parse of the decrypted, UTF-8 decoded plaintext of the split bytes |
| Encryption.ValidateSecureData | lib/encryption.ts:68-90 | Valid exactly when userId, timestamp, expiresAt and sessionId are all truthy and `timestamp <= now <= expiresAt` |
| Encryption.MissingFieldRejected | lib/encryption.ts:71-75 | A missing or falsy required field makes the payload invalid, whatever the times |
| Encryption.ExpiryBoundary | lib/encryption.ts:77-81 | A payload is invalid once now is past expiresAt; at expiresAt itself it is still valid |
| Encryption.FutureTimestampRejected | lib/encryption.ts:83-87 | A timestamp later than now is invalid; a timestamp equal to now is not rejected |
| UserData.SelectSource | App.tsx:126-162 | The secure path is taken exactly when `secure`, `t` and `u` are all non-empty; otherwise the legacy path exactly when `data` is; otherwise none |
| UserData.IsoStringDefined | App.tsx:135-139 | `new Date(expiresAt).toISOString()` in the log line is defined only for a present expiry within the Date range of 8.64e15 ms; outside it the call throws |
| UserData.Accepted | App.tsx:135-149 | An accepted secure payload names the non-empty `u` user, has timestamp <= now <= expiresAt, and an expiry within the Date range |
| UserData.SecureDecoded | App.tsx:126-151 | The secure path yields a payload's data exactly when the parameter decodes, decryption succeeds and the payload is accepted (loggable expiry, valid, the `u` user); it then is the payload's data |
| UserData.LegacyDecoded | App.tsx:154-158 | The legacy path yields a value exactly when URI decoding and JSON parsing both succeed, and then it is the parsed value |
| UserData.Decoded | App.tsx:123-162 | `decodedData` is the secure path's value when the three secure parameters are present, else the legacy path's value when `data` is, else nothing |
| UserData.Field | App.tsx:176-192 | For a key whose value converts, the field is `Number(payload[key]) \|\| default` as `Coerced` spells it out |
| UserData.UserDataOf | App.tsx:173-193 | For a payload whose conversions do not throw, each of the ten numeric fields is `Number(payload[key]) \|\| default`: the converted number when it is non-zero, else 0 (2100 for caloriesTarget); the macro targets are fixed at 160, 65 and 240 g; the calorie target is never 0; a truthy date is used, otherwise today |
| UserData.Normalize | App.tsx:173-193 | Building `userData` throws exactly when the date or one of the ten numeric keys holds a value whose conversion throws (`NormalizeThrows`), with V8's TypeError message; otherwise it gives `UserDataOf` the payload |
| UserData.LoadUserData | App.tsx:111-206 | Without a source the data stays as it was; it changes only when the decoded payload is an object or array that normalises without throwing, and then to that normalised data |
| UserData.SecurePathTakesPrecedence | App.tsx:126-154 | With all three secure parameters, the `data` parameter has no influence on the result |
| UserData.PartialSecureParamsIgnored | App.tsx:126-162 | Without all three secure parameters, the result is as if no secure parameter were present |
| UserData.SecurePayloadShown | App.tsx:126-202 | A secure payload that decrypts, is accepted, and carries object data makes the card show that data normalised; if normalising it throws, the data stays |
| UserData.NoParamsKeepMockData | App.tsx:159-162 | With no parameters the mock data stays |
| UserData.RejectedSecurePayloadKeepsData | App.tsx:132-202 | A secure payload that fails to decrypt, fails validation or belongs to another user leaves the data unchanged |
| UserData.UndecodableParamKeepsData | App.tsx:133-202 | A parameter whose URI decoding throws leaves the data unchanged, on either path |
| UserData.MalformedLegacyDataKeepsData | App.tsx:154-202 | Legacy data that is not JSON leaves the data unchanged |
| UserData.NonObjectPayloadKeepsData | App.tsx:165-170 | A decoded payload that is not an object leaves the data unchanged |
| UserData.ObjectPayloadNormalized | App.tsx:165-202 | A decoded object replaces the data by its normalised form, unless a conversion throws, which leaves the data unchanged |
| UserData.ToStringKeyKeepsData | App.tsx:154-202 | Legacy data `{"weight":{"toString":0}}` leaves the data unchanged, since `Number` of that weight throws a TypeError |
| UserData.NormalizeOfPayload | App.tsx:173-193 | Normalising the payload built from data with fixed targets, a non-zero calorie target and a truthy, convertible date (if any) succeeds and gives that data back: no field is lost or altered |
| UserData.LegacyPayloadShown | App.tsx:154-197 | A legacy URL carrying such a payload makes the card show exactly that data |
| DailyLogCard.GetFontClasses | components/DailyLogCard.tsx:87-107 | Ids outside the seven styled ones (including `standard`) get the default pair; each styled id gets a different pair whose value font prefixes its label classes |
| DailyLogCard.EffectiveIsDarkMode | components/DailyLogCard.tsx:122 | A custom image forces dark mode; without one the background's darkness is used |
| DailyLogCard.Styles | components/DailyLogCard.tsx:124-142 | The dark palette exactly in dark mode, the light palette exactly otherwise; the primary, secondary and muted text classes of a palette are distinct |
| DailyLogCard.RootBackground | components/DailyLogCard.tsx:169 | `bg-black` under a custom image, the background's class otherwise |
| DailyLogCard.CustomImageOverridesBackground | components/DailyLogCard.tsx:122-169 | Under a custom image the root class, the palette and an `auto` number colour are the same whatever bgClass and isDarkMode the card gets; without one, the two modes differ in every text class |
| DailyLogCard.WeightDiffIcon | components/DailyLogCard.tsx:155-159 | TrendingDown exactly for a loss, TrendingUp exactly for a gain, Minus exactly for no change |
| DailyLogCard.DiffColor | components/DailyLogCard.tsx:161 | Green for a loss, red for a gain, the secondary text class for no change, and never anything else |
| DailyLogCard.DiffColourMatchesIcon | components/DailyLogCard.tsx:155-161 | The colour and the icon agree: green with TrendingDown, red with TrendingUp, the secondary text class with Minus, in both directions |
| DailyLogCard.DisplayedDiff | components/DailyLogCard.tsx:244 | The displayed difference is non-negative and equals the difference or its negation |
| DailyLogCard.DiffRecoverable | components/DailyLogCard.tsx:243-244 | The icon together with the displayed magnitude gives the difference back |
| DailyLogCard.NumColorClass | components/DailyLogCard.tsx:164 | The chosen number colour, except `auto`, which is the palette's primary text class; the sentinel `auto` itself is never applied as a class |
| DailyLogCard.StripEmoji | components/DailyLogCard.tsx:342 | The stripped text is no longer than the input and holds no emoji character |
| DailyLogCard.StripEmojiAppend | components/DailyLogCard.tsx:342 | Stripping distributes over concatenation |
| DailyLogCard.StripEmojiKeepsPlainText | components/DailyLogCard.tsx:342 | Text without emoji is left as it is |
| DailyLogCard.StripEmojiRemovesAll | components/DailyLogCard.tsx:342 | Text made only of emoji becomes empty |
| DailyLogCard.TrimStart | components/DailyLogCard.tsx:342 | The result is a suffix of the input, only whitespace was removed, and it does not start with whitespace |
| DailyLogCard.TrimEnd | components/DailyLogCard.tsx:342 | The result is a prefix of the input, only whitespace was removed, and it does not end with whitespace |
| DailyLogCard.Trim | components/DailyLogCard.tsx:342 | The trimmed text is a slice of the input with only whitespace removed before and after it, and it is empty or starts and ends with a non-whitespace character |
| DailyLogCard.FindAnswer | components/DailyLogCard.tsx:342 | A found entry is in the table with that id and no earlier entry has that id; when none is found, no entry has that id |
| DailyLogCard.ReflectionText | components/DailyLogCard.tsx:340-343 | For `custom`, the user's text or the placeholder when it is empty; otherwise a text exactly for a listed id, namely the first such entry's text with the emoji removed and trimmed, holding no emoji |
| DailyLogCard.StrippedAnswer | components/DailyLogCard.tsx:342 | For words followed by a space and emoji, the shown line is exactly the words |
| DailyLogCard.FindAnswerAt | components/DailyLogCard.tsx:342 | When no earlier entry shares entry k's id, find returns entry k |
| DailyLogCard.ListedTextShape | components/DailyLogCard.tsx:112-119 | Each of the five listed texts is its words, a space and its emoji, with no emoji in the words and no whitespace at their ends |
| DailyLogCard.ListedAnswerText | components/DailyLogCard.tsx:112-119 | The five listed answers show `Yes, absolutely!`, `Pretty good!`, `It was okay`, `Amazing day!` and `Not really...` |
| DailyLogCard.UnlistedAnswerHasNoText | components/DailyLogCard.tsx:340-343 | An id outside the table (other than `custom`) shows no text |
| DailyLogCard.TailBlocks | components/DailyLogCard.tsx:325-354 | At most two blocks; the middle mascot exactly without a reflection; the reflection and the bottom mascot exactly when the reflection is on with a non-empty answer |
| DailyLogCard.MascotAtMostOnce | components/DailyLogCard.tsx:325-354 | The mascot label appears at most once: in the middle without a reflection, last after a non-empty reflection, not at all for an empty one |
| DailyLogCard.DefaultPropsMascotInMiddle | components/DailyLogCard.tsx:79-81 | With the default props (no reflection), the mascot sits in the middle |

## Left out

- Rendering: JSX trees, Tailwind class strings beyond the selection rules,
  component lifecycle, components/ErrorBoundary.tsx, and the `Draggable`
  layer. The pan update it reports is an opaque `(x, y)` assignment
  (`LayoutChange`). tailwind.config.js is static configuration.
- Palette: only the text classes that the selection rules use are modelled
  (`textPrimary`, `textSecondary`, `textMuted`). The other palette entries
  are plain class strings.
- Foreign calls: `crypto.subtle` PBKDF2/AES-GCM, `atob`, `TextDecoder`,
  `JSON.parse`, `decodeURIComponent`, `parseInt` and `Number`'s string
  conversions are abstract function parameters, not definitions.
  `URLSearchParams` becomes the `UrlParams` record, with `None` for an
  absent parameter.
- `typeof window`, the dynamic `import` of the encryption module, and all
  `console` output are left out. The one exception is the `toISOString`
  call in the secure-path log line at App.tsx:138, because it throws for a
  missing or out-of-range expiry and so changes control flow. It is
  modelled as `IsoStringDefined`.
- The image upload (`FileReader`) and `toLocaleDateString` formatting are
  left out. The date a payload carries is kept as the raw JSON value
  (`DateOf`); `new Date(...)` parsing is not modelled.
- Floating point: scales, distances and payload numbers are `real`. IEEE
  rounding, NaN and Infinity are not modelled.
- Gesture.PinchScale: requires a positive baseline. The source divides by
  the baseline unguarded. With a zero baseline (both fingers at one point)
  a positive distance gives Infinity, which the clamp at App.tsx:286 turns
  into 3, and a zero distance gives NaN, which the clamp does not remove.
  Neither case is modelled; `PositiveDistancesEnable` shows this is the
  only excluded case.
- Gesture.Step: each handler is taken to see the state committed by the
  previous event. The source reads `globalScale` from the render closure
  (App.tsx:258, 272), so two events handled before React re-renders would
  both read the older zoom. That interleaving is not modelled.
- Json.NumberOps: `stringToNumber` models only finite results; a string
  converting to Infinity is not represented.
- Json.ToNumber: requires a value whose conversion does not throw, and so
  do `ToJsString` and `NumberOr`. The throwing case (`ConversionThrows`) is
  taken up one level higher: `UserData.Normalize` returns the TypeError,
  and `LoadUserData` keeps the data, as the source's `catch` does.
- Json.Property: arrays and primitives are taken to have none of the named
  keys the loader reads.
- Encryption.IntToText: writes integers in plain decimal. JavaScript
  switches to exponent notation from 10^21 on, and `parseInt` results
  beyond 2^53 lose precision. Neither is modelled.
- Encryption.SecurePayload: its fields are typed as string ids and integer
  times, as the encrypting side writes them. Other JSON types in those
  fields are not represented. A JSON `null` payload, on which the source's
  validation throws, is treated like a payload without fields. Both lead to
  the same loader outcome: the data stays.
- DailyLogCard.StripEmoji: the source's regular expression has no `u` flag.
  It therefore removes UTF-16 code units, including single surrogate
  halves of other astral characters. The model removes whole characters of
  the emoji set, with ✏️ counted as its two characters U+270F and U+FE0F.
- Selectors.ThemeColor: the enumeration lives in types.ts, which is not
  part of this model. Its three cycled values are modelled, plus one case
  standing for every other value.
- Export and share: the download button only calls `alert` (App.tsx:504),
  so there is no export pipeline to model.
- The edit-mode inactivity timer does not exist: `isEditing` is always
  true (App.tsx:218).
- App.tsx does not pass `showReflection`, `reflectionAnswer` or
  `customReflectionText` to the card. The reflection rules are therefore
  modelled for any props, and `DefaultPropsMascotInMiddle` states what App
  actually shows.
