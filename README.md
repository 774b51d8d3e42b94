# node-flipr client, modelled in Dafny

A model of the core of `node-flipr`, a TypeScript client for the cloud API of
the Flipr pool monitor. The client logs in with a username and password,
keeps the bearer token it gets back together with its expiry, renews it
before a request when it is missing or expired, fetches the device's latest
survey, and maps that loosely typed JSON survey into a `FliprMeasure`. In a
`FliprMeasure` every field is independently optional, and the getters
convert on read: fractions to percentages, and Celsius to Fahrenheit or
Kelvin.

Modules, one per source file:

- `Deviations` (`deviation.dfy`): the `Deviation` enum and its numeric codes.
- `Enums` (`enums.dfy`): `TemperatureUnit` and `DisinfectantType`.
- `JsText` (`jstext.dfy`): JavaScript's `toUpperCase`, as far as the sector lookup can observe it.
- `Measures` (`measure.dfy`): the payload, `FliprMeasure` as a record, its constructor as the total function `FromPayload`, and every getter.
- `FliprConfig` (`config.dfy`): the configuration values. The TypeScript interface file is not part of this model. Its properties are modelled as `undefined`, `null` or a string, and a caller's object may lack a property altogether.
- `Net` (`network.dfy`): the class `Network`, holding `accessToken` and `expires`, with `Auth`, `EnsureAuth` and `Get`. Each HTTP reply is a parameter, and so is the clock (`now`, in milliseconds). Which expiry computation a client uses is a constructor parameter (see Findings).
- `Facade` (`flipr.dfy`): the class `Flipr`. It covers the credential checks, the configuration merge, the survey path and `GetLastMeasure`.
- `Wrappers` (`wrappers.dfy`): `Option`, `Result` and `Outcome`.

The model keeps these behaviours of the code, which a reader of its
comments might not expect:

- The token expiry is not "now plus `expires` seconds". See Findings.
- When authentication fails inside `get`, the promise `get` returns never
  settles. The rejection is dropped at `network.ts:60`, so the caller gets
  no error. The model's outcome for this case is `Unsettled`.
- A non-200 reply to a GET rejects with the transport's `error` argument,
  which is `null` when the server did answer. The model rejects with
  `reply.error`, which may be `None`.
- The merge copies every property the caller's object has, even one set to
  `undefined`. So `Some(Undefined)` overrides the default `null`, and the
  survey path then holds the text `undefined`.

## Model

| member | source | states |
|---|---|---|
| `Deviations.Code` | lib/enums/deviation.enum.ts:8-15 | UNKNOWN is exactly the code -1; every known sector's code is a multiple of 5 between 0 and 20 |
| `Deviations.FromCode` | lib/enums/deviation.enum.ts:8-15 | the reverse lookup gives a sector whose code is the number, and it fails exactly for numbers outside {-1, 0, 5, 10, 15, 20} |
| `Deviations.CodeRoundTrip` | lib/enums/deviation.enum.ts:8-15 | every sector is recovered from its code |
| `Deviations.CodeInjective` | lib/enums/deviation.enum.ts:9-14 | the six codes are distinct |
| `Deviations.UnknownBelowKnown` | lib/enums/deviation.enum.ts:9-14 | UNKNOWN is -1, below every known sector |
| `Deviations.KnownSectorsStepByFive` | lib/enums/deviation.enum.ts:10-14 | TOO_LOW is 0, and each known sector is 5 above the one before, up to TOO_HIGH |
| `JsText.UpperChar` | lib/classes/measure.ts:209 | a character's upper case has one to three characters, none of them an ASCII lower-case letter; an ASCII lower-case letter becomes its capital |
| `JsText.ToUpper` | lib/classes/measure.ts:209 | `toUpperCase` never shortens the text and leaves no ASCII lower-case letter |
| `JsText.ToUpperAppend` | lib/classes/measure.ts:209 | upper-casing distributes over concatenation |
| `JsText.ToUpperOfAsciiUpper` | lib/classes/measure.ts:209 | text made of ASCII capitals is left unchanged |
| `JsText.UpperCharFixed` | lib/classes/measure.ts:209 | a character's upper case is itself left unchanged by upper-casing |
| `JsText.ToUpperIdempotent` | lib/classes/measure.ts:209 | upper-casing twice gives the same text as upper-casing once |
| `JsText.ToUpperIgnoresAsciiCase` | lib/classes/measure.ts:209 | texts that differ only in the case of ASCII letters have the same upper case |
| `Measures.LabelToType` | lib/classes/measure.ts:64-76 | a label yields a disinfectant exactly when it is "Chlore", "Brome" or "Sel", and the disinfectant found carries that label |
| `Measures.LabelRoundTrip` | lib/classes/measure.ts:64-76 | each disinfectant is found again from its label |
| `Measures.StringToDeviation` | lib/classes/measure.ts:208-217 | total; the result is a known sector exactly when the upper-cased input is one of the five sector names, and then it is the sector of that name; everything else is UNKNOWN |
| `Measures.SectorNameRoundTrip` | lib/classes/measure.ts:210-214 | each known sector is found again from its name |
| `Measures.StringToDeviationIgnoresCase` | lib/classes/measure.ts:208-217 | inputs that differ only in the case of ASCII letters map to the same sector |
| `Measures.StringToDeviationOfUpper` | lib/classes/measure.ts:208-217 | upper-casing the input beforehand does not change the sector |
| `Measures.StringToDeviationMixedCase` | lib/classes/measure.ts:209-210 | "toohigh" and "ToOhIgH" map to TOO_HIGH |
| `Measures.UnknownUnlessTOrM` | lib/classes/measure.ts:208-217 | text whose first character upper-cases to neither T nor M names no sector and gives UNKNOWN |
| `Measures.StringToDeviationNonsense` | lib/classes/measure.ts:215 | "nonsense" maps to UNKNOWN |
| `Measures.FromPayload` | lib/classes/measure.ts:41-101 | the constructor never fails; each field is set from its payload property when present, otherwise it stays null (or UNKNOWN); the battery level comes from `Battery.Deviation` only when both the block and the property exist; the type is set only for a known label; the sectors go through `stringToDeviation` |
| `Measures.TopLevelFields` | lib/classes/measure.ts:42-60 | the first five guarded assignments touch only the date, battery level, cloud coverage, UV index and temperature |
| `Measures.DisinfectantFields` | lib/classes/measure.ts:62-86 | under a present `Desinfectant` block, the label, deviation and sector each set their field only when present, and nothing else changes |
| `Measures.PhFields` | lib/classes/measure.ts:88-100 | under a present `PH` block, the value, deviation and sector each set their field only when present, and nothing else changes |
| `Measures.EmptyPayloadGivesBlank` | lib/classes/measure.ts:15-35 | a payload with no property gives the initial state: every field null, both sectors UNKNOWN |
| `Measures.DroppingPropertiesOnlyBlanksFields` | lib/classes/measure.ts:41-101 | removing any subset of properties leaves each field either as the full payload sets it or null/UNKNOWN; nothing is invented |
| `Measures.GetDate` | lib/classes/measure.ts:107-109 | returns the stored date; stated through `PlainGettersReadPayload` |
| `Measures.GetUVIndex` | lib/classes/measure.ts:115-117 | returns the stored UV index; stated through `PlainGettersReadPayload` |
| `Measures.GetDisinfectantType` | lib/classes/measure.ts:172-174 | returns the stored disinfectant; stated through `PlainGettersReadPayload` |
| `Measures.GetPHValue` | lib/classes/measure.ts:189-191 | returns the stored pH value; stated through `PlainGettersReadPayload` |
| `Measures.PlainGettersReadPayload` | lib/classes/measure.ts:107-191 | `getDate` returns the date parsed from the payload's `DateTime`, `getUVIndex` the payload's UV index, `getDisinfectantType` the disinfectant of a known label, `getPHValue` the payload's pH value; each is null when the property is missing |
| `Measures.Percentage` | lib/classes/measure.ts:129 | null stays null rather than 0; a value divided by 100 gives back the stored fraction; a fraction in [0,1] gives a percentage in [0,100] |
| `Measures.GetCloudCoverage` | lib/classes/measure.ts:124-130 | the stored value when raw is asked for, otherwise its percentage |
| `Measures.GetBatteryLevel` | lib/classes/measure.ts:137-143 | the stored value when raw is asked for, otherwise its percentage |
| `Measures.PercentageExamples` | lib/classes/measure.ts:124-143 | raw 0.5 reads 50, raw 0 reads 0, and a missing value reads as missing |
| `Measures.GetTemperature` | lib/classes/measure.ts:150-166 | null for every unit when no temperature is stored; otherwise the stored Celsius value (also the default unit), or the reading that converts back to it: (F - 32) * 5/9 in Fahrenheit, K - 273.15 in Kelvin |
| `Measures.TemperatureExamples` | lib/classes/measure.ts:150-166 | 20 °C reads 20, 68 °F and 293.15 K; no temperature reads null in all three units |
| `Measures.TemperatureMonotone` | lib/classes/measure.ts:155-165 | every unit keeps the order of temperatures |
| `Measures.DeviationReading` | lib/classes/measure.ts:182 | the raw number-or-null when raw is asked for; otherwise a whole number that decodes to the stored sector |
| `Measures.GetDisinfectantDeviation` | lib/classes/measure.ts:181-183 | raw deviation, or the numeric code of the disinfectant sector |
| `Measures.GetPHDeviation` | lib/classes/measure.ts:198-200 | raw deviation, or the numeric code of the pH sector |
| `Measures.MissingSectorReadsUnknown` | lib/classes/measure.ts:83-99 | without the block or its `DeviationSector` the sector reads as UNKNOWN's -1; without the block the raw reading is null |
| `Net.Expiry` | lib/classes/network.ts:41-43 | the intended expiry is later than exactly the instants before now + 1000 * `expires` milliseconds |
| `Net.SessionValid` | lib/classes/network.ts:51 | `ensureAuth`'s test: a token is held, an expiry is held, and the expiry is a valid date after now; stated through `TokenReusedUntilExpiry` and `AsWrittenTokenNeverReused` |
| `Net.ExpiryAsWritten` | lib/classes/network.ts:41-43 | the computed expiry is later than no instant at all |
| `Net.TokenReusedUntilExpiry` | lib/classes/network.ts:41-51 | with the intended expiry, a token obtained at t is reused exactly while now < t + 1000 * expires |
| `Net.AsWrittenTokenNeverReused` | lib/classes/network.ts:41-51 | with the expiry as written, the validity check never passes |
| `Net.Network.constructor` | lib/classes/network.ts:18-23 | a new client holds no token and no expiry; it keeps the configuration and the expiry rule it is given |
| `Net.Network.Auth` | lib/classes/network.ts:25-48 | posts the password grant with the configured credentials to `/OAuth2/token`; non-200 rejects with "Login failed." and leaves the token and expiry unchanged; 200 stores the reply's token and the expiry its rule computes; with the intended rule and a positive `expires` the session is then valid, with the as-written rule it is valid at no instant; the token and expiry stay paired |
| `Net.Network.EnsureAuth` | lib/classes/network.ts:50-56 | authenticates exactly when the token or expiry is missing or the expiry is not after now, sending `auth`'s password grant with the configured credentials to `/OAuth2/token`; otherwise nothing changes; after success a token is held |
| `Net.Network.Get` | lib/classes/network.ts:58-75 | runs `ensureAuth` first, whose login is the password grant with the configured credentials; sends `"Bearer " + token` to base URL + endpoint, and a token is always held then; resolves with the body if and only if the status is 200, otherwise rejects with the transport error; a failed login leaves the promise unsettled and sends nothing |
| `Net.TwoRequests` | lib/classes/network.ts:50-75 | with the intended expiry, the first of two requests on a client without a session authenticates; the second authenticates again exactly when it comes at or after the first token's expiry |
| `Net.TwoRequestsAsWritten` | lib/classes/network.ts:41-75 | with the expiry as written, both of two requests authenticate, however soon the second follows |
| `Facade.Merge` | lib/index.ts:47-50 | each property the caller's object has overrides the base; the others keep the base value |
| `Facade.MergeIdempotent` | lib/index.ts:47-50 | merging the same object again changes nothing |
| `Facade.MergeOfCompleteConfigIgnoresBase` | lib/index.ts:47-50 | an object with all three properties makes the defaults irrelevant |
| `Facade.MergeKeepsTruthiness` | lib/index.ts:26-50 | a credential is truthy before the merge exactly when it is truthy after the merge over the null defaults |
| `Facade.CheckConfig` | lib/index.ts:36-50 | a falsy username fails with "You must set the username property." before anything else; then a falsy password fails with "You must set the password property."; otherwise the merged configuration, whose credentials are truthy |
| `Facade.SurveyPath` | lib/index.ts:61 | the path is "/modules/", then the serial's text, then "/survey/last" |
| `Facade.SerialInPath` | lib/index.ts:61 | a serial read out of a path rebuilds that path |
| `Facade.SurveyPathOfMissingSerial` | lib/index.ts:61 | a serial set to `undefined` or `null` appears in the path as the text "undefined" or "null" |
| `Facade.SurveyPathRoundTrip` | lib/index.ts:61 | the serial's text is read back from its survey path |
| `Facade.Flipr.constructor` | lib/index.ts:47-52 | stores the merged configuration and a new session client built from it, with the intended expiry and no session yet |
| `Facade.Flipr.Create` | lib/index.ts:36-54 | construction fails exactly when the credential checks fail, with their message; otherwise a new client with the merged configuration |
| `Facade.Flipr.GetLastMeasure` | lib/index.ts:60-65 | requests exactly base URL + `'/modules/' + deviceSerial + '/survey/last'` with the bearer token; a login it needs sends the facade's own checked username and password; a 200 body comes back as `FromPayload` of it; other outcomes as `get` gives them; the client's token and expiry change exactly as `get` changes them (unchanged on a valid session or a failed login, the reply's token and the new expiry after a successful one) |

## Findings

| source | as written | input that shows it | evidently intended | confidence | as-written member | corrected member |
|---|---|---|---|---|---|---|
| lib/classes/network.ts:42 | `expirationDate.getSeconds + body["expires"]` adds the function `getSeconds`, not its result. The sum is text, `setSeconds` of it is NaN, and the expiry is an invalid date. The check at line 51 then never passes, so every `get` logs in again. | any 200 login reply, e.g. `expires` = 3600 | expiry = now + `expires` seconds, with the token reused until then | high (not executed) | `Net.AsWrittenTokenNeverReused` | `Net.TokenReusedUntilExpiry` |

`Net.Network` takes the expiry computation as a constructor parameter (`Net.ExpiryRule`).
`Flipr` builds its client with the corrected expiry (`Net.Expiry`). `Net.ExpiryAsWritten` is the
expression as written, and `Net.TwoRequestsAsWritten` shows its effect through `Get`: every
request logs in again.

## Left out

- The HTTP transport (the `request` library) and the promises are not modelled. The server's replies are method parameters: status, token and `expires` for the login, and status, body and transport error for a GET.
- The clock (`new Date()`, `network.ts:41, 51`) is the parameter `now`. The source reads it twice: at line 51 for the validity check, and again at line 41, inside the login reply's callback, so its expiry counts from when the reply arrives, one round trip after the check. The model reads it once per call, so the check and the new expiry use the same instant.
- The fire-and-forget `this.network.auth()` at construction (`index.ts:53`) is not modelled. It is asynchronous and its outcome cannot be observed; the first `get` authenticates instead.
- Date parsing (`new Date(rawMeasureObject.DateTime)`, `measure.ts:43`) is the uninterpreted `Date.ParsedFrom`. A `DateTime` property holding `null` (`new Date(null)` is the epoch, not null) is not represented; the payload carries `DateTime` as text.
- Floating point is not modelled. The ×100, ×9/5 + 32 and + 273.15 conversions are computed over `real`, with no IEEE-754 rounding.
- Payloads that crash the constructor are not represented: a `null` `Battery`, `Desinfectant` or `PH` block, or a `DeviationSector` that is not a string. Payload properties have their documented types (numbers as `real`, labels and sectors as strings); a property of another JSON type would be copied as-is by the source.
- Transport failures without a response are not represented (`httpResponse` undefined at `network.ts:35, 67`, which throws). Every reply in the model has a status.
- A login reply lacking `access_token` or `expires` is not represented; the reply always carries both.
- `JsText.UpperChar`, `JsText.ToUpper`: the per-character table in `UpperChar`, and so `ToUpper`, only maps the characters whose upper case consists of ASCII letters. Those are a–z, dotless i, long s, sharp s and the Latin ligatures ff, fi, fl, ffi, ffl and st. Every other character is kept as it is. That does not change the sector lookup: the real upper case of those characters contains a character outside A–Z, so it can match no sector name either way.
- `getTemperature` called with a number outside the enum takes the `default:` branch (Celsius). The model's unit is the three-valued `TemperatureUnit`, so that call cannot be written.
- `lib/enums/datasource.enum.ts` is not part of this model; nothing in the core uses it.
- `HttpStatusCode` is not part of this model; only its `OK` is used, as the constant 200.
- Properties of the caller's configuration object other than `username`, `password` and `deviceSerial` are not represented. The spread copies them, but nothing reads them.
