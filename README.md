# SafeDecoder in Dafny

A model of the SafeDecoder Swift library. SafeDecoder is a fault-tolerant layer over
Swift's `Decodable`:

- A `KeyedDecodingSafeContainer` wraps a keyed decoding container. Its `decodeSafe` family
  records each `DecodingError` in an append-only `errors` list and returns `nil` instead
  of throwing. `getErrors` then packages that list as a `DecodingSafeError.structErrors`.
- The unkeyed `decodeArray` loop decodes the elements of an array one by one. It logs each
  element that fails and steps over it by decoding a throwaway `DummyCodable`, keeping the
  elements that decoded.
- A `CustomStringConvertible` formatter renders a `DecodingSafeError` as a header line plus
  one line per entry.
- The sample models `Planet` and `SolarSystem` use the safe container and the array decoder;
  the demo app prints their reports through the formatter (its view controller is not part
  of this model).

Layout, one module per file:

| file | module | what it holds |
|---|---|---|
| `wrappers.dfy` | `Wrappers` | `Option`, `Result` (with `:-` support), `Outcome` |
| `errors.dfy` | `Errors` | `DecodingError`, `DecodingSafeError` (three variants, leaf entries only), `Thrown` (what a Swift `throw` carries), `LogEntry`, `Decoded<T>` (a result plus the logger calls made on the way) |
| `document.dfy` | `Document` | the decoded document as a tree value, and the JSON decoder primitives the library calls (`container(keyedBy:)`, `decode`, `decodeIfPresent`, `nestedUnkeyedContainer`, scalar `init(from:)`) |
| `diagnostics.dfy` | `Diagnostics` | `Logger`, the trace of calls to `SafeDecoder.logger` |
| `unkeyed.dfy` | `Unkeyed` | `UnkeyedCursor` with the `decodeArray` loop; `Drain`, the fold that specifies it; reference definitions of the elements kept and the calls logged |
| `keyed_arrays.dfy` | `KeyedArrays` | the keyed `decodeArray` / `decodeArrayIfPresent` |
| `safe_keyed.dfy` | `SafeKeyed` | the `KeyedDecodingSafeContainer` class and `safeContainer` |
| `formatter.dfy` | `Formatter` | `Verbosity.to`, `lines`, `multiline`, `line`, `listItem`, `description` |
| `models.dfy` | `Models` | `Planet` and `SolarSystem` with their `init(from:)` |

Modelling choices:

- A `Decodable` type is a value `DecodableType<T>`. It carries its name and its
  `init(from:)` as a function from a document node to a `Decoded<T>`. Nested models can
  call the logger themselves, as `Planet` does through `getErrors`.
- The step-over `decode(DummyCodable.self)` is a parameter `skip: Node -> Outcome<Thrown>`.
  What it does depends on the compiler-generated `init(from:)` of the empty struct, which
  is not in the source. `Unkeyed.DummySkip` ASSUMES that initializer asks for a keyed
  container, so it succeeds on an object and fails on anything else. `Unkeyed.AdvanceSkip`
  always moves on; it is the behaviour if the initializer never asks for a container.
  Every result about the loop is stated for any step-over.
- `SafeDecoder.logger` is a `Logger` object. Every method that can call the logger takes
  it and `modifies` it, and states the exact sequence of calls it appends.
- Where the code does something a reader might not expect, the model follows it:
  - `DecodingSafeError` is not recursive. Every entry holds a leaf `DecodingError`
    (Sources/Decoder+Safe.swift:25-27).
  - `decodeSafe` catches only `DecodingError`. A nested model that throws its own
    `DecodingSafeError` escapes the container and is not recorded as an entry
    (`SafeKeyed.NestedFailureEscapes`).
  - Entry lines read `" <description> <key> <kind>"`. The verbosity changes nothing, and
    nested reports are never indented under their parent.
  - The header's reference suffix is `" with ref: "`. Only the unused one-line summary
    says `" with reference "`.
  - `getErrors` may package an empty list. Only `Planet`'s guard makes sure some field
    failed first (`Models.PlanetReportsEveryFault`).
  - `superDecoder(forKey:)` on a missing key gives a decoder over null instead of
    throwing. That is the JSON decoder's behaviour, whatever the doc comment says.

## Model

| member | source | states |
|---|---|---|
| SafeKeyed.SafeContainer | Sources/Decoder+Safe.swift:17-20 | a failure of `container(keyedBy:)` propagates unchanged; otherwise the result is a new safe container over that keyed store with no recorded errors |
| SafeKeyed.KeyedDecodingSafeContainer.constructor | Sources/KeyedDecodingSafeContainer.swift:22-26 | a new container wraps the given store and its `errors` list is empty |
| SafeKeyed.KeyedDecodingSafeContainer.GetErrors | Sources/KeyedDecodingSafeContainer.swift:29-35 | returns `structErrors(modelType, reference, errors)` with the entries in insertion order; calls the logger exactly once whatever `doLog` says; `errors` is not changed |
| SafeKeyed.KeyedDecodingSafeContainer.DecodeSafe | Sources/KeyedDecodingSafeContainer.swift:45-53 | returns what `Caught` gives for the wrapped `decode`; appends exactly the entry `Recorded` gives (nothing on success or on a non-`DecodingError`) after the earlier entries; passes the nested decode's logger calls through |
| SafeKeyed.Caught | Sources/KeyedDecodingSafeContainer.swift:45-53 | never fails with a `DecodingError`; fails exactly when the call threw another error; gives a value exactly when the call succeeded, and the same value |
| SafeKeyed.Recorded | Sources/KeyedDecodingSafeContainer.swift:49-51 | at most one entry; exactly one when the call threw a `DecodingError`, and it is `(key, that error)` |
| SafeKeyed.CatchPartition | Sources/KeyedDecodingSafeContainer.swift:45-53 | of a caught call exactly one holds: value and nothing recorded, `nil` and one entry recorded, or the non-`DecodingError` rethrown and nothing recorded |
| SafeKeyed.NestedFailureEscapes | Sources/KeyedDecodingSafeContainer.swift:49 | a `DecodingSafeError` thrown by a nested model is rethrown by `decodeSafe` and not recorded |
| SafeKeyed.KeyedDecodingSafeContainer.DecodeSafeIfPresent | Sources/KeyedDecodingSafeContainer.swift:63-71 | returns what `CaughtIfPresent` gives for the wrapped `decodeIfPresent`; appends exactly the entry `Recorded` gives for it; passes its logger calls through |
| SafeKeyed.CaughtIfPresent | Sources/KeyedDecodingSafeContainer.swift:63-71 | never fails with a `DecodingError`; a caught `DecodingError` gives `nil`; fails exactly when the call threw another error, and then with that same error; a successful call's result is returned unchanged |
| SafeKeyed.DecodeSafeIfPresentAbsent | Sources/KeyedDecodingSafeContainer.swift:63-71 | for a missing key or a null value: `nil`, nothing recorded, no logger call |
| SafeKeyed.DecodeSafeIfPresentRecords | Sources/KeyedDecodingSafeContainer.swift:63-71 | an entry is recorded exactly when the value is present, not null, and its decode throws a `DecodingError` |
| SafeKeyed.KeyedDecodingSafeContainer.DecodeArraySafe | Sources/KeyedDecodingSafeContainer.swift:81-91 | returns what `Caught` gives for the keyed `decodeArray`; appends exactly the entry `Recorded` gives for it; passes the array loop's logger calls through |
| SafeKeyed.KeyedDecodingSafeContainer.DecodeArraySafeIfPresent | Sources/KeyedDecodingSafeContainer.swift:101-111 | returns the keyed `decodeArrayIfPresent` result, which is never a failure; `errors` is never changed |
| SafeKeyed.KeyedDecodingSafeContainer.Decode | Sources/KeyedDecodingSafeContainer.swift:322-324 | delegates to the wrapped `decode`, result and logger calls; `errors` unchanged |
| SafeKeyed.KeyedDecodingSafeContainer.DecodeIfPresent | Sources/KeyedDecodingSafeContainer.swift:502-504 | delegates to the wrapped `decodeIfPresent`, result and logger calls; `errors` unchanged |
| SafeKeyed.KeyedDecodingSafeContainer.Contains | Sources/KeyedDecodingSafeContainer.swift:133-135 | a key is contained exactly when the wrapped object has a value for it, null included; for a key the key type accepts, exactly when `allKeys` lists it |
| SafeKeyed.KeyedDecodingSafeContainer.AllKeys | Sources/KeyedDecodingSafeContainer.swift:123-125 | exactly the keys of the wrapped object that the key type accepts (`isKey`, its `init(stringValue:)` succeeding); all of the object's keys, one per entry, when it accepts every string |
| SafeKeyed.KeyedDecodingSafeContainer.DecodeNil | Sources/KeyedDecodingSafeContainer.swift:142-144 | answers for exactly the present keys, true exactly for a null value; a missing key throws `keyNotFound` |
| SafeKeyed.KeyedDecodingSafeContainer.NestedContainer | Sources/KeyedDecodingSafeContainer.swift:512-514 | succeeds exactly for a present key holding an object and gives its fields; otherwise `typeMismatch`, or `keyNotFound` for a missing key |
| SafeKeyed.KeyedDecodingSafeContainer.NestedUnkeyedContainer | Sources/KeyedDecodingSafeContainer.swift:521-523 | succeeds exactly for a present key holding an array and gives its elements; otherwise `typeMismatch`, or `keyNotFound` for a missing key |
| SafeKeyed.KeyedDecodingSafeContainer.SuperDecoder | Sources/KeyedDecodingSafeContainer.swift:531-533 | never throws; reads the value under "super", or null when there is none |
| SafeKeyed.KeyedDecodingSafeContainer.SuperDecoderForKey | Sources/KeyedDecodingSafeContainer.swift:541-543 | never throws; reads the value at the key, or null for a missing key |
| SafeKeyed.PassThroughsAgree | Sources/KeyedDecodingSafeContainer.swift:123-543 | `decodeNil` answers exactly for the keys `contains` reports, and for a key the key type accepts, exactly for those `allKeys` lists; a nested keyed or unkeyed container exists exactly under a present key holding an object or an array; `superDecoder()` is `superDecoder(forKey: "super")`, and it reads null for a missing key |
| Diagnostics.Logger.Log | Sources/UnkeyedDecodingContainer+Safe.swift:25 | one call appends exactly one entry, with the error and type name, after the earlier calls |
| Unkeyed.UnkeyedCursor.Decode | Sources/UnkeyedDecodingContainer+Safe.swift:21 | the element under the cursor is decoded, and the cursor moves past it only on success; at the end it throws `valueNotFound` and stays put |
| Unkeyed.UnkeyedCursor.Skip | Sources/UnkeyedDecodingContainer+Safe.swift:29 | the step-over on the element under the cursor, moving past it only when it succeeds; at the end it throws |
| Unkeyed.UnkeyedCursor.DecodeArray | Sources/UnkeyedDecodingContainer+Safe.swift:16-33 | the loop returns what `Drain` gives for the unread elements and appends exactly `Drain`'s logger calls; when it returns an array the cursor is at the end; when it throws, the cursor stays on the element the step-over could not consume, and the error is the step-over's |
| Unkeyed.Drain | Sources/UnkeyedDecodingContainer+Safe.swift:18-32 | a returned array is never longer than the elements read |
| Unkeyed.DrainSucceedsIff | Sources/UnkeyedDecodingContainer+Safe.swift:23-30 | the loop returns an array exactly when every element that fails to decode can be stepped over |
| Unkeyed.DrainKeepsSuccesses | Sources/UnkeyedDecodingContainer+Safe.swift:18-32 | a returned array is exactly the elements that decoded, in source order (`Successes`); the logger calls are each element's own followed, for a failed element and `doLog`, by one call with that element's error (`ElementLogs`) |
| Unkeyed.Successes | Sources/UnkeyedDecodingContainer+Safe.swift:20-22 | the kept elements plus the failed ones account for every element |
| Unkeyed.DrainLength | Sources/UnkeyedDecodingContainer+Safe.swift:18-32 | a returned array's length is the element count minus the failed elements |
| Unkeyed.DrainThrowsFirstUnskippable | Sources/UnkeyedDecodingContainer+Safe.swift:29 | when the step-over throws on a failed element and every earlier failure could be stepped over, the whole loop throws that error and returns no array |
| Unkeyed.DrainOfNothing | Sources/UnkeyedDecodingContainer+Safe.swift:18-19 | no elements: an empty array and no logger calls |
| Unkeyed.ElementLogsOfSilent | Sources/UnkeyedDecodingContainer+Safe.swift:23-27 | with element decodes that do not log, the logger is called once per failed element with the element type's name when `doLog`, and never otherwise |
| Unkeyed.DummySkip | Sources/UnkeyedDecodingContainer+Safe.swift:11 | under the assumption stated under "Left out": decoding the empty `DummyCodable` succeeds exactly on an object; elsewhere it throws the keyed-container error |
| Unkeyed.DummySkipRethrows | Sources/UnkeyedDecodingContainer+Safe.swift:29 | with `DummyCodable` as the step-over, the first failed element that is not an object makes the whole array throw |
| Unkeyed.AdvanceSkip | Sources/UnkeyedDecodingContainer+Safe.swift:28-29 | a step-over that always moves on |
| Unkeyed.AdvanceSkipNeverThrows | Sources/UnkeyedDecodingContainer+Safe.swift:28-29 | with a step-over that always moves on, the loop never throws and returns exactly the elements that decoded |
| KeyedArrays.DecodeArrayForKey | Sources/KeyedDecodingContainerProtocol+Safe.swift:12-15 | a returned array needs an array at the key and is never longer than it; with no array at the key the call throws and logs nothing |
| KeyedArrays.DecodeArrayAt | Sources/KeyedDecodingContainerProtocol+Safe.swift:12-15 | opening the nested unkeyed container and running its loop gives `DecodeArrayForKey`'s result and logger calls |
| KeyedArrays.DecodeArrayForKeySucceedsIff | Sources/KeyedDecodingContainerProtocol+Safe.swift:12-15 | the keyed `decodeArray` returns an array exactly when the key holds an array whose failed elements can all be stepped over; it then returns the elements that decoded, in order, with `doLog` forwarded to the logging |
| KeyedArrays.DecodeArrayForKeyNeedsArray | Sources/KeyedDecodingContainerProtocol+Safe.swift:13 | with no array at the key it throws the nested-container error (`keyNotFound` when missing, `typeMismatch` otherwise) and logs nothing |
| KeyedArrays.DecodeArrayIfPresentForKey | Sources/KeyedDecodingContainerProtocol+Safe.swift:17-25 | never throws; gives an array exactly when `decodeArray` would and then the same array, `nil` on any error, including a failed step-over; the logger calls are the same |
| Formatter.Verbosity.To | Sources/DecodingSafeError+Safe.swift:26-29 | the result is `full` exactly when either side is `full`, and otherwise it is the argument |
| Formatter.ToAlgebra | Sources/DecodingSafeError+Safe.swift:26-29 | `full` absorbs from both sides; `to` is associative and idempotent |
| Formatter.ShowNat | Sources/DecodingSafeError+Safe.swift:95 | a count prints as decimal digits, one digit exactly below ten, no leading zero |
| Formatter.ParseShowNat | Sources/DecodingSafeError+Safe.swift:95 | reading the printed digits back gives the count |
| Formatter.ShowInt | Sources/DecodingSafeError+Safe.swift:35 | an index prints with a leading minus exactly when it is negative |
| Formatter.ParseShowInt | Sources/DecodingSafeError+Safe.swift:35 | reading a printed index back gives the index, so distinct indices print differently |
| Formatter.HeaderWording | Sources/DecodingSafeError+Safe.swift:92-100 | the header reads `"<n> error in <type>"` for one failure and `"<n> errors in <type>"` otherwise, followed by `" with ref: <r>"` exactly when a reference is given |
| Formatter.RenderLines | Sources/DecodingSafeError+Safe.swift:78-127 | no lines for no entries, otherwise one more line than entries, the header first |
| Formatter.HeadLine | Sources/DecodingSafeError+Safe.swift:92-99 | the first line built by `lines` is the header for the count, type and reference |
| Formatter.EntryLineOf | Sources/DecodingSafeError+Safe.swift:104-117 | the loop body names the error's kind and builds the entry's line `" <description> <key> <kind>"` |
| Formatter.Lines | Sources/DecodingSafeError+Safe.swift:78-127 | the loop builds exactly `RenderLines`: no lines for no entries, otherwise the header and then one line per entry |
| Formatter.RenderLinesShape | Sources/DecodingSafeError+Safe.swift:79-126 | no entries give no lines; n entries give n + 1 lines, the header first and entry i's line `" <description> <key> <kind>"` at position i + 1 |
| Formatter.Prefix | Sources/DecodingSafeError+Safe.swift:81-89 | as many lines as given; the first gets the prefix in front, every later one is indented by three spaces |
| Formatter.IndexKeys | Sources/DecodingSafeError+Safe.swift:35 | array entry i is keyed `"[<index>]"`, with the same error, in order |
| Formatter.FieldKeys | Sources/DecodingSafeError+Safe.swift:39-43 | dictionary and struct entries are keyed `"<key>:"`, with the same error, in order |
| Formatter.Multiline | Sources/DecodingSafeError+Safe.swift:32-46 | count + 1 lines for a non-empty report, none for an empty one; the first line is the header for the variant's label and reference |
| Formatter.MultilineShape | Sources/DecodingSafeError+Safe.swift:32-46 | the report has no lines for no entries and count + 1 otherwise; the header names `"array"`, `"dictionary"` or `"<T> struct"`, and only a struct passes its reference on; entry i is keyed `"[i]"` in an array and `"key:"` otherwise |
| Formatter.Joined | Sources/DecodingSafeError+Safe.swift:14 | joining no lines gives the empty string; otherwise the first line, then every later line in order, each after the separator |
| Formatter.Description | Sources/DecodingSafeError+Safe.swift:13-15 | empty for an empty report; otherwise the header line, then every entry line of `multiline` in order, each after a newline |
| Formatter.FullDescription | Sources/DecodingSafeError+Safe.swift:17-19 | empty for an empty report; otherwise the header line, then every entry line of `multiline` in order, each after a newline |
| Formatter.DescriptionIsFull | Sources/DecodingSafeError+Safe.swift:13-19 | the rendering does not depend on the verbosity, so `description` equals `fullDescription` |
| Formatter.Line | Sources/DecodingSafeError+Safe.swift:48-69 | the one-line summary is at least three characters long and opens with "(" |
| Formatter.LineSingularIff | Sources/DecodingSafeError+Safe.swift:48-69 | the one-line summary starts with `"(1 "` exactly when there is one failure; it then opens with `"(1 error "`, and otherwise with `"(<count> errors "` |
| Formatter.LineReference | Sources/DecodingSafeError+Safe.swift:60-67 | the summary ends in `" with reference <r>"` for a struct with a reference, and in `")"` otherwise |
| Formatter.ListItem | Sources/DecodingSafeError+Safe.swift:71-76 | one character: U+25B9 exactly when `collapsed` and U+25BF otherwise, whatever the variant |
| Models.DecodePlanet | SafeDecoder/SafeDecoder/Models/Planet.swift:39-62 | `Planet.init(from:)` returns or throws what `PlanetFromNode` gives and makes exactly its logger calls |
| Models.DecodePlanetFields | SafeDecoder/SafeDecoder/Models/Planet.swift:44-61 | all four `decodeSafe` calls run, then the guard: the result and logger calls are `PlanetFromStore`'s |
| Models.PlanetReport | SafeDecoder/SafeDecoder/Models/Planet.swift:44-56 | the report is the `structErrors` of `Planet`, has at most one entry per field, and carries a reference exactly when the name decoded |
| Models.PlanetFromStore | SafeDecoder/SafeDecoder/Models/Planet.swift:44-61 | a failed planet object calls the logger exactly once, with the error it throws and type `Planet`; a decoded one calls it never |
| Models.PlanetFromNode | SafeDecoder/SafeDecoder/Models/Planet.swift:39-62 | a planet calls the logger once when it is an object that fails, never otherwise |
| Models.PlanetSucceedsIff | SafeDecoder/SafeDecoder/Models/Planet.swift:49-61 | a planet decodes exactly when it is an object whose four fields all have their types, and then holds their values |
| Models.PlanetReportsEveryFault | SafeDecoder/SafeDecoder/Models/Planet.swift:44-56 | a failing planet object throws `structErrors` of `Planet` whose entries are exactly its faulty fields, in declaration order, each with its kind; never empty; the reference is the name when the name decoded; one logger call reports it |
| Models.PlanetNeedsObject | SafeDecoder/SafeDecoder/Models/Planet.swift:42 | a planet that is not an object throws the `safeContainer` error before any field is tried, and logs nothing |
| Models.SolarSystemFromNode | SafeDecoder/SafeDecoder/Models/SolarSystem.swift:33-41 | a value that is not an object throws the `container` error with no logger call; a decoded solar system had a string name, which it keeps, and a planets array, which it never outgrows |
| Models.DecodeSolarSystem | SafeDecoder/SafeDecoder/Models/SolarSystem.swift:33-41 | `SolarSystem.init(from:)` returns or throws what `SolarSystemFromNode` gives and makes exactly its logger calls |
| Models.SolarSystemNameFirst | SafeDecoder/SafeDecoder/Models/SolarSystem.swift:35-37 | a name that does not decode is thrown before the planets are looked at, with no logger call |
| Models.SolarSystemSucceedsIff | SafeDecoder/SafeDecoder/Models/SolarSystem.swift:33-41 | decodes exactly when the value is an object with a string name and an array of planets whose failing elements can all be stepped over; then the planets are exactly those that decoded, in order |
| Models.SolarSystemLogs | SafeDecoder/SafeDecoder/Models/SolarSystem.swift:40 | a decoded solar system made two logger calls per dropped planet object and one per other dropped element, all for type `Planet` |
| Models.SolarSystemDummySkipIff | SafeDecoder/SafeDecoder/Models/SolarSystem.swift:40 | with `DummyCodable` as the step-over, a solar system decodes exactly when its name is a string, its planets an array, and every element of that array an object |
| Models.SolarSystemDummySkipLogs | SafeDecoder/SafeDecoder/Models/SolarSystem.swift:40 | with `DummyCodable` as the step-over, each dropped planet costs exactly two logger calls: its own `getErrors` and `decodeArray`'s |
| Models.SolarSystemAdvanceSkipIff | SafeDecoder/SafeDecoder/Models/SolarSystem.swift:40 | with a step-over that always moves on, the planets never make the decode throw, and failing planets are dropped |
| Models.NonObjectPlanetFails | SafeDecoder/SafeDecoder/Models/Planet.swift:42 | every array element that is not an object fails to decode as a planet |
| Models.MercuryFails | SafeDecoder/SafeDecoder/Models/Planet.swift:56 | a planet whose diameter is a string throws `structErrors` with the single entry `diameter`/`typeMismatch`, referenced by its name |
| Models.MercuryDropped | SafeDecoder/SafeDecoder/Models/SolarSystem.swift:40 | a solar system with that planet and a good one keeps only the good one, and the logger sees the bad planet's report twice |

## Left out

- Unkeyed.DummySkip: an assumption, not a derivation. The compiler-generated `init(from:)` of the empty `DummyCodable` is not in the source. If it asks for a keyed container, the step-over fails on every element that is not an object (`DummySkip`). If it never asks for a container, every step-over succeeds (`AdvanceSkip`). The model proves the loop's results for both.
- The demo app's `ViewController.swift`: table view, file loading and the `JSONDecoder` call are UI and I/O.
- JSON parsing and the decoder's internals. The document is a tree value, and `Document` gives the outcome the JSON decoder gives for each primitive the library calls.
- Foundation's localized error texts: the stand-in decoder's errors carry their kind and no description, so their entry lines print an empty description.
- `codingPath` and `String(describing:)`: coding paths are not modelled, and type names are plain strings.
- `Double` payloads are reals, with no arithmetic on them.
- The typed `decode` / `decodeIfPresent` overloads of `KeyedDecodingSafeContainer`: they are all instances of the generic `Decode` / `DecodeIfPresent`.
- SafeKeyed.KeyedDecodingSafeContainer.AllKeys: a set, not an ordered array, because a JSON object's key order is unspecified. Keys are plain strings, so the key type `K` appears only as the predicate `isKey` that `AllKeys` filters by.
- `encode(to:)` of `Planet` and `SolarSystem`: serialisation is outside this model.
- Commented-out code in `KeyedDecodingSafeContainer.swift` and in `lines`. The nested-report rendering that would call `prefix`, `line`, `listItem` and `Verbosity.to` is one such part, so those four are modelled with nothing calling them.
- The logger as process-wide mutable state and its thread safety: it is an object passed to each call.
- The rethrow branches of `Planet`'s four `decodeSafe` calls: a scalar decode throws only `DecodingError`, which is caught, so `DecodePlanetFields` asserts that none rethrows instead of modelling a dead branch.

## Findings

| source | as written | input that shows it | evidently intended | confidence | as-written member | corrected member |
|---|---|---|---|---|---|---|
| Sources/UnkeyedDecodingContainer+Safe.swift:29 | a failed element is stepped over by decoding the empty `DummyCodable`; if its generated `init(from:)` asks for a keyed container, that step-over needs an object, so a failed element that is not an object makes the whole array throw | `{"name": "Sol", "planets": [null]}`: `SolarSystem.init(from:)` throws `valueNotFound` instead of giving Sol with no planets | every failed element is dropped and the array never throws because of one (the call site says it parses "without re-throwing an error") | low (not executed): it depends on the compiler-generated `init(from:)` of `DummyCodable`, which is not in the source; if that initializer never asks for a container, the code already behaves as intended | Unkeyed.DummySkipRethrows, Models.SolarSystemDummySkipIff | Unkeyed.AdvanceSkipNeverThrows, Models.SolarSystemAdvanceSkipIff |

The loop and everything built on it are stated for any step-over. Each lemma that depends
on the step-over's behaviour is given for both the assumed `DummySkip` and the
always-advancing `AdvanceSkip`.
