# Rain-gauge dashboard: verified model of its logic

This project models the logic of a small rain-gauge dashboard written as a
Next.js/React application, and proves properties of that model in Dafny.
The dashboard fetches readings from a municipal rainfall API and shows them in
a searchable list. It labels and colours each station by rainfall tier, counts
stations per tier, and remembers the chosen font size in the browser's
`localStorage`.

Modules: one per source file modelled, plus a helper module:

- `Wrappers` (`wrappers.dfy`): helper module; `Option` stands in for `null`.
- `RainTypes` (`rain_types.dfy`): the `RainStation` record and the three font sizes of `src/types/rain.ts`.
- `RainLevel` (`rain_level.dfy`): `formatTime`, `getRainLevelText` and `getRainLevelColor` of `src/components/RainDataList.tsx`. Both classifiers are written as the first-match chains they are in the source. `InBand` is the severity table, one closed range per tier. `TierOf` is the classification that table defines. Contracts and lemmas connect the chains to the table.
- `Search` (`search.dfy`): the `filteredData` predicate of `src/app/page.tsx`.
- `Stats` (`stats.dfy`): `rainStats` of `src/app/page.tsx`, and the combined "大暴雨+" figure.
- `Dashboard` (`dashboard.dfy`): the page state `(rainData, loading, error)` as class `Home`, and `fetchRainData` as its methods. The result of the network request arrives as a `FetchOutcome` value.
- `Preference` (`preference.dfy`): `useLocalStorage` as class `LocalStorageHook`. It holds a `Storage` object whose `items` field is the browser's key-value map. `Encode`/`Decode` stand for `JSON.stringify`/`JSON.parse` of the font-size string.

Two points about the code itself:

- The ranges leave gaps, for example 0 < r < 0.1 and 9.9 < r < 10.0. Values in a gap, and negative values, are '未知'. So the seven tier counts need not add up to the list length: the seven counts plus the unknown count equal the total (`Stats.TierSumPlusUnknown`).
- `highlightText` builds a `RegExp` from the unescaped query. Highlighting is left out of the model.

## Model

| member | source | states |
|---|---|---|
| `RainLevel.FormatTime` | src/components/RainDataList.tsx:18-26 | an input whose length is not 12 comes back unchanged; a 12-character input gives 16 characters with '/' at 4 and 7, ' ' at 10 and ':' at 13 |
| `RainLevel.FormatRoundTrip` | src/components/RainDataList.tsx:20-25 | deleting the four separator positions from `FormatTime(s)` gives back `s` when `|s| = 12` |
| `RainLevel.UnformatRoundTrip` | src/components/RainDataList.tsx:18-26 | converse: every 16-character string with the separators in place is the formatting of its 12 digits |
| `RainLevel.FormatTimeExample` | src/components/RainDataList.tsx:18-26 | `202401151230` is shown as `2024/01/15 12:30` |
| `RainLevel.BandsDisjoint` | src/components/RainDataList.tsx:41-50 | a value lies in at most one of the seven closed ranges |
| `RainLevel.UncoveredIsGap` | src/components/RainDataList.tsx:41-50 | a value lies in no range exactly when it is negative or in one of the six gaps between ranges |
| `RainLevel.TierOf` | src/components/RainDataList.tsx:41-50 | the result is the one tier whose range holds the value, and `Unknown` exactly when the value is in a gap or negative |
| `RainLevel.TierMonotone` | src/components/RainDataList.tsx:41-50 | over covered values, a <= b implies the tier of a is no more severe than the tier of b |
| `RainLevel.LabelInjective` | src/components/RainDataList.tsx:42-49 | the eight labels are distinct, so a label names its tier |
| `RainLevel.RainLevelText` | src/components/RainDataList.tsx:41-50 | the label is that of the tier whose range holds the value; it is '未知' exactly for values in no range |
| `RainLevel.RainLevelColor` | src/components/RainDataList.tsx:29-38 | the colour is that of the tier whose range holds the value; it is gray exactly for 0 and for values in no range |
| `RainLevel.TextAndColorAgree` | src/components/RainDataList.tsx:29-50 | text and colour of a value come from the same tier, and that tier's range holds the value unless it is `Unknown` |
| `RainLevel.BoundaryValues` | src/components/RainDataList.tsx:30-48 | 0 gives '無降雨' and gray; 0.1 and 9.9 give '小雨'; 10.0 and 12.5 give '中雨'; 249.9 gives '大暴雨'; 250.0 gives '特大暴雨' |
| `RainLevel.ExtremeFromTwoHundredFifty` | src/components/RainDataList.tsx:36-48 | every value >= 250.0 gives '特大暴雨' and pink |
| `RainLevel.GapIsUnknown` | src/components/RainDataList.tsx:37-49 | negative values and gap values give '未知' and gray |
| `Search.Filter` | src/app/page.tsx:52-55 | the result is no longer than the input, and every kept station is from the input and matches the query |
| `Search.Matches` | src/app/page.tsx:53-54 | an empty query matches every station; a match needs the query to fit inside the name or the station number |
| `Search.FilteredData` | src/app/page.tsx:49-56 | an empty query gives the list itself; otherwise a station is in the result exactly when it is in the list and matches; the result is never longer than the list |
| `Search.EmptyQueryKeepsAll` | src/app/page.tsx:50 | an empty query returns the list itself, and filtering with it would also keep every station |
| `Search.FilterMembership` | src/app/page.tsx:52-55 | a station is kept exactly when it is in the list and its lower-cased name contains the lower-cased query or its number contains the query |
| `Search.FilterSelects` | src/app/page.tsx:52-55 | the result picks input positions in strictly increasing order, and those positions are exactly the matching ones |
| `Search.FilterIdempotent` | src/app/page.tsx:52-55 | filtering the result again with the same query gives the same list |
| `Search.FilteredDataIdempotent` | src/app/page.tsx:49-56 | the memoised `filteredData` is idempotent as well |
| `Stats.CountWhere` | src/app/page.tsx:73-79 | a filtered count never exceeds the list length |
| `Stats.RainStatsOf` | src/app/page.tsx:70-81 | `total` is the list length and each tier count is at most `total` |
| `Stats.TierSumPlusUnknown` | src/app/page.tsx:70-81 | the seven tier counts plus the number of stations labelled '未知' equal `total`, so the seven never sum above it |
| `Stats.HeavyRainstormPlus` | src/app/page.tsx:124 | the displayed sum of the two top counts is the number of stations in either of the two top ranges, and at most the list length |
| `Stats.StatsMatchClassifier` | src/app/page.tsx:73-79 | each tier count equals the number of stations `getRainLevelText` labels with that tier |
| `Stats.HeavyRainstormPlusCountsAtLeast100` | src/app/page.tsx:124 | for readings at 0.1 mm resolution, the "大暴雨+" figure is the number of stations with at least 100.0 mm |
| `Stats.HeavyRainstormPlusMissesGap` | src/app/page.tsx:124 | a station reading 249.95 mm is counted by neither bucket of the combined figure, but it has at least 100.0 mm |
| `Stats.SingleModerateStation` | src/app/page.tsx:70-81 | one station with 12.5 mm gives total 1 and one moderate-rain count |
| `Dashboard.Home.constructor` | src/app/page.tsx:11-13 | the page starts with an empty list, loading on, and no error |
| `Dashboard.Home.BeginFetch` | src/app/page.tsx:21-22 | on entry loading becomes true and the error is cleared; the list stays |
| `Dashboard.Home.CompleteFetch` | src/app/page.tsx:24-35 | success stores `data.data` or `[]`; a non-ok response keeps the list and sets '網絡請求失敗'; a thrown value keeps the list and sets its message or '未知錯誤'; loading ends false |
| `Dashboard.CaughtMessage` | src/app/page.tsx:32 | a thrown `Error` gives its own message; only an `Error` can give an empty message; '未知錯誤' comes from a non-`Error` value or an `Error` with that message |
| `Dashboard.Home.FetchRainData` | src/app/page.tsx:19-36 | the whole fetch: success replaces the list and leaves no error; failure keeps the list and sets the error; loading ends false |
| `Dashboard.Home.Shown` | src/app/page.tsx:49-56 | the list handed to the view is `filteredData` of the current list, so it keeps the order and multiplicity of `Search.FilterSelects`; for an empty query it is the whole list |
| `Dashboard.Home.Summary` | src/app/page.tsx:70-81 | the statistics are `rainStats` of the current list, so `Stats.StatsMatchClassifier` applies to them; they total the list and the tier counts do not exceed it |
| `Dashboard.ExampleScenario` | src/app/page.tsx:30 | after the example payload is fetched, its one station is shown |
| `Preference.Decode` | src/hooks/useLocalStorage.ts:11 | a text decodes to a preference only when, without surrounding whitespace, it is that preference's encoding |
| `Preference.Trim` | src/hooks/useLocalStorage.ts:11 | the result is a slice of the input, everything outside it is JSON whitespace, and a non-empty result neither starts nor ends with whitespace |
| `Preference.DecodeEncode` | src/hooks/useLocalStorage.ts:26 | decoding what `setValue` writes gives the value back, and that text is never empty |
| `Preference.Encode` | src/hooks/useLocalStorage.ts:26 | `JSON.stringify` of a font size is a quoted run of lower-case letters, so nothing in it needs escaping |
| `Preference.DecodePadded` | src/hooks/useLocalStorage.ts:11 | an encoding with any JSON whitespace before and after it still decodes to its value |
| `Preference.GetItem` | src/hooks/useLocalStorage.ts:9 | `getItem` returns the stored string exactly when the key is present |
| `Preference.LoadedValue` | src/hooks/useLocalStorage.ts:7-18 | the value changes only to the decoding of a non-empty item that was read; such an item always takes effect |
| `Preference.LoadAfterStore` | src/hooks/useLocalStorage.ts:9-11 | once a value is stored under the key, a load reads it back |
| `Preference.LocalStorageHook.constructor` | src/hooks/useLocalStorage.ts:4-5 | the hook starts with the initial value and not ready |
| `Preference.LocalStorageHook.Load` | src/hooks/useLocalStorage.ts:7-18 | every path ends ready; the value becomes the decoded item only for a non-empty item that decodes and a read that does not fail |
| `Preference.Apply` | src/hooks/useLocalStorage.ts:23 | a plain value is stored as given, whatever the current value; an updater is applied to the current value |
| `Preference.LocalStorageHook.SetValue` | src/hooks/useLocalStorage.ts:21-31 | the value always becomes the new value or the updater applied to the old one; the encoding is written under `key` only when ready and the write succeeds; readiness is unchanged; no other key changes |
| `Preference.PreferenceRoundTrip` | src/hooks/useLocalStorage.ts:4-31 | on an empty store a fresh hook loads the default 'medium' and is ready; once ready, a value set through it is what the next fresh hook loads |
| `Preference.SetBeforeReady` | src/hooks/useLocalStorage.ts:25 | before the load, `setValue` changes the value but not the store |

## Left out

- Rendering: the JSX of `src/components/RainDataList.tsx` and `src/app/page.tsx`, the loading and error panels, and the statistics grid. These are presentation only.
- `highlightText` (`src/components/RainDataList.tsx:53-62`). It builds a regular expression from the query unescaped and tests with a stateful global regex. Modelling it would need a regex engine.
- `src/app/api/rain/route.ts`, the upstream request and its 300-second cache. This is I/O; its result enters the model as `Dashboard.FetchOutcome`.
- Polling with `setInterval`, and overlapping fetches where the last write wins. These are timer and concurrency behaviour.
- `src/components/RainAnimation.tsx` (randomness), `Header.tsx`, `Footer.tsx`, and `next.config.ts`: no logic. `SearchBar.tsx` only trims the query; the model takes the query as already trimmed. The `fontSizeClasses` table of `FontSizeControl.tsx` is a constant lookup.
- Rainfall is a Dafny `real`, not an IEEE double. The source compares doubles parsed from decimal JSON against decimal literals. `NaN` and `-0` are not modelled.
- `Search.Lower` lower-cases ASCII letters only; Unicode `toLowerCase` is not modelled. String length is counted in characters, not UTF-16 code units.
- `Preference.Decode` accepts only the JSON texts of the three font sizes, possibly surrounded by whitespace. The source's `JSON.parse` also accepts escaped spellings. It would also store any other JSON value; the model treats such a value as a parse failure and keeps the current value.
- `Preference.LocalStorageHook.SetValue`: an updater that throws is not modelled (updaters are total functions). The source's `setValue` reads both `storedValue` and `isLocalStorageReady` from the render that created it. The model reads the hook's current fields instead. So two updater calls before a re-render give f(f(v0)) in the model, where the source gives f(v0). The callers in `FontSizeControl.tsx` and `page.tsx` pass plain values only. The `typeof window` check and a throwing `setItem` are merged into the `writeFault` parameter. `Load`'s `readFault` parameter stands for `getItem` throwing.
- `Dashboard.Home.FetchRainData`: a body that parses to `null` (so reading `data.data` throws) is given as `Rejected`. React's batching of state updates is not modelled; the updates happen in program order.
- `Stats.HeavyRainstormPlusCountsAtLeast100` is weaker than the "≥100.0 mm" label of `src/app/page.tsx:126`: it holds only for readings at 0.1 mm resolution. Readings strictly between 249.9 and 250.0 fall in neither bucket (`Stats.HeavyRainstormPlusMissesGap`).
