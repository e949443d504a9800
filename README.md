# tula-mobile directory app: data client and list screen

The app lists artisans and places around Tula de Allende. This project models
the two parts of it with precise behaviour:

- **The data client** (`src/api.ts`). It resolves the API base URL from the
  build configuration and the platform. It fetches `/artisans` and `/places`
  and rejects any payload that is not an array. It never lets an error reach
  its caller: on any failure it returns the bundled fallback collection with
  `isFallback = true`. The network is a parameter `get: string -> Response`
  that answers each URL, so every contract also says which URL was requested.
- **The list screen** (`src/screens/ListScreen.tsx`). It tags artisans
  `'Artesano'` and places `'Lugar'` and concatenates them, artisans first. It
  keys rows `${kind}-${id}` and shows `category || type` as the subtitle. Its
  one state cell, `items`, starts empty and is replaced only when the promise
  chain succeeds. The state cell is the class `ListScreenState`.

Files: `outcomes.dfy` (option and promise-outcome values), `api.dfy` (module
`Api`), `number_text.dfy` (module `NumberText`: how JavaScript prints an
integer id inside a template literal), `list_screen.dfy` (module `ListScreen`).

## Model

| member | source | states |
|---|---|---|
| `Api.ResolveApiUrl` | src/api.ts:6-8 | The base URL is `extra.apiUrl` when it is a non-empty string. Otherwise it is `http://10.0.2.2:4000` on Android and `http://localhost:4000` on every other platform. A missing `extra` object counts as `{}`. The URL is never empty. |
| `Api.WithFallback` | src/api.ts:68-76 | `isFallback` holds exactly when the request rejected. A fulfilled request's data is returned unchanged. A rejected request yields exactly the fallback. No rejection escapes. |
| `Api.ItemsRequest` | src/api.ts:81-86 | The request fulfils exactly when the response arrived and its body is an array, and then with that array. A transport failure and a non-array body both reject. |
| `Api.FetchArtisans` | src/api.ts:80-88 | GETs `apiUrl + "/artisans"`. Live data (`isFallback = false`) exactly when that response is an array, and `data` is then that array. Otherwise `data` is `FALLBACK_ARTISANS` with `isFallback = true`. |
| `Api.FetchPlaces` | src/api.ts:90-98 | GETs `apiUrl + "/places"`. Live data exactly when that response is an array, and `data` is then that array. Otherwise `data` is `FALLBACK_PLACES` with `isFallback = true`. |
| `Api.NonArrayLikeFailure` | src/api.ts:83-85 | For both fetchers, a non-array body gives the same result as a transport failure: the fallback with `isFallback = true`. |
| `Api.FallbackArtisans` | src/api.ts:21-40 | Two artisans with distinct ids. Each has a non-empty category and no type. |
| `Api.FallbackPlaces` | src/api.ts:42-61 | Two places with distinct ids. Each has a non-empty type and no category. |
| `Api.FallbackIdsOverlap` | src/api.ts:21-61 | The two bundled collections use the same ids, 1 and 2, position by position. |
| `NumberText.NumberToString` | src/screens/ListScreen.tsx:22 | `${id}` for an integer id of magnitude at most 2^53 (the exact decimal digits). The text is non-empty and starts with `-` exactly when the id is negative. |
| `NumberText.DecimalRoundTrip` | src/screens/ListScreen.tsx:22 | Reading back the decimal digits printed for a natural number gives that number. |
| `NumberText.NatToDecimalInjective` | src/screens/ListScreen.tsx:22 | Two naturals with the same decimal text are equal. |
| `NumberText.NumberToStringInjective` | src/screens/ListScreen.tsx:22 | Two integer ids print the same exactly when they are equal. |
| `ListScreen.Tag` | src/screens/ListScreen.tsx:12-13 | `xs.map(x => ({...x, kind}))`. Same length, and entry `i` is record `xs[i]` unchanged plus the kind. |
| `ListScreen.Merge` | src/screens/ListScreen.tsx:11-14 | Length is the sum of the two lengths. The first `\|artisans\|` entries are the artisans in order, tagged `Artesano`. The rest are the places in order, tagged `Lugar`. |
| `ListScreen.MergeSplitsBack` | src/screens/ListScreen.tsx:11-14 | Selecting the `Artesano` rows of a merge and removing the tag gives back exactly the artisans. Doing the same with `Lugar` gives back the places. No record is lost, altered or misfiled. |
| `ListScreen.Key` | src/screens/ListScreen.tsx:22 | `keyExtractor`, `${kind}-${id}`: the key is the kind label `Artesano` or `Lugar`, a hyphen, then the id's decimal digits, as JavaScript prints an integer id of magnitude at most 2^53. `KeyInjective` shows that the key determines kind and id. |
| `ListScreen.KeyInjective` | src/screens/ListScreen.tsx:22 | Two rows have the same key `${kind}-${id}` exactly when they have the same kind and the same id. |
| `ListScreen.MergedKeysUnique` | src/screens/ListScreen.tsx:22 | The keys of the merged list are pairwise distinct exactly when ids are unique within the artisans and within the places. An id shared across the two collections does no harm. |
| `ListScreen.Subtitle` | src/screens/ListScreen.tsx:29 | `category \|\| type`. It is the category when that is a non-empty string, otherwise the type. It is a non-empty string exactly when one of the two is. |
| `ListScreen.MapTag` | src/screens/ListScreen.tsx:12-13 | `v.map(...)` succeeds exactly when `v` is an array, with the tagged array. On a record it throws. |
| `ListScreen.ThenCallback` | src/screens/ListScreen.tsx:10-15 | The `.then` callback completes exactly when both arguments are arrays, and its value is then their merge. Otherwise the chain rejects. |
| `ListScreen.EffectAsWritten` | src/screens/ListScreen.tsx:10-15 | With the two `FetchResult` records passed as written, the chain always rejects, whatever the network does. |
| `ListScreen.Effect` | src/screens/ListScreen.tsx:10-15 | With each result's `data` passed, the chain always completes, with the fetched artisans first and then the fetched places. Its `Artesano` rows are exactly the fetched artisans and its `Lugar` rows exactly the fetched places. |
| `ListScreen.OfflineListing` | src/screens/ListScreen.tsx:9-16 | With both requests failing, the intended list is the four bundled records, artisans first, under four distinct keys. |
| `ListScreen.ListScreenState.constructor` | src/screens/ListScreen.tsx:7 | `items` starts as `[]`. |
| `ListScreen.ListScreenState.Settle` | src/screens/ListScreen.tsx:11-15 | When the chain completes, `items` is replaced by its whole value. When it rejects, `items` is unchanged. |
| `ListScreen.ListScreenState.RunEffectAsWritten` | src/screens/ListScreen.tsx:9-16 | The mount effect as written leaves `items` unchanged. |
| `ListScreen.ListScreenState.RunEffect` | src/screens/ListScreen.tsx:9-16 | The intended mount effect sets `items` to the merge of the fetched artisans and places. |
| `ListScreen.MountAsWritten` | src/screens/ListScreen.tsx:6-16 | A freshly mounted screen as written shows an empty list for every platform, configuration and network behaviour. |
| `ListScreen.Mount` | src/screens/ListScreen.tsx:6-16 | A freshly mounted screen as intended shows the live or bundled artisans, then the live or bundled places, fetched from the resolved base URL. |

## Findings

| source | as written | input that shows it | evidently intended | confidence | as-written member | corrected member |
|---|---|---|---|---|---|---|
| src/screens/ListScreen.tsx:10-14 | The `.then` callback calls `a.map` and `p.map` on the `{data, isFallback}` records that `fetchArtisans`/`fetchPlaces` resolve to. Records have no `map`, so the callback throws and `.catch(console.error)` swallows the TypeError. `items` stays `[]`. | Any network behaviour, e.g. both requests fail and the fallbacks are returned | Map `a.data` and `p.data`, so the list shows the live or bundled records | high (not executed) | `ListScreen.EffectAsWritten` | `ListScreen.Effect` |

## Left out

- Network, `axios`, `expo-constants` and `Platform.OS` are inputs: the function `get` answering each URL, the optional `extra` object and the platform name.
- `ResolveApiUrl`: `extra.apiUrl` is modelled as a string or absent. Other falsy JavaScript values there (`null`, `0`, `false`) are not modelled. A missing `Constants` or `expoConfig` is folded into an absent `extra`.
- A JSON array body is taken to hold `Item` records. The source checks only `Array.isArray`, never the elements, and the model does not either.
- `NumberToString` models `${id}` for integer ids of magnitude at most 2^53 only, where a JavaScript number holds the id exactly and prints its exact decimal digits. Beyond 2^53 a JavaScript number is not exact and prints as the shortest digits that read back to the same double (`${2**60}` is `1152921504606847000`, not `1152921504606846976`); such ids, fractional ids, `-0` and exponent notation are not modelled. `Item.id` is an unbounded integer and so also admits ids no JavaScript number can hold.
- `console.warn` in `withFallback` and `console.error` in the screen are logging only and are not modelled.
- `Promise.all` runs the two fetches concurrently. The model evaluates them one after the other. Neither fetch rejects, so the join sees the same two results.
- Spreading `{...x, kind}` over a server record that already has a `kind` field is not modelled: `Item` has no such field.
- The effect runs once per mount (`[]` dependencies) and is modelled as one call. A `setItems` after the screen unmounts is not modelled.
- The screen has no loading, error or fallback-banner state and no unmount guard; `isFallback` is never read by it.
- The text of the TypeError that `.catch` receives is engine-specific; the model only states that the chain rejects.
- Rendering (`FlatList`, `TouchableOpacity`, styles) is presentation only. Only the key and subtitle choices are modelled.
- src/screens/MapScreen.tsx is a static map with one hard-coded marker. It has no data logic and is not part of this model.
- App.tsx (tab navigation), src/types/maps.d.ts (type declarations) and app/api.ts (an older fetch wrapper with no validation or fallback) are not part of this model.
