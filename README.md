# Local state and API access layer of the Expo templates, modelled in Dafny

This project models the four small pieces of logic under the app templates:

- the persisted application store `useAppStore` (theme, loading flag, error slot, keyed data bag; theme and data persisted under `"app-storage"`) — module `AppStore`, class `AppStore.Store`;
- the response-envelope client `api`, `apiPost`, `apiDelete` — module `ApiClient`, pure functions, with `fetch` passed in as a function from the request to the reply;
- the fail-silent storage wrapper `storage.get/set/remove/clear` over the platform's key-value store — module `KeyValueStorage`, class `KeyValueStorage.Storage`, whose `items` map is the platform store and whose operations take a `fault` flag saying whether the platform call throws;
- `clamp` — module `Utils`, over `int`.

`JSON.stringify` and `JSON.parse` are library code. Module `JsonCodec` stands in for them: a JSON value datatype, an encoder and a decoder. Its text is a prefix-tagged format, not JSON syntax. The model relies on three facts about it, all proved: decoding an encoding gives the value back, the encoding is never empty, and distinct values encode differently. Module `Wrappers` holds `Option` and `Result`.

Design points that follow the code:

- `storage.get` reads `value ? JSON.parse(value) : null`. So a missing key, an empty stored text, an unparsable text and a failed platform read all return null. Null is `JNull`, so a stored `"null"` cannot be told apart from a miss.
- `api` awaits `res.json()` before it looks at `res.ok`. A body that cannot be read therefore fails as `BodyUnreadable` even on an error status.
- The check is `json.data === undefined`, so an envelope with `data: null` (`Some(JNull)`) is accepted.
- The message is `json.error || 'Request failed'`, so an empty error text falls back to the generic message. An `error` given as an empty text is therefore not used.
- `init` is spread after the default headers, so a caller's `headers` replaces the JSON content type entirely. Requests from `apiPost` and `apiDelete`, which set no headers, always carry `Content-Type: application/json`; a call to `api` with headers need not.

`AppStore.StorageKey` (`"app-storage"`) and `ApiClient.ApiUrl` are named constants only. The key is the one under which the persist middleware stores the `Persisted` snapshot that `Store.Rehydrated` takes. `ApiUrl` computes the `apiUrl` argument that `Api`, `ApiPost` and `ApiDelete` receive. No member reads the platform store under the key, and none calls `ApiUrl` itself.

## Model

| member | source | states |
|---|---|---|
| `Utils.Clamp` | reference/expo-reference/lib/utils.ts:12-14 | with `lo <= hi` the result lies in `[lo, hi]`; a value in range comes back unchanged; below range gives `lo`, above gives `hi`; with `hi < lo` the result is always `hi`; the result is always one of the three inputs |
| `Utils.ClampIdempotent` | reference/expo-reference/lib/utils.ts:12-14 | clamping twice gives the same as clamping once, for any bounds |
| `ApiClient.ApiUrl` | definitions/expo-DO-v2/lib/api-client.ts:3 | the base URL is the configured one, or `""` when unset |
| `ApiClient.BuildRequest` | definitions/expo-DO-v2/lib/api-client.ts:6-9 | the URL is the base URL followed by the path; headers are the JSON content type unless the caller gives headers, which then replace them wholesale; method and body are the caller's |
| `ApiClient.ErrorMessage` | definitions/expo-DO-v2/lib/api-client.ts:12 | the message is never empty; it is the envelope's error when that is a non-empty text, otherwise `"Request failed"` |
| `ApiClient.Validate` | definitions/expo-DO-v2/lib/api-client.ts:10-14 | success iff `ok`, the envelope's `success` and its `data` are all present; then the result is exactly `data`; every other readable reply fails with the selected message; an unreadable body fails as such |
| `ApiClient.Settle` | definitions/expo-DO-v2/lib/api-client.ts:6-14 | a rejected `fetch` fails the call; otherwise the reply is validated |
| `ApiClient.Api` | definitions/expo-DO-v2/lib/api-client.ts:5-15 | for `fetch` applied to the built request: a rejection fails with `NetworkFailure`; an unreadable body fails with `BodyUnreadable`; the call succeeds iff the reply is `ok` and its envelope reports success and carries data, and then returns exactly that data; any other readable reply fails with `RequestFailed` and the selected message |
| `ApiClient.PostRequest` | definitions/expo-DO-v2/lib/api-client.ts:18-23 | the request `apiPost` sends goes to base URL + path with method POST, the JSON content type, and a body that decodes back to the given value |
| `ApiClient.DeleteRequest` | definitions/expo-DO-v2/lib/api-client.ts:26-28 | the request `apiDelete` sends goes to base URL + path with method DELETE, the JSON content type and no body |
| `ApiClient.ApiPost` | definitions/expo-DO-v2/lib/api-client.ts:18-23 | `apiPost` gives the outcome of sending exactly that POST request |
| `ApiClient.ApiDelete` | definitions/expo-DO-v2/lib/api-client.ts:26-28 | `apiDelete` gives the outcome of sending exactly that DELETE request |
| `ApiClient.EnvelopeExamples` | definitions/expo-DO-v2/lib/api-client.ts:11-14 | `{success: true, data: x}` gives `x`; `{success: false, error: "bad"}` fails with `"bad"`; `{success: true}` fails with `"Request failed"` |
| `JsonCodec.Encode` | reference/expo-reference/lib/storage.ts:15 | the text written for any value is non-empty, so `get`'s truthiness test never discards it |
| `JsonCodec.Decode` | reference/expo-reference/lib/storage.ts:7 | an empty text does not parse; a text parses only when it holds exactly one value with nothing left over, and the result is that value (with `RoundTrip`, it inverts `Encode`) |
| `JsonCodec.RoundTrip` | reference/expo-reference/lib/storage.ts:4-15 | parsing the text written for a value gives that value back |
| `JsonCodec.EncodeInjective` | reference/expo-reference/lib/storage.ts:15 | distinct values are written as distinct texts |
| `KeyValueStorage.ReadItem` | reference/expo-reference/lib/storage.ts:6-10 | a missing key, an empty text and an unparsable text read as null; a parsable text reads as the value it encodes |
| `KeyValueStorage.ReadWritten` | reference/expo-reference/lib/storage.ts:4-15 | reading back the text `set` writes for a value gives that value |
| `KeyValueStorage.Storage.Get` | reference/expo-reference/lib/storage.ts:4-11 | never fails: a failing platform read and a missing key give null, otherwise the stored text is read as above |
| `KeyValueStorage.Storage.Set` | reference/expo-reference/lib/storage.ts:13-19 | on success the key holds the value's encoding and `get` returns the value; on failure the store is unchanged and the save error is logged; other keys read as before |
| `KeyValueStorage.Storage.Remove` | reference/expo-reference/lib/storage.ts:21-27 | on success the key is gone and `get` returns null; on failure the store is unchanged and the remove error is logged; other keys read as before |
| `KeyValueStorage.Storage.Clear` | reference/expo-reference/lib/storage.ts:29-35 | on success the store is empty and every `get` returns null; on failure it is unchanged and the clear error is logged |
| `AppStore.Partialize` | reference/expo-reference/lib/store.ts:54-57 | the snapshot holds exactly the theme and the data bag |
| `AppStore.PartializeIgnoresTransient` | reference/expo-reference/lib/store.ts:54-57 | the loading flag and the error never affect the snapshot |
| `AppStore.Merge` | reference/expo-reference/lib/store.ts:27-58 | rehydration overwrites theme and data with the snapshot's and keeps the loading flag and error; with no snapshot the state is unchanged |
| `AppStore.PersistRestore` | reference/expo-reference/lib/store.ts:29-57 | restoring a snapshot over the defaults gives back its theme and data with `isLoading = false` and `error = null`, and the snapshot of the result is the original snapshot |
| `AppStore.Store.constructor` | reference/expo-reference/lib/store.ts:29-50 | the initial state is theme `system`, not loading, no error, empty data |
| `AppStore.Store.Rehydrated` | reference/expo-reference/lib/store.ts:27-58 | a store started from a stored snapshot holds the snapshot merged over the defaults |
| `AppStore.Store.Snapshot` | reference/expo-reference/lib/store.ts:54-57 | the persisted subset of the current state |
| `AppStore.Store.SetTheme` | reference/expo-reference/lib/store.ts:32 | sets the theme; loading flag, error and data unchanged |
| `AppStore.Store.SetIsLoading` | reference/expo-reference/lib/store.ts:36 | sets the loading flag; theme, error and data unchanged |
| `AppStore.Store.SetError` | reference/expo-reference/lib/store.ts:40 | sets the error; theme, loading flag and data unchanged |
| `AppStore.Store.ClearError` | reference/expo-reference/lib/store.ts:41 | the error becomes null, nothing else changes, and a call with no error set leaves the whole state as it was (idempotence) |
| `AppStore.Store.SetData` | reference/expo-reference/lib/store.ts:45-47 | the key maps to the value, every other key keeps its value, the key set grows by that key only; other fields unchanged |
| `AppStore.Store.GetData` | reference/expo-reference/lib/store.ts:48 | the value under the key if present, `undefined` (`None`) exactly when absent; it reads the state and changes nothing |
| `AppStore.Store.ClearData` | reference/expo-reference/lib/store.ts:49 | the data bag becomes empty and every `getData` gives `undefined`; theme, loading flag and error unchanged |

## Left out

- Subscriber notification, `getState` and the zustand `create`, `persist` and `createJSONStorage` machinery: library code. Only what `partialize` selects and how a found snapshot is merged over the defaults are modelled.
- The asynchronous timing of persistence (when the snapshot is written, hydration order, interleaved writes): the code has no write queue and no hydration gating, so the model claims neither last-write-wins nor buffering of writes made before hydration.
- The wrapper object `{state, version}` zustand stores under `"app-storage"`, and its JSON text: library format.
- JSON syntax itself: `JsonCodec` is an injective stand-in for `JSON.stringify`/`JSON.parse`. Numbers are integers, and values JSON cannot encode (`undefined`, functions, cycles) are not representable.
- `ApiClient.BuildRequest`: a property of `init` set explicitly to `undefined` is treated as absent. In the original such a property still overrides the default. `RequestInit` options other than method, headers and body are not modelled.
- `ApiClient.Validate`: the envelope's `success` is a boolean. The original tests truthiness of whatever the body holds. A body that holds JSON but not an object is not distinguished from an envelope without fields.
- `ApiClient.ApiError` models only which kind of error is thrown. For a network rejection or an unreadable body, the thrown error's message comes from the platform and is not modelled.
- `AppStore.Store.GetData`: the data bag is a map, so a missing key gives `undefined` (`None`). In the original, `get().data[key]` on a plain object also reads inherited properties, so keys such as `"toString"`, `"constructor"` or `"__proto__"` give a function or an object even on an empty bag. The model does not capture this.
- `console.error` output is modelled as the `errorLog` sequence; logging itself is I/O.
- `Utils.Clamp`: is modelled over `int`, so JavaScript's floating-point numbers, NaN and signed zero are not covered.
- Not modelled, as platform or nondeterministic code: `isIOS`, `isAndroid`, `isWeb`, the screen dimensions, `formatDate` (locale formatting) and `generateId` (randomness and the clock).
- Not modelled, as presentation with no logic to state: the UI components `Button` and `Card`, and the colour table `Colors`.
