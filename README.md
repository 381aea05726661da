# Request wrapper, storage helpers and filter validator of the todo/posts dashboard

This project models, in Dafny, the three pieces of the dashboard's client code
that have behaviour, and proves what they promise.

- **The request wrapper** (`src/utils/fetch-wrapper.ts`, module `FetchWrapper`
  in `fetch_wrapper.dfy`). `fetchJSON` resolves the address against a base
  address, arms a timeout, calls `fetch`, clears the timer, rejects a status
  outside 200–299 with a `FetchError` carrying the status and the response,
  and parses the body. Its catch block clears the timer again and classifies
  whatever was thrown. The verbs `get`, `post`, `put` and `del` force their
  method; `post` and `put` also set the JSON body and the content type. Then
  there are `isFetchError` and `getErrorMessage`. `FetchJson` is an
  imperative method. It returns the outcome and a ghost trace of its side
  effects: arming the timer, calling fetch, the timer firing, clearing the
  timer and reading the body. How `fetch` settles is a parameter
  (`FetchSettlement`): it resolves with a response, rejects with a thrown
  value, or the timer fires first. The JSON library is a `JsonCodec`
  parameter. An ok status follows section 2.2.3 "Statuses" of the Fetch
  Standard: a status in the range 200 to 299, inclusive.
- **The storage helpers** (`src/utils/local-storage.ts`, module `LocalStorage`
  in `local_storage.dfy`). All seven helpers are methods. They run against a
  `Storage` class (module `WebStorage` in `web_storage.dfy`) that has the
  surface of the Storage interface: `length`, `key(n)`, `getItem`,
  `setItem`, `removeItem` and `clear` (section 12.2.1 of the HTML
  Standard). The class holds an ordered sequence of entries with distinct
  keys. Failure is explicit. When access is refused, every call throws a
  SecurityError. `setItem` throws a QuotaExceededError when the entries
  would outgrow the quota. Each helper's contract states its sentinel on
  every failure.
- **The filter validator** (`src/constant/filter.ts`, module `Filter` in
  `filter.dfy`): the three filter values and `isValidFilter`.

`js.dfy` (module `Js`) holds the JavaScript behaviour the code relies on:
`startsWith`, `includes`, how a template literal renders a status number,
and the JSON library seen from outside.

The model follows the code, including where it may surprise a caller:
- `getErrorMessage` returns the `message` only of values that are `Error`
  instances. A plain object with a `message` property still gets
  "An unknown error occurred" (`NonError` carries such a property and
  `GetErrorMessage` ignores it).
- A failed body parse is classified like any other `Error`. A parse message
  containing "Failed to fetch" would therefore be reported as a network
  error.
- The timeout message is the one `fetchJSON` throws, "Request timeout". The
  message table in `src/constant/messages.ts` has different text.
- `post`/`put` called with data that `JSON.stringify` cannot serialize
  rejects with the serializer's own error (a TypeError for cyclic or BigInt
  data) before `fetchJSON` runs. No
  timer is armed and the rejection is not a `FetchError`.

## Model

| member | source | states |
|---|---|---|
| `FetchWrapper.ResolveUrl` | src/utils/fetch-wrapper.ts:35 | an address starting with the literal "http" (so "httpfoo/x" too) is used as it is; any other is appended to the base address |
| `FetchWrapper.ResolveIsStable` | src/utils/fetch-wrapper.ts:35 | once the resolved address starts with "http", resolving it again against any base gives the same address |
| `FetchWrapper.AbsoluteBaseGivesAbsolute` | src/utils/fetch-wrapper.ts:35 | when the address or the base starts with "http", the resolved address does too |
| `FetchWrapper.BuildRequest` | src/utils/fetch-wrapper.ts:29-44 | fetch gets the resolved address; method, headers and body pass through unchanged, while `timeout` and `baseURL` are taken out |
| `FetchWrapper.HttpError` | src/utils/fetch-wrapper.ts:49-53 | the failure for a status that is not ok starts with "HTTP error! status: " and carries the status and the response |
| `FetchWrapper.HttpErrorReportsStatus` | src/utils/fetch-wrapper.ts:48-54 | the HTTP failure's message is "HTTP error! status: " followed by exactly the rendered status: a non-empty run of digits, with no leading zero unless the status is 0, that reads back as the status; it carries the status and the response |
| `FetchWrapper.Classify` | src/utils/fetch-wrapper.ts:58-77 | a thrown FetchError is rethrown unchanged; every other failure becomes a FetchError with no status and no response; an Error named AbortError gives "Request timeout"; a value that is not an Error gives exactly "Unknown error occurred" |
| `FetchWrapper.ClassificationOrder` | src/utils/fetch-wrapper.ts:65-75 | for an Error that is not a FetchError: the name AbortError gives "Request timeout"; otherwise any occurrence of "Failed to fetch" in the message gives the network text; otherwise the message is kept |
| `FetchWrapper.FetchOutcome` | src/utils/fetch-wrapper.ts:40-78 | fulfils exactly when fetch answered with an ok status and the body parses, and then with the parsed body; every rejection is a FetchError; a timeout rejects with "Request timeout" |
| `FetchWrapper.HttpFailureSkipsBody` | src/utils/fetch-wrapper.ts:48-54 | a status that is not ok rejects with the HTTP failure, and the outcome is the same whatever the body parser would do (the body is never parsed) |
| `FetchWrapper.OkResponseYieldsBody` | src/utils/fetch-wrapper.ts:56-57 | an ok response fulfils with exactly the parsed body; a parse failure rejects with the classified SyntaxError |
| `FetchWrapper.StatusOnlyForHttpFailure` | src/utils/fetch-wrapper.ts:48-77 | every failure is a FetchError, and it carries a status and a response if and only if the server answered with a status that is not ok |
| `FetchWrapper.FetchJson` | src/utils/fetch-wrapper.ts:25-79 | the outcome is the one classified above. Exactly one timer is armed and it is never left pending on any exit path. The body is read only after the timer was cleared, and only for an ok status. The timer fires only when fetch timed out |
| `FetchWrapper.WithMethod` | src/utils/fetch-wrapper.ts:81-86 | the caller's options with the method forced, every other option unchanged |
| `FetchWrapper.WithJsonBody` | src/utils/fetch-wrapper.ts:93-101 | method forced, body replaced by the serialized data, headers = the caller's headers with their values plus Content-Type: application/json unless the caller gave a Content-Type |
| `FetchWrapper.Get` | src/utils/fetch-wrapper.ts:81-86 | fetch is called with method GET and the caller's other options; the outcome is that of fetchJSON |
| `FetchWrapper.Del` | src/utils/fetch-wrapper.ts:120-125 | fetch is called with method DELETE and the caller's other options; the outcome is that of fetchJSON |
| `FetchWrapper.SendJson` | src/utils/fetch-wrapper.ts:93-100 | serialization happens before fetchJSON: its failure rejects with the TypeError and sends nothing; otherwise fetch gets the JSON options |
| `FetchWrapper.Post` | src/utils/fetch-wrapper.ts:88-102 | fetch is called with the resolved address and the caller's options with method POST, body = the serialized data and the merged JSON headers, or the serializer's TypeError rejects with nothing sent |
| `FetchWrapper.Put` | src/utils/fetch-wrapper.ts:104-118 | fetch is called with the resolved address and the caller's options with method PUT, body = the serialized data and the merged JSON headers, or the serializer's TypeError rejects with nothing sent |
| `FetchWrapper.IsFetchError` | src/utils/fetch-wrapper.ts:127-132 | true exactly for a thrown FetchError instance, which the catch block of fetchJSON rethrows unchanged |
| `FetchWrapper.GetErrorMessage` | src/utils/fetch-wrapper.ts:134-144 | total over every thrown value: the message of a FetchError or of another Error, else "An unknown error occurred" |
| `FetchWrapper.FailureMessages` | src/utils/fetch-wrapper.ts:127-144 | every failure of fetchJSON passes isFetchError, and its message is a fixed text, the HTTP status text, or the underlying Error's message |
| `Js.IncludesIffOccurs` | src/utils/fetch-wrapper.ts:70 | `includes` is true if and only if the substring occurs at some index |
| `Js.DecimalRoundTrip` | src/utils/fetch-wrapper.ts:50 | the rendered status is non-empty, all digits, has no leading zero unless it is 0, and reads back as the status |
| `WebStorage.LookupPut` | src/utils/local-storage.ts:4 | after setItem(k, v), k maps to v and every other key keeps its value |
| `WebStorage.PutKeys` | src/utils/local-storage.ts:4 | setItem keeps the key order, appends a new key at the end, and keeps the keys distinct |
| `WebStorage.LookupDelete` | src/utils/local-storage.ts:33 | after removeItem(k), k is absent, every other key keeps its value, the keys stay distinct and the size does not grow |
| `WebStorage.LookupIffKey` | src/utils/local-storage.ts:51-57 | getItem returns a string if and only if the key is one of the store's keys |
| `WebStorage.LookupAt` | src/utils/local-storage.ts:86-92 | the key at index i looks up the value at index i |
| `LocalStorage.Decode` | src/utils/local-storage.ts:18-28 | a stored item yields a value exactly when it is present, not the empty string, and parses; the value is then the parsed one |
| `LocalStorage.SaveToLocalStorage` | src/utils/local-storage.ts:1-14 | true exactly when serializing and setItem both complete. On success the key maps to the serialized text and nothing else changes. Every failure, the quota one included, returns false and leaves the store unchanged |
| `LocalStorage.GetFromLocalStorage` | src/utils/local-storage.ts:16-29 | null when access is refused, the key is missing, the value is the empty string or parsing throws; otherwise exactly the parsed value |
| `LocalStorage.RemoveFromLocalStorage` | src/utils/local-storage.ts:31-38 | true unless removeItem throws; then the key is absent and every other key keeps its value |
| `LocalStorage.ClearLocalStorage` | src/utils/local-storage.ts:40-47 | true unless clear throws; then the store is empty |
| `LocalStorage.HasLocalStorageItem` | src/utils/local-storage.ts:49-61 | true exactly when access is allowed and the key is present, the empty string included |
| `LocalStorage.GetAllLocalStorageKeys` | src/utils/local-storage.ts:63-79 | the store's keys in index order 0..length-1, or [] when access is refused |
| `LocalStorage.GetLocalStorageSize` | src/utils/local-storage.ts:81-101 | the sum of key length plus value length over all entries (0 for an empty store), or 0 when access is refused |
| `LocalStorage.SaveThenGet` | src/utils/local-storage.ts:1-29 | with a JSON library whose stringify/parse round-trips, a saved value reads back equal to the value |
| `LocalStorage.EmptyItemPresentButNotLoaded` | src/utils/local-storage.ts:18-22 | a stored empty string counts as present for hasLocalStorageItem but reads as null |
| `LocalStorage.SavedKeysAreListed` | src/utils/local-storage.ts:63-79 | after saving under "a" and then "b", both are among the listed keys |
| `LocalStorage.SaveGetRemove` | src/utils/local-storage.ts:1-61 | on one store: a successful save reads back as the value and is present, and a successful remove makes it absent |
| `Filter.IsValidFilter` | src/constant/filter.ts:9-11 | accepts exactly the strings that some filter member stands for (the type guard is sound and complete) |
| `Filter.FilterValuesDistinct` | src/constant/filter.ts:1-5 | exactly three values, pairwise distinct |
| `Filter.MembersAreValid` | src/constant/filter.ts:9-11 | each of "all", "completed" and "pending" is accepted |
| `Filter.NearMissesAreRejected` | src/constant/filter.ts:10 | the comparison is exact and case-sensitive: "All", " all", "all " and "" are rejected |

## Left out

- Network, timers and abort: `fetch`, `setTimeout`, `clearTimeout` and
  `AbortController` are not executed. How fetch settles is a parameter, the
  timer's life is a ghost trace, and wall-clock time, async scheduling and
  concurrent calls are not modelled.
- Configuration: `API_CONFIG` lives in a file that is not part of this
  model. Its `timeout` and `baseURL` are the `ApiConfig` parameter.
- JSON: `JSON.stringify` and `JSON.parse` are function values. The save/load
  round trip assumes the usual round trip (`Lawful`). That `JSON.stringify`
  returns undefined for undefined or a function is not modelled: `setItem`
  would then store "undefined", and `post` would send no body.
- Request options: only `timeout`, `baseURL`, `method`, `headers` (as a
  plain string record) and `body` are modelled. Other request fields pass
  through and are not modelled. A caller's own `signal` is always replaced
  by the wrapper's.
- Headers given as a `Headers` object or as tuples are not modelled. Header
  names are not case-folded. A caller header spelled `content-type` sits
  beside the injected `Content-Type` in the merged record. How fetch
  combines the two is not modelled.
- Responses: only the status and the body text are modelled. Other members
  of `Response`, and failures while streaming the body, are left out.
- GetLocalStorageSize: string lengths are counted in Dafny characters
  (Unicode scalar values), whereas JavaScript counts UTF-16 code units; the
  two differ for characters outside the Basic Multilingual Plane.
- Storage: quota, access refusal and the order of `key(n)` are modelled as
  above. Origin scoping, storage events and changes by other tabs are left
  out. The quota is stated over the same key-plus-value length that
  `getLocalStorageSize` sums.
- `src/types/index.ts`, `src/constant/messages.ts` and `src/constant/storage.ts`
  hold only types and string tables.
- Serializer failures: a failing `JSON.stringify` is modelled as throwing a
  TypeError with a message. A `toJSON` method or a getter that throws makes
  `JSON.stringify` throw whatever it threw, and `post`/`put` then reject
  with that value; the model does not capture that value.
