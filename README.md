# SpaceX cargo client: REST pipeline, error normaliser and async-state reducers

This project models the core of a single-page application's client layer and proves properties of that model. The core has four parts:

- **Error normaliser** (`errors.dfy`, module `Errors`). `isError` and `errorWrapper` turn every failed request into one normalised error object (`IError`). The body of a failed response can be a Blob of a JSON type. Reading and parsing that Blob is an oracle carried inside the Blob value: it either parses to a value or fails with a message.
- **REST client** (`rest.dfy`, module `Rest`). This part covers:
  - `getAuthHeader`;
  - the configuration merge of `requestApi`;
  - the switch on the normalised error's `httpCode` (401, 406 and everything else);
  - the verb wrappers `get`, `post`, `put` and `del`.

  The transport is a parameter: a function from the final request configuration to a response or a raw failure. Three things are explicit state: the cookie jar and localStorage (string maps), the module-level `refreshTokenPromise` (an optional handle whose eventual result is part of the state), and the log of `window.location.assign` calls. `Rest.Request` is the value-level specification. `Rest.RestClient` is a class holding that state, and its methods are proved equal to the specification.
- **Async-state reducers** (`redux.dfy`, module `Redux`). This part covers `getAsyncData`, `getInitialAsyncData`, the three default handlers of `asyncDefaultHandlers`, and the reducer combinators `itemCustomReducer`, `asyncItemCustomReducer` and `asyncItemDefaultReducerGenerator`. A reducer call returns the next state or throws. The `TypeError`s that JavaScript raises for a property read on `null` are modelled as throws.
- **Cargo feature** (`cargo.dfy`, module `CargoDetails`). This part covers the action types, the handler table of `CargoDetailsReducer` with its `searchCargo` handler, and the selector `getCargoDetailById`.

The supporting modules model the JavaScript built-ins the core relies on:

- `Wrappers` provides `Option`.
- `Json` models JavaScript values, truthiness, property reads, object spread and `String()`.
- `Strings` models `toLowerCase` and `indexOf`.
- `Arrays` models `find` (through `FindIndex`, the first-match search behind it) and `filter`, with lemmas about filtering.

Three modelling conventions apply throughout:

- `None` stands for both `null` and `undefined` wherever the code does not tell them apart.
- Integers are unbounded. The only numbers the core computes are HTTP status codes.
- `Redux.AsyncDefaultHandlers` and `Redux.GetAsyncData` build records. What their parts do is stated by `Redux.Started`, `Redux.Done`, `Redux.Failed` and `Redux.EmptyAsyncData`.

In two places the code does not do what its comments or its callers would lead one to expect; the model follows the code:

- A 401 response, a 406 response with no refresh handle, and a refresh that fails all leave the caller's promise unsettled. The code neither resolves nor rejects in those branches, although a caller would expect the promise to be rejected.
- A 406 response with no handle starts no refresh, although the branch's comment says the token should be refreshed. The assignment to `refreshTokenPromise` is commented out, so the handle is never created by the code. The refresh branch is therefore modelled for a handle that is already present in the state.

## Model

| member | source | states |
|---|---|---|
| Errors.IsError | src/utils/error.ts:13-15 | holds exactly for an object whose `message` and `code` fields are both present and truthy |
| Errors.ErrorWrapper | src/utils/error.ts:23-69 | every normalised error has `error` set to true and a numeric `httpCode` |
| Errors.TransportFailureNormalized | src/utils/error.ts:59-65 | with no response, `code` is the transport code or "UNKNOWN_ERROR" and the message is "Error.unknown"; `httpCode` is 408 exactly when the code is "ECONNABORTED" and is otherwise 400 |
| Errors.PlainBodyFallback | src/utils/error.ts:27-37 | a falsy body, or one that is neither error-shaped nor a JSON Blob, gives status text or "UNKNOWN_ERROR", status or 400, and "Error.unknown", with no other field |
| Errors.IsJsonBlob | src/utils/error.ts:39 | holds exactly for a Blob with a non-empty type whose lower-cased form contains "json" |
| Errors.DecodeFailureMessage | src/utils/error.ts:39-50 | a JSON Blob that fails to read or parse gives the default code and status with the thrown value's `message`, which may be `undefined` |
| Errors.DecodedPlainBody | src/utils/error.ts:39-57 | a JSON Blob that parses to a value that is not error-shaped gives the default error, and the parsed value is dropped |
| Errors.ServerManagedError | src/utils/error.ts:54-57 | an error-shaped body, given directly or parsed from a JSON Blob, is returned with all its other fields kept; `error` is forced to true and `httpCode` is the raw status, with no 400 fallback |
| Errors.OnlyJsonBlobsDecoded | src/utils/error.ts:39 | a Blob whose type does not contain "json" (ignoring case) is never decoded, so the default error results |
| Errors.NormalizedPassesGuard | src/utils/error.ts:23-69 | a normalised error passes `isError` again if and only if it does not come from a JSON Blob that failed with a falsy (empty or undefined) message |
| Errors.ApplicationJsonIsJsonBlob | src/utils/error.ts:39 | a Blob of type "application/json" is read and parsed, whatever its content |
| Errors.JsonBlobExample | src/utils/error.ts:39-57 | a JSON Blob of type "application/json" holding code "X" and message "Y" normalises to exactly that error with `error: true` and the status |
| Strings.IndexOf | src/utils/error.ts:39 | the index of the first occurrence of the needle, or -1 exactly when there is none |
| Strings.ContainsIff | src/utils/error.ts:39 | `indexOf(...) !== -1` holds exactly when an occurrence exists; every string contains the empty string |
| Strings.ToLower | src/spacex/redux/ducks/cargoDetails.ts:68 | lower-casing keeps the length and maps each character on its own |
| Arrays.FindIndex | src/utils/redux.ts:183 | the first-match search behind `find`: the first index whose element satisfies the predicate, or none exactly when no element does |
| Arrays.Find | src/spacex/redux/ducks/cargoDetails.ts:120 | the first element satisfying the predicate, or none exactly when no element does |
| Arrays.Filter | src/spacex/redux/ducks/cargoDetails.ts:67-69 | filtering never lengthens the list, and every kept element satisfies the predicate |
| Arrays.FilterCounts | src/spacex/redux/ducks/cargoDetails.ts:67-69 | filtering keeps every occurrence of an element that satisfies the predicate and removes every other one |
| Arrays.FilterIsSubsequence | src/spacex/redux/ducks/cargoDetails.ts:67-69 | filtering gives an order-preserving sublist of its input |
| Rest.AuthHeader | src/utils/rest.ts:30-32 | non-empty exactly when the access token cookie is set and non-empty, and then it is "Bearer " followed by that token |
| Rest.DefaultConfig | src/utils/rest.ts:75-79 | the default configuration holds only headers, and those hold only the fresh Authorization header |
| Rest.MergeConfig | src/utils/rest.ts:81-99 | the merged keys are the common, caller and reserved keys; caller fields override common ones outside the reserved keys; data, method and url are the call's; Authorization is the fresh header |
| Rest.MergePrecedence | src/utils/rest.ts:81-99 | caller fields override `commonRestConfig`; headers, cache, data, method and url are written last; Authorization is always the fresh header; the caller's other headers and cache options are kept |
| Rest.Overrides | src/utils/rest.ts:84-98 | the merge writes exactly the keys headers, cache, data, method and url |
| Rest.ExcludeFilterChoice | src/utils/rest.ts:88-95 | by default the exclude filter excludes the request exactly when the caller gave no cache option; fields of the caller's `cache.exclude` override it |
| Rest.CachePresetsAreCached | src/consts.ts:9-15 | a request using either cache preset is not excluded by default and carries that preset's `maxAge` |
| Rest.OmittedConfigIsEmpty | src/utils/rest.ts:75-99 | passing no configuration merges to the same result as passing `{}` |
| Rest.RemergeOnlyRefreshesAuthorization | src/utils/rest.ts:139 | merging the already merged configuration again, as the replay does, changes only the Authorization header |
| Rest.Request | src/utils/rest.ts:101-156 | a request rejects only with an error flagged `error: true`; it redirects at most once and only to "/"; it never stores a new refresh handle; it removes no cookie or localStorage entry except the two tokens, and the only cookie it adds or changes is the access token |
| Rest.HandleFailure | src/utils/rest.ts:108-154 | the `httpCode` switch keeps the same guarantees as `Rest.Request` |
| Rest.RequestConfig | src/utils/rest.ts:75-99 | the configuration every dispatch and every replay receives: the session's Authorization header, the call's data, method and url, the caller's own fields, or with no configuration the same as `{}` |
| Rest.AfterRefresh | src/utils/rest.ts:131-150 | the refresh outcome (replay, rejection or failure) keeps the same guarantees as `Rest.Request` |
| Rest.CookieValue | src/utils/rest.ts:136 | the stored token is a string value as it is; a non-negative number is stored as its decimal digits |
| Rest.RefreshFailed | src/utils/rest.ts:144-150 | the refresh catch block drops the handle, removes only the access token from cookies and localStorage, and appends one redirect to "/" |
| Rest.SuccessResolves | src/utils/rest.ts:102-104 | a successful dispatch resolves with the response and leaves the session unchanged |
| Rest.UnauthorizedEndsSession | src/utils/rest.ts:109-116 | on 401 both tokens leave localStorage and the cookies, one redirect to "/" is recorded, the handle is unchanged, and the promise never settles |
| Rest.NotAcceptableWithoutHandle | src/utils/rest.ts:117-129 | on 406 with no refresh handle the session ends exactly as on 401, and the handle stays empty |
| Rest.NotAcceptableRefreshed | src/utils/rest.ts:131-140 | on 406 with a refresh result that carries an access token, the token is stored in its cookie, the handle is dropped, and the request is replayed with a configuration that differs only in Authorization |
| Rest.NotAcceptableReplays | src/utils/rest.ts:117-140 | on 406 with a refresh result that carries an access token, the request equals its replay in the session holding the new token and no handle |
| Rest.FailedRequestIsHandled | src/utils/rest.ts:102-108 | a dispatch that fails goes to the `httpCode` switch with its normalised error |
| Rest.NotAcceptableConsultsHandle | src/utils/rest.ts:117-133 | on 406 with a fulfilled refresh handle the switch continues with the refresh result |
| Rest.RejectedHandleEndsRefresh | src/utils/rest.ts:131-150 | on 406 with a refresh handle that rejects, the switch ends in the refresh catch block with the promise unsettled |
| Rest.RefreshedTokenReplays | src/utils/rest.ts:135-140 | a refresh result carrying an access token stores it in its cookie, drops the handle and replays the request |
| Rest.NotAcceptableWithoutToken | src/utils/rest.ts:141-143 | on 406 with a refresh result that carries no access token, the request rejects with the normalised error and the session is unchanged |
| Rest.NotAcceptableRefreshRejected | src/utils/rest.ts:144-150 | on 406 with a refresh that fails, the handle is dropped, only the access token is removed, one redirect is recorded, and the promise never settles |
| Rest.OtherFailureRejects | src/utils/rest.ts:152-153 | any other `httpCode` rejects with the normalised error and changes nothing |
| Rest.NoHandleNoReplay | src/utils/rest.ts:117-139 | with no refresh handle the outcome depends only on the first dispatch, so there is no replay |
| Rest.BodyOf | src/utils/rest.ts:166-167 | a wrapper resolves with the response's `data` and rejects with the same error |
| Rest.VerbData | src/utils/rest.ts:165-203 | GET sends `{}` as data, DELETE sends `null`, and POST and PUT send the caller's body |
| Rest.RestClient.RemoveTokens | src/utils/rest.ts:111-114 | the loop removes every listed key from localStorage and from the cookies, and changes nothing else |
| Rest.RestClient.Redirect | src/utils/rest.ts:23-25 | appends one navigation to the log |
| Rest.RestClient.RequestApi | src/utils/rest.ts:71-157 | the new state and the outcome are exactly those of `Rest.Request` on the old state |
| Rest.RestClient.OnFailure | src/utils/rest.ts:105-154 | the new state and the outcome are exactly those of `Rest.HandleFailure` on the old state |
| Rest.RestClient.OnRefreshed | src/utils/rest.ts:131-143 | the new state and the outcome are exactly those of `Rest.AfterRefresh` on the old state |
| Rest.RestClient.OnRefreshFailed | src/utils/rest.ts:144-150 | drops the handle, removes the access token from storage and cookies, and redirects to "/" |
| Rest.RestClient.Get | src/utils/rest.ts:165-168 | the result is the GET request with `{}` as data, with only the body passed on |
| Rest.RestClient.Post | src/utils/rest.ts:177-180 | the result is the POST request with the caller's data, with only the body passed on |
| Rest.RestClient.Put | src/utils/rest.ts:189-192 | the result is the PUT request with the caller's data, with only the body passed on |
| Rest.RestClient.Del | src/utils/rest.ts:200-203 | the result is the DELETE request with `null` as data, with only the body passed on |
| Redux.GetAsyncData | src/utils/redux.ts:14-19 | the branch holds exactly the given data, meta, error and status; with no arguments it is empty and IDLE, as `Redux.EmptyAsyncData` states |
| Redux.GetInitialAsyncData | src/utils/redux.ts:25-26 | the given data and meta, no error, status IDLE |
| Redux.EmptyAsyncData | src/utils/redux.ts:14-26 | with no arguments, data, meta and error are all absent and the status is IDLE |
| Redux.Started | src/utils/redux.ts:73-76 | only the status changes, to PENDING |
| Redux.Done | src/utils/redux.ts:77-86 | throws exactly for a null payload; otherwise data and meta come from the payload's result (both absent when it is falsy), the error is cleared and the status is SUCCESS |
| Redux.DoneIgnoresPriorState | src/utils/redux.ts:77-86 | `done` gives the same answer from every state |
| Redux.Failed | src/utils/redux.ts:87-91 | throws exactly for a null payload; otherwise it stores the payload's error, sets ERROR, and leaves data and meta unchanged |
| Redux.AsyncDefaultHandlers | src/utils/redux.ts:71-93 | the record's started, done and failed handlers give the same results as `Redux.Started`, `Redux.Done` and `Redux.Failed` on every state and action |
| Redux.ApplyFirstMatching | src/utils/redux.ts:183-187 | applies the first handler in list order whose type matches the action, or returns the state unchanged when none matches |
| Redux.InitialItemState | src/utils/redux.ts:150 | the default state is the initial data when that is truthy, and `null` otherwise |
| Redux.ItemCustomReducer | src/utils/redux.ts:149-157 | applies the first matching handler to the given state or the default one, or returns that state unchanged |
| Redux.AsyncItemCustomReducer | src/utils/redux.ts:177-188 | applies the first matching handler to the given state or the initial async data, or returns that state unchanged |
| Redux.AsyncItemDefaultReducer | src/utils/redux.ts:105-124 | an unrelated action with no state gives the initial async data; a started, done or failed action never leaves the branch IDLE |
| Redux.DefaultReducerIsCustomReducer | src/utils/redux.ts:110-124 | the default reducer is equal to the custom reducer over the table of the three default handlers in the order started, done, failed |
| Redux.DefaultReducerKeepsConsistent | src/utils/redux.ts:105-124 | the default reducer never leaves an error on an IDLE or SUCCESS branch |
| CargoDetails.TypePrefix | src/spacex/redux/ducks/cargoDetails.ts:35 | the action creator factory puts the namespace and a slash before every type, and nothing for an empty namespace |
| CargoDetails.ActionType | src/spacex/redux/ducks/cargoDetails.ts:35-41 | the type of every action of the feature is the namespace prefix followed by its base name: "CARGO_DETAILS_STARTED", "CARGO_DETAILS_DONE" and "CARGO_DETAILS_FAILED" for the asynchronous creator, "SEARCH_CARGO" for the search |
| CargoDetails.CargoDetailsCreators | src/spacex/redux/ducks/cargoDetails.ts:38-41 | the asynchronous creator `cargoDetails` has the started, done and failed types, which are pairwise different |
| CargoDetails.ActionTypesDistinct | src/spacex/redux/ducks/cargoDetails.ts:38-41 | the four action types are pairwise different for every namespace |
| CargoDetails.InitialState | src/spacex/redux/ducks/cargoDetails.ts:47 | the initial branch is empty and IDLE |
| CargoDetails.Matches | src/spacex/redux/ducks/cargoDetails.ts:68 | a shipment matches exactly when the lower-cased query occurs somewhere in its lower-cased name |
| CargoDetails.MatcherFor | src/spacex/redux/ducks/cargoDetails.ts:67-69 | the filter callback keeps a shipment exactly when it matches the query |
| CargoDetails.SearchFilter | src/spacex/redux/ducks/cargoDetails.ts:67-69 | every kept shipment's lower-cased name contains the lower-cased query, and the list never grows |
| CargoDetails.SearchCargo | src/spacex/redux/ducks/cargoDetails.ts:65-74 | in the model the handler throws exactly when data is null, or when the list is non-empty and the payload is not a string; otherwise only `data` is replaced, by the filtered list |
| CargoDetails.SearchKeepsExactlyMatches | src/spacex/redux/ducks/cargoDetails.ts:67-69 | a search gives an order-preserving sublist that keeps every occurrence of a matching shipment and drops every other one |
| CargoDetails.EmptyQueryMatches | src/spacex/redux/ducks/cargoDetails.ts:68 | every shipment matches the empty query |
| CargoDetails.EmptyQueryKeepsAll | src/spacex/redux/ducks/cargoDetails.ts:67-69 | searching for the empty string keeps the whole list |
| CargoDetails.SearchIdempotent | src/spacex/redux/ducks/cargoDetails.ts:67-69 | repeating a search changes nothing |
| CargoDetails.SearchesCommute | src/spacex/redux/ducks/cargoDetails.ts:67-69 | two searches in a row give the same list in either order |
| CargoDetails.CargoHandlers | src/spacex/redux/ducks/cargoDetails.ts:50-76 | the table lists started, done, failed and search in that order, with the three default handlers and the search handler |
| CargoDetails.CargoDetailsReducer | src/spacex/redux/ducks/cargoDetails.ts:50-76 | started, done, failed and search each go to their handler, applied to the given state or the initial branch, and any other action returns that state unchanged |
| CargoDetails.ReducerExtendsDefault | src/spacex/redux/ducks/cargoDetails.ts:50-62 | on every action whose type is not the search type, the reducer gives the same result as the default async reducer of `cargoDetails` |
| CargoDetails.ReducerKeepsWellFormed | src/spacex/redux/ducks/cargoDetails.ts:50-76 | one reducer call keeps the branch invariant: no error on IDLE or SUCCESS, and no list while IDLE |
| CargoDetails.RunKeepsWellFormed | src/spacex/redux/ducks/cargoDetails.ts:50-76 | every state reached by applying a sequence of actions to a well-formed branch is well formed |
| CargoDetails.SearchBeforeLoadThrows | src/spacex/redux/ducks/cargoDetails.ts:67 | a search before any list was loaded throws |
| CargoDetails.GetCargoDetailById | src/spacex/redux/ducks/cargoDetails.ts:118-121 | `{}` exactly when there is no list; `undefined` exactly when no shipment has the id; otherwise the first shipment with the id |
| CargoDetails.FoundAfterSearch | src/spacex/redux/ducks/cargoDetails.ts:118-121 | a shipment found by id after a search was in the list before the search and matches the query |

## Left out

- The transport is a parameter standing in for axios, its timeout, and the cache adapter with its localforage store. Cache freshness and `maxAge` handling happen inside those libraries. Only the configuration handed to them is modelled.
- The decoding of a Blob body is an oracle. `blobReader` and `JSON.parse` are foreign calls, and their result is part of the Blob value: a parsed value, or the `message` property of what was thrown.
- Concurrency is left out: interleaving of requests, the Promise machinery, and the single-flight sharing of the refresh handle. The handle is a sequential optional value. The code never creates one, because that assignment is commented out.
- Rest.Request: the replay is modelled after the handle has been dropped. The code drops it right after starting the replay, before the replay's own failure handling can run.
- `COOKIES_PARAMS` and the cookie attributes it passes are left out; they depend only on `window.location.origin`. Cookies are keyed by name alone. So the model does not capture that the refresh catch block (src/utils/rest.ts:148) removes the access token without those attributes: where they set a domain, the cookie stored with that domain at src/utils/rest.ts:136 would stay in the browser, while the model removes it, and `Rest.RefreshFailed` and `Rest.NotAcceptableRefreshRejected` state that it is gone. `logError` only writes to the console.
- Rest.RestClient.constructor: it does not model the creation of the cache store or the axios instance.
- CargoDetails.Matches: it models `String.search` as plain substring containment. The code passes the query to `search`, which reads it as a regular expression.
- CargoDetails.SearchCargo: on a non-empty list, a query that is not a valid regular expression, such as "(", makes `search` throw a SyntaxError at src/spacex/redux/ducks/cargoDetails.ts:68. The model does not throw there; it filters by substring containment.
- Strings.ToLower: it lower-cases ASCII letters only. Unicode case mapping is left out.
- Key order is left out. Objects are maps, so the order of spread fields is not modelled.
- Rest.CookieValue: it assumes js-cookie stores `String(v)` for a non-string value; the library's own conversion of such values is not part of this model.
- Numbers are integers. NaN, floating point and spreading a primitive string into an object are left out.
- CargoDetails.CargoDetail: every field is assumed to be a string, as the declared type says.
- Handlers are matched by type string only, as `isType` does. The `typescript-fsa` checks for duplicate types are left out.
- The namespace prefix of action types is a parameter. `getDuckActionNamespace` is not part of this model.
- The `getCargoDetailsBranch` selector is left out; it only projects the branch out of the state.
- The sagas, the `details` service, React components, routes, store setup and the endpoint table are left out as wiring.
