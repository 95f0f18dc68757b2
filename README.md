# A verified model of the `src/api2` request layer

This project models the TypeScript client library's request layer in Dafny.

- **The executor.** `makeRequest` turns a configuration (`baseUrl`, optional `token`, optional `externalToken`), a path and options into one HTTP request. It then classifies the outcome: a value, a `NetworkError` or an `ApiResponseError`.
- **The base client.** `ApiClient` has verb methods that fix the HTTP method and forward the client's configuration object.
- **The domain clients.** These are runtimes, assignments, and the free functions of `iam/auth.ts`.
- **The composite clients.** `SpacerClient` and `DatalayerClient` share one configuration object by reference and update it in place.
- **The name helpers** of `models/utils.ts`.

The network is a parameter. `fetch` maps the request descriptor sent to an `Outcome`: either the transport threw, or a response with status, status text and body text arrived. `JSON.parse` is a parameter `string -> Option<Json>` (None where it throws), and `JSON.stringify` is a parameter `Json -> string`.

The modules are:

- `Options`: the option type.
- `Js`: JSON values, JavaScript truthiness, `String()`, property lookup and assignment on records.
- `Utf8`: UTF-8 encoding and decoding, with the round trip proved.
- `FormUrlencoded`: the `application/x-www-form-urlencoded` serializer and parser of sections 5.1 and 5.2 of the WHATWG URL Standard, as `URLSearchParams` uses them. Parsing a serialization gives back the pairs.
- `Headers`: the Fetch Standard header list.
  - Names are compared case-insensitively.
  - `set` replaces the first match and drops the rest, or appends.
  - `get` joins the values.
- `Config`: the configuration object is a class, a heap cell. `Object.assign` of a `Partial<RequestConfig>` is a method on it, and the spread copy is another.
- `Base`: `makeRequest` as a method proved equal to a specification function (`BuildRequest` followed by `Classify`), the error classes, and `ApiClient`.
- `Runtimes`, `Auth`, `Assignments`: the endpoints. Each returns a `Call`, which holds the configuration reference, the path and the options. `Describe` gives the request a call sends with the values the configuration holds at that moment.
- `Spacer`, `Datalayer`: the composite clients, their updates, copies and factories.
- `ModelUtils`: `asArray`, `asDisplayName`, `namesAsInitials`, with JavaScript's `trim`.

Four facts about the code that the model states as they are:

- **Token headers overwrite the caller's.** `Authorization` and `X-External-Token` replace a caller-supplied value whenever the token is non-empty (`src/api2/base.ts:91-97`). Only `Accept` and `Content-Type` are set solely when absent (`src/api2/base.ts:83-89`, `Base.HeaderRules`).
- **A caller's `Authorization` survives when there is no token.** The headers start from the caller's (`src/api2/base.ts:81`), and `Authorization` is set only for a non-empty token (`src/api2/base.ts:91-93`).
- **`baseUrl` is not checked.** The URL is the plain concatenation of `baseUrl`, path and query (`src/api2/base.ts:79`), and neither the constructors nor the factories inspect it (`src/api2/index.ts:65-69`, `src/api2/index.ts:90-99`), so no member requires it.
- **Only the spacer client's update is called.** `DatalayerClient.updateConfig` assigns the partial into its own object and then calls only the spacer client's `updateConfig` (`src/api2/index.ts:74-76`). The runtimes client sees the change because it holds the same object.

## Model

| member | source | states |
|---|---|---|
| Base.QueryString | src/api2/base.ts:63-72 | the query string is empty exactly when the record has no entries, and otherwise starts with `?` |
| Base.QueryStringRoundTrip | src/api2/base.ts:66-71 | a non-empty query string parses back (URL Standard 5.1) to the record's entries in insertion order, each value passed through `String()` |
| Base.ObjectToQueryString | src/api2/base.ts:63-72 | the `forEach` loop that appends each entry and then serializes gives exactly the query string of the record |
| Base.BuildRequest | src/api2/base.ts:79-108 | the URL is `baseUrl ++ path ++ qs`, with no query part when the query is absent or empty; the method is the option's or `GET`; a body is sent exactly when it is truthy, as its JSON text; credentials, mode and cache are `include`, `cors`, `no-store` |
| Base.HeaderRules | src/api2/base.ts:81-97 | for every header name: `Accept` is the caller's when present, else `application/json`; `Content-Type` is the caller's when present, else `application/json` only with a truthy body; `Authorization` is `Bearer <token>` whenever the token is non-empty, whatever the caller passed, else the caller's; `X-External-Token` likewise; any other header is the caller's |
| Base.CreateApiResponseError | src/api2/base.ts:14-36 | the error always carries the response; with a parseable non-null body the message is `String()` of the body's truthy `message`, or `Request failed: <status> <statusText>` when it is falsy, `errors` and `warnings` default to `[]` and `traceback` is the body's; when the body cannot be read, or `String()` of a truthy message throws in the constructor, the `catch` gives the fallback message, empty lists and no traceback |
| Base.MessageConversionThrows | src/api2/base.ts:14-36 | a `message` object with its own `toString` entry, or an array holding one, gives the fallback error, with empty `errors` and no traceback whatever the body holds |
| Base.ErrorMessageFromBody | src/api2/base.ts:20-27 | a non-empty string `message` in the error body becomes the error's message |
| Base.Classify | src/api2/base.ts:101-120 | the outcome decides the result: a transport failure, and only it, gives a `NetworkError` with the original message and stack; a non-ok status (outside 200-299), and only it, gives exactly the error `ApiResponseError.create` builds from that response; an ok status gives `{}` for empty text, the parsed value otherwise, and a parse error (neither error class) exactly when non-empty text does not parse |
| Base.MakeRequest | src/api2/base.ts:74-121 | the step-by-step executor, with its conditional header `set`s and query loop, settles exactly as the outcome of `fetch` on `BuildRequest` classified by `Classify` |
| Base.VerbRequests | src/api2/base.ts:123-169 | every verb forwards the client's own configuration object; `get` and `delete` send their method with no body; `post`, `put` and `patch` send their method, the JSON of a truthy body, and `Content-Type: application/json` exactly then |
| Headers.GetSet | src/api2/base.ts:83-97 | after `set(n, v)`, reading any name equal to `n` up to case gives `v`, and every other name reads as before |
| Headers.HasGet | src/api2/base.ts:83-87 | `has(n)` holds exactly when `get(n)` gives a value |
| Headers.GetCaseInsensitive | src/api2/base.ts:83-89 | names equal up to ASCII case read the same values |
| FormUrlencoded.ParseSerialize | src/api2/base.ts:66-70 | parsing the serialization of any list of string pairs gives back the same pairs in the same order |
| FormUrlencoded.SerializeEmpty | src/api2/base.ts:70-71 | the serialization is empty exactly when there are no pairs, so an empty record never yields `?` |
| Utf8.DecodeEncode | src/api2/base.ts:66-70 | UTF-8 decoding inverts the encoding the serializer applies to every name and value |
| FormUrlencoded.SerializeUnreserved | src/api2/runtimes/runtimes.ts:141 | pairs made only of unreserved characters serialize unescaped as `name=value` joined by `&` |
| Js.Assign | src/api2/iam/auth.ts:55-57 | property assignment keeps an existing key in its place with the new value, appends a new key at the end, and keeps keys distinct |
| Js.Lookup | src/api2/base.ts:21 | reading a property of a parsed object gives a value exactly when the key is present, and that value is the one of the key's last entry, as `JSON.parse` keeps the last of duplicate keys |
| Js.IntToString | src/api2/base.ts:27 | the status in the fallback message is its decimal numeral: digits denoting the status with no leading zero, and a leading `-` exactly when negative |
| Config.Merge | src/api2/spacer/spacer.ts:58-60 | after `Object.assign`, each key present in the partial holds the partial's value (even `undefined`), and each absent key keeps its value |
| Config.MergeNothing | src/api2/spacer/spacer.ts:58-60 | merging an empty partial changes no field |
| Config.MergeIdempotent | src/api2/index.ts:74-76 | applying the same partial twice equals applying it once |
| Config.RequestConfig.Assign | src/api2/spacer/spacer.ts:58-60 | the object is updated in place to the merge of its old values with the partial |
| Config.RequestConfig.Copy | src/api2/spacer/spacer.ts:65-67 | the spread copy is a new object with the same field values |
| Spacer.SpacerClient.constructor | src/api2/spacer/spacer.ts:45-53 | the client keeps the object it is given, unchanged and uncopied, and all seven sub-clients hold that same object |
| Spacer.SpacerClient.UpdateConfig | src/api2/spacer/spacer.ts:58-60 | the shared object, and only it, becomes the merge of its old values with the partial, and the sharing is kept |
| Spacer.UpdateReachesSubClients | src/api2/spacer/spacer.ts:45-60 | after an update each of the seven sub-clients reads the merged values |
| Spacer.UpdateWithNothing | src/api2/spacer/spacer.ts:58-60 | an update with an empty partial leaves every field as it was |
| Spacer.SpacerClient.GetConfig | src/api2/spacer/spacer.ts:65-67 | `getConfig` returns a fresh object, so not the internal one, equal field by field |
| Datalayer.DatalayerClient.constructor | src/api2/index.ts:65-69 | `config`, the runtimes client's configuration and the spacer client's (and its seven sub-clients') are the argument object itself, unchanged |
| Datalayer.DatalayerClient.UpdateConfig | src/api2/index.ts:74-76 | after the two in-place assignments the shared object holds one merge of the partial; the runtimes client, never called, reads the new values; nothing is reallocated |
| Datalayer.DatalayerClient.GetConfig | src/api2/index.ts:82-84 | a fresh object equal field by field to the internal configuration |
| Datalayer.MutateCopy | src/api2/index.ts:82-84 | changing the copy `getConfig` returned leaves the client's configuration unchanged |
| Datalayer.CreateSpacerClient | src/api2/index.ts:90-92 | the factory builds a new spacer client over the very object given, without checking it |
| Datalayer.CreateDatalayerClient | src/api2/index.ts:97-99 | the factory builds a new composite client over the very object given, with no check of `baseUrl` |
| Datalayer.TokenUpdateScenario | src/api2/index.ts:65-76 | with `{ baseUrl: "https://x", token: "abc" }`, listing environments is `GET https://x/api/runtimes/v1/environments` with no body, `Authorization: Bearer abc` and `Accept: application/json`; after `updateConfig({ token: "t2" })` the same call carries `Bearer t2` |
| Runtimes.EnvironmentsRequest | src/api2/runtimes/runtimes.ts:24-26 | `getEnvironments` is a `GET` of `baseUrl ++ /api/runtimes/v1/environments` with no body or query, `Accept: application/json`, and `Bearer <token>` whenever the token is non-empty |
| Runtimes.DeleteRuntimeRequest | src/api2/runtimes/runtimes.ts:61-67 | `deleteRuntime` is a bodiless `DELETE` of the pod's path; the URL has `?reason=…` (the serialized reason) when the reason is non-empty and no `?` at all otherwise |
| Runtimes.ReasonSuffix | src/api2/runtimes/runtimes.ts:62-66 | the query part is `?` and the serialized reason exactly when the reason is non-empty, and empty otherwise |
| Runtimes.DeleteRuntimeReasonRoundTrip | src/api2/runtimes/runtimes.ts:61-67 | the reason query parses back to the single pair `reason`, the given reason |
| Runtimes.PodNameVerbatim | src/api2/runtimes/runtimes.ts:50-80 | `getRuntime`, `deleteRuntime` without reason and `updateRuntime` use `baseUrl ++ /api/runtimes/v1/runtimes/ ++ podName`, the pod name unescaped |
| Runtimes.SnapshotAndRuntimeBodies | src/api2/runtimes/runtimes.ts:31-132 | `createRuntime` and `createSnapshot` POST the request unchanged; `updateRuntime` PUTs it; `updateSnapshot` PATCHes it to the snapshot's path; `deleteSnapshot` is a `DELETE` with neither body nor query |
| Runtimes.ReadRequests | src/api2/runtimes/runtimes.ts:43-149 | `getRuntimes`, `getSnapshots`, `getSnapshot` and `ping` are `GET`s of `baseUrl` followed by their paths (the snapshot id verbatim), with no body and no query |
| Runtimes.DownloadUrlQuery | src/api2/runtimes/runtimes.ts:137-142 | the download URL, built from the argument configuration, is `baseUrl ++ /api/runtimes/v1/runtime-snapshots/ ++ id ++ ?` followed by the form-urlencoded `download=1&token=<token or "">`, which parses back to those two pairs whenever the token needs no escaping |
| Runtimes.DownloadPairsSerialize | src/api2/runtimes/runtimes.ts:141 | the unescaped template equals the standard serialization of the two pairs for a token of unreserved characters |
| Auth.GetOAuth2AuthzUrl | src/api2/iam/auth.ts:49-63 | the query built by in-place assignment is exactly the reference query: `provider`, then `redirect_uri` when non-empty, then `state` when non-empty; no method, body or headers are given |
| Auth.AuthzQueryKeys | src/api2/iam/auth.ts:55-57 | the query always starts with `provider`, holds `redirect_uri` exactly when that argument is non-empty and `state` exactly when that one is, in that order and each once |
| Auth.AuthzUrlRequest | src/api2/iam/auth.ts:58-62 | the call is a bodiless `GET` whose URL carries the query, which parses back to its entries |
| Auth.GetOAuth2AuthzUrlForLink | src/api2/iam/auth.ts:68-80 | the query built in place is `provider`, then `redirect_uri` when non-empty |
| Auth.AuthzLinkQueryKeys | src/api2/iam/auth.ts:73-74 | the linking query holds the provider first, `redirect_uri` exactly when given, and never `state` |
| Auth.SessionRequests | src/api2/iam/auth.ts:35-44 | `logout` and `checkAuth` send `GET` (the default) with neither body nor query |
| Auth.MfaRequests | src/api2/iam/auth.ts:85-113 | setup, validate and remove use `PUT`, `POST` and `DELETE` on `/api/iam/v1/mfa`; only validation sends a body |
| Auth.ConfirmPasswordResetRequest | src/api2/iam/auth.ts:144-158 | a `PUT` of `/api/iam/v1/password/confirm/users/<handle>/tokens/<token>` with both inserted verbatim and the request as body |
| Auth.LoginRequest | src/api2/iam/auth.ts:22-30 | `login` POSTs the request unchanged to `/api/iam/v1/login` |
| Auth.JoinWithInviteRequest | src/api2/iam/auth.ts:163-171 | `joinWithInvite` POSTs the request unchanged to `/api/iam/v1/join/invites/token` |
| Auth.PasswordRequests | src/api2/iam/auth.ts:118-139 | the reset request PUTs to `/api/iam/v1/password`, the token request POSTs to `/api/iam/v1/password/token`, both with the request as body |
| Assignments.ResetBodyTruthy | src/api2/spacer/assignments.ts:62 | `request \|\| {}` is always truthy: the request when truthy, `{}` otherwise |
| Assignments.ResetAssignmentRequest | src/api2/spacer/assignments.ts:56-64 | a reset always POSTs a JSON body to `/api/spacer/v1/assignments/<id>/reset`: the request unchanged when given, `{}` when not |
| Assignments.ResetAssignmentContentType | src/api2/spacer/assignments.ts:56-64 | a reset always carries `Content-Type: application/json` |
| Assignments.AssignmentRequests | src/api2/spacer/assignments.ts:19-51 | `createAssignment` POSTs to `/api/spacer/v1/assignments`, `getAssignment` GETs `/api/spacer/v1/assignments/<id>` without a body, `gradeAssignment` PUTs the request to `…/<id>/students/<studentId>/grade` |
| ModelUtils.AsArrayCases | src/api2/models/utils.ts:8-13 | an array is returned unchanged, anything else wrapped as a one-element array, and applying it twice is applying it once |
| ModelUtils.DisplayNameCases | src/api2/models/utils.ts:15-21 | both names non-empty give `given ␣ family`; an empty family gives `given` with no trailing space; an empty given name gives the family name, or `""` for null or undefined |
| ModelUtils.DisplayNameSplits | src/api2/models/utils.ts:15-21 | a full display name splits back into its two names at its first space when the given name has none |
| ModelUtils.Trim | src/api2/models/utils.ts:26 | `trim` gives a contiguous slice of its input with only white space outside it, no white space at either end, and nothing exactly when the input is all white space |
| ModelUtils.NamesAsInitials | src/api2/models/utils.ts:23-27 | under ASCII uppercasing (see ModelUtils.UpperChar under Left out), the initials have at most two characters |
| ModelUtils.InitialsBoth | src/api2/models/utils.ts:23-27 | two names with non-blank first characters give both, uppercased |
| ModelUtils.InitialsNone | src/api2/models/utils.ts:23-27 | two empty names give `""` |
| ModelUtils.InitialsOne | src/api2/models/utils.ts:23-27 | with exactly one name empty, the result is the other's first character uppercased, or `""` when that character is white space |

## Left out

- The network, `async`/`await` and the promise machinery. A call's transport outcome is the parameter `fetch`, and its settling is the `Settled` value. An aborted call is a `TransportFail` outcome. The `AbortSignal` option is not modelled.
- The `console.error(traceback)` call in `ApiResponseError.create`: it is logging only.
- The `name` properties of the two error classes. The two kinds are told apart by the constructors of `ApiError`.
- `JSON.parse` and `JSON.stringify` internals: they are parameters. `stringify` is total, since every body in the model is a JSON value.
- Numbers are integers. Floating-point values and their `String()` forms are not modelled.
- `Object.entries` order is insertion order. JavaScript lists integer-like keys first; that reordering is not modelled.
- `Headers` name and value validation and value normalisation: any string is accepted as a name or a value.
- `FormUrlencoded.Parse`: it returns None on invalid UTF-8, where the URL Standard substitutes U+FFFD. The round trip never meets that case.
- ModelUtils.UpperChar: uppercases ASCII letters only, because `toLocaleUpperCase` is locale-dependent. It can also change the length (ß becomes SS).
- ModelUtils.Initial: takes the first Unicode scalar value, where `charAt(0)` takes the first UTF-16 code unit. They differ for characters outside the Basic Multilingual Plane.
- ModelUtils.AsArray: works on JSON values, so `asArray(undefined)` is not modelled.
- Config.Merge: a partial whose `baseUrl` key is present but holds `undefined` is not expressible, because `baseUrl` is a required string.
- `newUlid`: it calls the foreign `ulid` library.
- The endpoint tables with no rule beyond a literal path and verb: `iam/users.ts`, `iam/organizations.ts`, `iam/teams.ts`, `iam/tokens.ts`, `iam/secrets.ts`, `iam/usage.ts`, `iam/datasources.ts`, `iam/accounts.ts`, `iam/proxy.ts`, `spacer/notebooks.ts`, `spacer/documents.ts`, `spacer/exercises.ts`, `spacer/spaces.ts`, `spacer/courses.ts` and `spacer/datasets.ts`. The spacer sub-clients other than assignments are plain `ApiClient` objects here. `ApiClient` and `Base.VerbRequests` cover what their calls do.
- `src/api2/types.ts` (declarations only) and the re-exports of `index.ts` and `spacer/index.ts`.
- The Python package (`datalayer_core`): it is outside the request layer.
