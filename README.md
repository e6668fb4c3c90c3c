# Node telemetry pipeline of the cluster nodes view

This project is a Dafny model of the node-fetch pipeline of the `Cluster` view in the
pullpiri dashboard (`src/components/Cluster.tsx`). It covers four parts:

- **Endpoint construction.** The configured settings-service base URL loses its trailing
  slashes and gets `/api/v1/nodes` appended. With no base URL the endpoint is the relative
  `/api/v1/nodes` (module `Endpoint`).
- **Ordered fallback fetch.** `fetchNodes` tries `/api/v1/metrics/nodes`, then
  `/api/v1/nodes`, and keeps the first response that is 2xx and parses. Only when both fail
  does it ask the absolute endpoint. If that also fails, the state triple becomes an error
  (modules `NodeFetch` and `ClusterState`).
- **Shape check and field coercion.** The payload is accepted as an array, or as an object
  whose `nodes` property is an array. Anything else is a shape error. An empty list is a
  quiet non-success. Each record of a non-empty list keeps its fields, and its five usage
  fields are coerced with `typeof v === "number" ? v : Number(v) || 0` (module `Normalize`).
- **Display.** The stored records become table rows, with first-truthy fallbacks for each
  column. The search box keeps the rows whose lower-cased name contains the lower-cased
  term. The progress bars clamp usage into [0, 100] (module `Display`).

JavaScript values are a `Json` datatype. NaN is never stored: a conversion that gives NaN
is `None` in an `Option<Num>`. `Num` also has the two infinities (module `JsValues`).

The component state (`nodesDataToUse`, `nodesFetchSuccess`, `nodesFetchError`) is the class
`ClusterState.NodesPanel`. Its method `FetchNodes` updates those fields step by step.
`FetchNodes` is proved against the function `NextView`, and the lemmas about `NextView`
carry the properties.

Three things are inputs rather than modelled I/O:
- The network is a function from (request number within the tick, URL) to a response. A
  response is a transport failure, or a status with a body that parses or does not.
- JavaScript's string-to-number conversion is a parameter `parse`.
- The base URL is an `Option<string>`.

Several behaviours of the code are not what a reader might expect. The model follows the code:

- Without a configured base URL, the absolute stage does not disappear. The endpoint is then
  `/api/v1/nodes`, which is never empty, so the `if (!endpoint)` guard cannot fire. After
  both relative candidates fail, `/api/v1/nodes` is requested a second time
  (`AcquireWithoutBaseUrl`, `TickFromConfiguration`).
- When everything fails, the error text is always the absolute request's error. It is never
  the last relative one, because the absolute stage always runs and the thrown error is
  always truthy (`FetchFailureState`).
- `Number(v) || 0` only replaces NaN and 0. So `"Infinity"` stays infinite, `true` becomes
  1, and `["7"]` becomes 7. The result is never NaN, undefined or a string, but it is not
  always finite (`Normalize.Coerce`).
- A `null` element in a non-empty node list makes the normalizing `map` throw. The tick then
  ends with the error cleared, and the previous list and success flag are kept. A stale list
  stays on screen instead of being cleared (`StaleOnNullRecord`). The invariant that success
  holds exactly when the list is non-empty still holds (`NextViewConsistent`).
- Normalization does not rename fields. It keeps the raw record and rewrites five fields.
  The row names (`name`, `internalIP`, ...) and the storage fallbacks belong to the display
  mapping, and the storage columns are not coerced there.

## Model

| member | source | states |
|---|---|---|
| `JsValues.FirstTruthy` | src/components/Cluster.tsx:136-143 | an or-chain ending in a literal gives the first source when truthy, else the second when truthy, else the literal |
| `JsValues.Nullish` | src/components/Cluster.tsx:140-141 | the nullish fallback gives the default exactly for `null` and `undefined`, and the value otherwise |
| `JsValues.Decimal` | src/components/Cluster.tsx:59 | the status printed in `HTTP ${res.status}` is a non-empty string of decimal digits that spells the status, with no leading zero |
| `Endpoint.StripTrailingSlashes` | src/components/Cluster.tsx:45 | the result is a prefix of the URL that does not end in `/`, and only `/` characters were removed |
| `Endpoint.AbsoluteEndpoint` | src/components/Cluster.tsx:43-46 | the endpoint always ends with `/api/v1/nodes`, so it is never empty; with no base URL (absent or empty) it is exactly `/api/v1/nodes` |
| `Endpoint.AbsoluteEndpointShape` | src/components/Cluster.tsx:43-46 | with a base URL, the endpoint is the URL cut before its run of trailing slashes, followed by `/api/v1/nodes` |
| `Normalize.Classify` | src/components/Cluster.tsx:100-108 | a payload is a node list exactly when it is an array (used as is, whatever keys it has) or an object whose `nodes` is an array (that array); everything else, `null` included, is rejected |
| `Normalize.Coerce` | src/components/Cluster.tsx:113-117 | a number is kept; any other value becomes `Number(v)` unless that is NaN or 0, in which case it becomes 0; `undefined`, `null`, `false` and objects give 0 and `true` gives 1 |
| `Normalize.NormalizeRecord` | src/components/Cluster.tsx:111-118 | each of the five usage fields is present and holds the coerced number; every other own property of the spread record is unchanged; reading a field of `null` throws |
| `Normalize.NormalizeAll` | src/components/Cluster.tsx:110-118 | the map throws exactly when some element is `null`; otherwise the result has the input's length and order, element by element |
| `Normalize.NormalizeIdempotent` | src/components/Cluster.tsx:111-118 | normalizing an already normalized record gives it back unchanged |
| `NodeFetch.ErrorText` | src/components/Cluster.tsx:90 | the stored error text is the thrown error's message when it is non-empty, and otherwise what `String` of the error gives, its name |
| `NodeFetch.Attempt` | src/components/Cluster.tsx:57-60 | a request yields a payload exactly when it is answered with a 2xx status and a parseable body; a non-2xx status throws `HTTP <status>` |
| `NodeFetch.TryInOrderFirstSuccess` | src/components/Cluster.tsx:56-61 | a returned payload comes from the first candidate that succeeded; exactly the candidates up to it were requested, in order, and all before it failed |
| `NodeFetch.TryInOrderAllFailed` | src/components/Cluster.tsx:56-66 | the relative stage throws exactly when every candidate failed; then all were requested in order and "All relative node endpoints failed" is thrown |
| `NodeFetch.TryRelative` | src/components/Cluster.tsx:50-67 | the loop requests and returns exactly what the in-order candidate search prescribes |
| `NodeFetch.AcquireOrder` | src/components/Cluster.tsx:81-97 | the metrics path is asked first and the nodes path only after it failed; the absolute endpoint is asked only after both failed, and its outcome is then the tick's |
| `NodeFetch.AcquireWithoutBaseUrl` | src/components/Cluster.tsx:69-88 | with no base URL, and the repeated `/api/v1/nodes` request answered as the first was: a tick fails exactly when both relative candidates fail, and it then requests `/api/v1/nodes` twice and fails with that answer's error |
| `ClusterState.NodesPanel.constructor` | src/components/Cluster.tsx:38-40 | the initial state is no nodes, no success and no error, which is consistent |
| `ClusterState.NodesPanel.FetchNodes` | src/components/Cluster.tsx:48-125 | one tick updates the three fields to the successor state of the previous ones and records the requests it made |
| `ClusterState.NodesPanel.StorePayload` | src/components/Cluster.tsx:99-124 | after the error was cleared, the shape check, empty-list branch and normalization update the fields as the successor state prescribes |
| `ClusterState.NextViewConsistent` | src/components/Cluster.tsx:48-125 | every tick keeps success exactly when nodes are stored, an error only with no nodes, and every stored record normalized |
| `ClusterState.FetchFailureState` | src/components/Cluster.tsx:89-96 | when every request fails, the state becomes the absolute error's text, no success and no nodes, whatever it was before |
| `ClusterState.PayloadState` | src/components/Cluster.tsx:99-124 | a shape error sets its message with no nodes; an empty list gives no success and no error; a list without `null` gives its normalized records, in order, with success |
| `ClusterState.StaleOnNullRecord` | src/components/Cluster.tsx:110-119 | a `null` record clears the error and leaves the previous nodes and success flag unchanged |
| `ClusterState.TickFromConfiguration` | src/components/Cluster.tsx:43-97 | for every configuration, a tick whose relative candidates fail requests the configured endpoint third and takes its outcome |
| `Display.Rows` | src/components/Cluster.tsx:133-146 | no rows unless the last fetch succeeded; otherwise one row per stored record, in order |
| `Display.RowOfNormalized` | src/components/Cluster.tsx:134-143 | on a normalized record the name is the raw `node_name`; the CPU and memory columns are the coerced numbers; the IP is `ip` when truthy, else `internal_ip` when truthy, else `""`; OS and arch are their field when truthy, else `""`; total storage is `total_storage`, else `storage_total`, else 0, and storage usage is `storage_usage`, else `used_storage`, else 0, without coercion |
| `Display.Lower` | src/components/Cluster.tsx:151 | `toLowerCase` keeps the length and lowers each character on its own (ASCII letters only, see below) |
| `Display.Includes` | src/components/Cluster.tsx:151 | `s.includes(t)` holds exactly when `t` occurs in `s` at some index |
| `Display.FilterByName` | src/components/Cluster.tsx:150-152 | the filtered rows are the rows whose lowered name contains the lowered term, in their original order and with their multiplicities; filtering throws exactly when some name is not a string |
| `Display.EmptyTermKeepsAll` | src/components/Cluster.tsx:150-152 | an empty search term keeps every row |
| `Display.FilterIgnoresTermCase` | src/components/Cluster.tsx:150-152 | lowering the search term first does not change the result |
| `Display.ProgressValue` | src/components/Cluster.tsx:260-268 | the progress value is always in [0, 100]; an in-range number is shown as is, NaN, negative numbers and -Infinity show 0, and values above 100 or +Infinity show 100 |

## Left out

- Polling (`src/components/Cluster.tsx:127-129`) is not modelled. It covers the first call on
  mount, the `setInterval` period `VITE_SETTING_SERVICE_TIMEOUT || 5000`, `clearInterval` on
  teardown, and overlapping ticks, where the last write wins. That is timer and
  effect-lifecycle behaviour, and its only subtle part is concurrency. One tick is modelled
  as one atomic `FetchNodes` call.
- The JSX tree, class names, badges, the node count and the GB/`toFixed` storage and usage
  text are presentation only, so they are not modelled.
- `console.debug` and `console.error` logging is not modelled.
- Real `fetch` and `res.json()` are not modelled. Responses are an input, as described above.
- JavaScript's string-to-number grammar is the parameter `parse`. Numbers are reals, with
  no double rounding and no negative zero.
- `Number(...)` on an object (or a one-element array holding one) is always NaN here. A
  parsed object with its own `toString` or `valueOf` key would convert differently or throw.
- Object spread keeps insertion order in JavaScript. The model's records are maps, so key
  order is not kept. No consumer reads the order.
- `JsValues.Get`: reading a property of a non-object gives `undefined`. That is exact for the
  keys this component reads. Arrays' and strings' `length` and index properties are not
  modelled.
- `Display.Lower` lowers ASCII letters only. `toLowerCase` also maps non-ASCII letters, so
  the filter is exact only for ASCII names and terms.
- Strings are sequences of Unicode scalar values, not UTF-16 code units as in JavaScript. So
  `{ ...s }` of a string with a character outside the Basic Multilingual Plane gets one key
  here and two in JavaScript, `includes` and `length` count such characters once, and lone
  surrogates (JSON `"\ud800"`) cannot be represented (`JsValues.Spread`, `Display.Includes`).
- `src/components/Header.tsx` is not part of this model. It only handles the theme toggle
  and header class names.
- `src/config.ts` is not part of this model. `getConfig` is not used by the cluster view,
  which reads its settings from the build environment.
