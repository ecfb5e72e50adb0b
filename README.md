# http-reply, modelled in Dafny

`http-reply` is a response-formatting helper for Node.js web handlers. An
`HttpReply` instance holds a configuration that is fixed when the instance is
built. Each convenience call (`success`, `created`, `notFound`, ...) builds a
body template of `message`, `data` and/or `error`, `metaData` and (in the later
revision) `code`. It then hands the template to `_sendResponse`, which:

1. checks the destination handle: it must have Express's `status` + `json`, or
   Fastify's `code` + `send`, unless an adapter function is configured;
2. optionally adds a `timestamp` (unix seconds or ISO string);
3. deletes the keys whose `include*` flag is off;
4. merges `customFields` and then the call's `extra` fields;
5. optionally stringifies the envelope (index.ts only);
6. dispatches it to the adapter or through the framework's call chain.

The model covers both revisions of the core, each in its own module:

- `HttpReplyTs` (index_ts.dfy): the later revision, index.ts.
- `HttpReplyJs` (index_js.dfy): the earlier revision, index.js. Its templates
  have no `code` key. It never stringifies, and its `noContent` goes through
  the general path. Its static shortcuts (`HttpReply.success(res, args)`, ...)
  are modelled too.

Shared pieces live in their own modules:

- `Json`: JSON values; an envelope is `map<string, Value>`.
- `Runtime`: the host's clock and serialiser, passed in as parameters.
- `ReplyConfig`: the configuration and how the constructor fills it.
- `Destination`: the handle, seen only through which methods it has, plus the
  `isResponseLike` shape test and the outcome of a call.
- `Catalog`: the table of operations, with their default messages and codes.
- `Assembly`: the envelope, defined key by key.

In each revision, `HttpReply` is a class with a `const config` set in the
constructor. `SendResponse` follows the source: it copies the template into a
local map and updates that map one step at a time. It is proved equal to
`Reply`, a function built on `Assembly.Assemble`. `Assemble` states the envelope
per key: `extra` beats `customFields`, which beats the timestamp, which beats
the template, except where a flag deleted the template key. The lemmas state
the library's promises about `Reply`.

An outcome is one of four things:

- `Dispatched(route, status, payload)`: the last call made, with its status and
  what it received.
- `StatusSetOnly`: the status was set but nothing was sent.
- `Returned`: nothing was called.
- `Failed(kind, logged)`: an error was raised. `logged` says whether an error
  diagnostic came first.

Behaviours of the code worth noting, which the model keeps as written:

- In index.ts the default body of `success` keeps `code: 200`, because
  `includeCode` is on by default. The body without `code` is what index.js sends.
- `noContent` sends no body only in index.ts. In index.js it sends
  `customFields` + `extra` (and the timestamp) through the general path.
- Besides the three errors the library raises itself (invalid destination,
  invalid configuration, serialisation failure), index.ts can end in an
  engine `TypeError`, in two cases:
  - `noContent` on a handle that is not an object, with no adapter: the
    `"status" in res` test throws.
  - A stringified payload on an Express-style handle that has `type` but no
    `send`: the shape test never checks `send`.
- In index.ts, a stringified payload on a handle without `type` is never sent.
  The optional call `type?.(...)` ends the chain after the status is set.

## Model

| member | source | states |
|---|---|---|
| `Destination.IsResponseLike` | index.ts:44-51 | `null`, `undefined` and primitives are rejected; a handle is accepted exactly when it passes the Express test or the Fastify test the dispatch step makes, so it always has `json` or `send` |
| `Destination.ShapeIgnoresTypeAndExpressSend` | index.ts:44-51 | the shape test never looks at `type`, nor at `send` on an Express-style handle |
| `ReplyConfig.ConfigureDefaults` | index.ts:56-69 | with no keys supplied, the configuration is: timestamp off, the four include flags and logging on, stringify off, no custom fields, "unix", no adapter |
| `ReplyConfig.ConfigureKeyByKey` | index.ts:56-69 | each supplied key replaces its default and each absent key keeps it |
| `ReplyConfig.ConfigureSupplied` | index.ts:56-69 | a caller who supplies every key gets exactly that configuration back |
| `HttpReplyTs.HttpReply.constructor` | index.ts:56-69 | the instance's configuration is the defaults overlaid with the caller's keys |
| `Runtime.UnixSeconds` | index.ts:95 | the unix timestamp is the whole number of seconds t with t*1000 <= now < t*1000+1000 |
| `Assembly.StampFor` | index.ts:92-103 | no timestamp when they are off, and then `dateFormat` is not checked; "unix" gives floor seconds; "iso" gives the ISO reading; any other format is a configuration error |
| `Assembly.Dropped` | index.ts:105-108 | a key is deleted exactly when its own `include*` flag is off, and only `code`, `message`, `error`, `metaData` can be deleted |
| `Assembly.DeleteExcluded` | index.ts:105-108 | the four conditional deletes (index.js:64-67 has the same four) remove exactly the keys whose flag is off and nothing else |
| `Assembly.StepsBuildAssembled` | index.ts:90-110 | the source's steps (place timestamp, delete flagged keys, assign customFields then extra) build exactly the key-by-key envelope |
| `Assembly.SameDeletionsSameEnvelope` | index.ts:105-110 | two configurations that delete the same template keys and share customFields build the same envelope |
| `Assembly.MergeOrder` | index.ts:110 | an extra value always arrives; a customFields value arrives unless extra has the key; a deleted key comes back only through a merge source |
| `Assembly.TimestampPlacement` | index.ts:92-110 | an added timestamp is in the envelope unless a merge source overrides it; with none added, no timestamp key appears unless a source holds one |
| `Assembly.TemplateKeysKept` | index.ts:105-110 | a template key that no flag deletes, no merge source names and the timestamp does not replace is sent unchanged |
| `Assembly.AssembledKeys` | index.ts:90-110 | the envelope's keys are exactly the kept template and timestamp keys plus the customFields and extra keys |
| `Catalog.DefaultMessage` | index.ts:141-238 | each operation's default `message` (the destructuring defaults, the same in index.js); never empty |
| `Catalog.DefaultMessagesDistinct` | index.ts:141-238 | no two operations share a default message, so the message tells `rejected` from `badRequest` though both default to 400 |
| `Catalog.DefaultCode` | index.ts:141-238 | every operation carrying data defaults to a 2xx code; every operation carrying only an error defaults to a 4xx or 5xx code |
| `HttpReplyTs.Template` | index.ts:141-238 | every template holds message, metaData and code, and data, error or both as the operation carries; its code equals the status dispatched; the caller's values win over the defaults |
| `HttpReplyTs.HttpReply.SendResponse` | index.ts:72-139 | the stepwise update of the local response object yields exactly the outcome `Reply` describes |
| `HttpReplyTs.HttpReply.Dispatch` | index.ts:124-138 | with an adapter, the adapter gets the caller's handle, the status and the payload whatever the handle; an accepted handle never falls through and an unaccepted one (without adapter) gets nothing; objects go to `json` (Express, preferred) or `send` (Fastify), text to `type().send`; a missing `type` only sets the status; the only failure is the TypeError of an Express-style handle without `send` |
| `HttpReplyTs.HttpReply.Respond` | index.ts:141-238 | each convenience operation sends its template with its code (caller's or default) and the caller's extra fields |
| `HttpReplyTs.HttpReply.NoContent` | index.ts:165-178 | `noContent` dispatches with `code` (default 204) and never a body: `null` to the adapter (with the caller's handle), `send()` with no argument otherwise; it fails only with the engine's TypeError for a non-object handle without adapter, does nothing for an object of neither shape, and never stops after setting a status |
| `HttpReplyTs.InvalidDestinationFirst` | index.ts:78-88 | invalid-destination (logged when logging is on) happens exactly when the handle has neither shape and there is no adapter, before any timestamp, serialisation or dispatch |
| `HttpReplyTs.TimestampFormatChecked` | index.ts:92-103 | once the destination is accepted, a configuration error (logged when enabled) happens exactly when timestamps are on with a format other than "unix"/"iso" |
| `HttpReplyTs.FormatUnreadWithoutTimestamp` | index.ts:92-103 | with timestamps off, the outcome does not depend on `dateFormat` |
| `HttpReplyTs.PayloadIsEnvelope` | index.ts:112-122 | what is dispatched is the assembled envelope, or with stringify on, the serialiser's text of it; a serialiser failure is raised (logged when enabled) exactly when the serialiser fails |
| `HttpReplyTs.FieldsAsSent` | index.ts:105-110 | in a dispatched object, a flag-deleted key is absent unless a merge source restores it, extra values always win, customFields beat the rest |
| `HttpReplyTs.TimestampAsSent` | index.ts:92-103 | a dispatched object holds floor seconds ("unix") or the ISO string ("iso"), and no timestamp when they are off |
| `HttpReplyTs.AdapterPrecedence` | index.ts:124-126 | with an adapter the call either fails before dispatch or calls the adapter once with the caller's handle and the call's status; two handles of any shapes give the same failure or the same call, differing only in the handle passed; only an adapter gets the adapter route |
| `HttpReplyTs.RouteChoice` | index.ts:128-138 | without an adapter: status+json wins over code+send; objects go to json/send and text to type().send; the status is always the call's code; a missing `type` stops after the status; the call never falls through |
| `HttpReplyTs.OperationStatus` | index.ts:141-238 | a convenience call dispatches with its code even when `includeCode` keeps `code` out of the body; with `includeCode` on, the body's code equals the status |
| `HttpReplyTs.SuccessScenario` | index.ts:147-151 | `success(res, {data: {id: 1}})` with defaults sends 200 and {message: "Success", data: {id: 1}, metaData: {}, code: 200} via status().json() |
| `HttpReplyTs.NotFoundScenario` | index.ts:234-238 | `notFound(res)` with defaults sends 404 and {message: "Not Found", error: null, metaData: {}, code: 404} |
| `HttpReplyTs.DefaultReply` | index.ts:56-131 | under the default configuration with no extra fields, an Express handle receives the template unchanged |
| `HttpReplyTs.NoContentWithoutBody` | index.ts:165-178 | `noContent` never sends a body (null to the adapter, send() without argument otherwise), never raises the helper's errors, fails only for a non-object handle without adapter, and does nothing for an object of neither shape |
| `HttpReplyJs.HttpReply.constructor` | index.js:13-27 | the instance's configuration is the defaults overlaid with the caller's keys |
| `HttpReplyJs.HttpReply.SendResponse` | index.js:29-84 | the stepwise update of the local response object yields exactly the outcome `Reply` describes |
| `HttpReplyJs.HttpReply.Respond` | index.js:86-345 | each convenience operation sends its code-less template with its code (caller's or default) and the caller's extra fields |
| `HttpReplyJs.HttpReply.NoContent` | index.js:142-145 | `noContent` sends an empty template with code 204 (or the caller's) and the caller's extra fields through the general path |
| `HttpReplyJs.HttpReply.Shortcut` | index.js:347-405 | each static shortcut behaves as the same-named method of a fresh default-configured instance |
| `HttpReplyJs.HttpReply.NoContentShortcut` | index.js:383-385 | the static `noContent` behaves as `noContent` on a fresh default-configured instance |
| `HttpReplyJs.Template` | index.js:86-345 | templates hold message and metaData, and data, error or both as the operation carries, and never a code key |
| `HttpReplyJs.InvalidDestinationFirst` | index.js:30-40 | invalid-destination (logged when enabled) happens exactly when the handle has neither shape and there is no adapter |
| `HttpReplyJs.TimestampFormatChecked` | index.js:45-61 | once the destination is accepted, a configuration error (logged when enabled) happens exactly when timestamps are on with a format other than "unix"/"iso" |
| `HttpReplyJs.DispatchesObject` | index.js:72-83 | the only failures are the two the helper raises, and every dispatch sends the assembled envelope object with the call's status |
| `HttpReplyJs.StringifyIgnored` | index.js:72-83 | the `stringify` option has no effect on any outcome |
| `HttpReplyJs.RouteChoice` | index.js:72-83 | with an adapter, the adapter gets the caller's handle and the object, and two handles of any shapes give the same outcome but for the handle passed; otherwise status().json() is preferred over code().send() |
| `HttpReplyJs.FieldsAsSent` | index.js:63-70 | in a dispatched envelope, a flag-deleted key is absent unless a merge source restores it, extra values always win, customFields beat the rest |
| `HttpReplyJs.TimestampAsSent` | index.js:44-61 | a dispatched envelope holds floor seconds ("unix") or the ISO string ("iso"), and no timestamp when they are off |
| `HttpReplyJs.IncludeCodeInert` | index.js:63-67 | for any template without a code key, `includeCode` does not change the outcome |
| `HttpReplyJs.ConvenienceIgnoresIncludeCode` | index.js:97-102 | no convenience operation and not `noContent` is affected by `includeCode` |
| `HttpReplyJs.NoContentBody` | index.js:142-145 | `noContent` raises invalid-destination for a bad handle, and otherwise sends timestamp + customFields + extra with its code |
| `HttpReplyJs.SuccessScenario` | index.js:106-122 | `success(res, {data: {id: 1}})` with defaults sends 200 and {message: "Success", data: {id: 1}, metaData: {}} |
| `HttpReplyJs.NotFoundScenario` | index.js:329-345 | `notFound(res)` with defaults sends 404 and {message: "Not Found", error: null, metaData: {}} |
| `HttpReplyJs.DefaultReply` | index.js:13-83 | under the default configuration with no extra fields, an Express handle receives the template unchanged |

## Left out

- Logging (logger.ts): the console output, its colours and its message text are not modelled. A failure records only whether an error diagnostic came before it (`logged`).
- The clock: `Date.now()` is a parameter (`Host.nowMs`). The string `new Date().toISOString()` yields is also a parameter (`Host.isoNow`), and its calendar format is not modelled.
- `JSON.stringify` is an arbitrary function that may fail (`Host.stringify`). What text it produces is not modelled.
- Return values: the model assumes `status()`, `code()` and `type()` return the handle itself. The values that the adapter, `json` and `send` return are not modelled.
- Key order: a JavaScript object remembers the order its keys were inserted in (template keys, then `timestamp`, then `customFields` and `extra` keys), and the body `json`/`send` serialise and the `JSON.stringify` text list keys in that order. An envelope here is a `map`, which has no order, so the model says which keys are sent with which values but not in what order.
- Shared `customFields`: the configuration copies the caller's `customFields` object by reference (index.ts:68, index.js:25), so mutating that object after construction changes later envelopes. `Config` here is an immutable value; aliasing with the caller's object is not modelled.
- Exceptions from collaborators: the adapter and the handle's `status`, `code`, `type`, `json` and `send` may themselves throw, and the exception propagates to the caller. The model treats every such call as returning normally. It also does not model the serialiser throwing inside `type`/`send` rather than in `JSON.stringify`.
- The static shortcuts of index.ts are installed by a loop in `createMethodShortcuts`, a piece of runtime metaprogramming. That loop is not modelled. Its effect is what `HttpReplyJs.HttpReply.Shortcut` states for index.js.
- JSON numbers are integers in `Json.Value`; floating-point values are not modelled.
- Keys that are present but hold `undefined`, and `customFields`/`extra` set to `null`, are not modelled. An option is either supplied with a value or absent.
- Some handle shapes are not modelled: a handle that is itself a function, and a `status`/`type` property that exists but is not a function. The model sees a handle only through which of its methods are functions.
- Calling `response(res)` with no options object throws while destructuring. The model always passes an options record.
- The `message` option of `noContent` is accepted and never used in either revision. The model reads only `code` (and `extra` in index.js).
- The build scripts (makeExportFile.js, tsup.config.js) are not part of this model.
