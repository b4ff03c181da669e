# Identity lookup queue (getRobloxInfo)

A Dafny model of the identity lookup helper in `Utils/Utilities/getRobloxInfo.js`. The helper resolves a Discord account to the linked Roblox account, or the reverse. It goes through a process-wide, strictly serialized request queue, and every caller gets a fixed-shape result record.

The model has four modules:

- `Js` (`js.dfy`) holds the JavaScript values the code inspects, their truthiness, and the `v || null` normalisation.
- `Interaction` (`interaction.dfy`) covers `isInteractionContext`, the ephemeral payload built by `safeInteractionResponse`, and the choice between `followUp` and `reply`.
- `Resolver` (`resolver.dfy`) covers `emptyResult` and the `finish` guard. It also has the body of `processQueue` for one request in two forms:
  - `Resolve` is a pure case analysis over the configuration, the type tag and the outcome of each HTTP lookup.
  - `ProcessRequest` is an imperative method that mirrors the `try`/`catch` and its early returns. It is proved equal to `Resolve`.
- `RequestQueue` (`request_queue.dfy`) is a class holding the FIFO `pending`, the busy flag `processing`, and the request in progress. It has the two entry points and the steps of `processQueue`. Two logs record what happened:
  - `settled` holds every call of a promise's `resolve`.
  - `outbox` holds every notice handed to `reply`/`followUp`.

Each HTTP lookup is an input outcome, `Ok(data)` or `Fail`, collected in a `Network` record. Each promise is identified by a ticket: the number of requests pushed before it.

A queued request holds references (`ObjectRef`) to its caller context and its client, as the JavaScript queue holds the objects themselves. Their state is read when the request is served: whether the interaction was deferred or replied, its guild id, and the client's API key. Each step that serves a request is given a `World`: the network outcomes together with the state of every referenced object as the body reads it while serving that request (a context may be answered during the mapping lookup, so the API key and guild id read before it and the reply state read after a failure need not come from one instant).

The asynchronous `processQueue` is cut after the `shift`:

- `ProcessQueue` is the entry guard and `shift`.
- `RunCurrent` is the body followed by the `finally` block, which clears the flag and kicks the queue again.
- `Drain` is the chain of self re-invocations, written as a loop.

Nothing else runs between the `shift` and the body's first `await` (line 77 or 101). The body's awaits and the final delay are collapsed into `RunCurrent`. A push made meanwhile only appends to `pending`, which the body does not read. The object state seen at each await is carried by the `World`.

The queue invariant `Coherent` states five things:

- The flag is set exactly while one request is in progress.
- The i-th `resolve` call settles the i-th request pushed (FIFO).
- The unsettled requests are the following ones, in push order.
- The next ticket is the number of requests pushed so far: settled ones plus unsettled ones.
- Every request in flight carries the type tag "discord" or "roblox".

`Valid` adds that no request waits while the queue is idle.

The result record has eight keys. The three secondary lookups run one after another: profile, then headshot, then body.

## Model

| member | source | states |
|---|---|---|
| `Js.OrNull` | Utils/Utilities/getRobloxInfo.js:109-111 | JavaScript's `x or null` normalisation returns a truthy value unchanged and turns every falsy value into null |
| `Interaction.IsInteractionContext` | Utils/Utilities/getRobloxInfo.js:22-34 | a falsy context is never interactive; a context whose `isRepliable` answers is judged by that answer alone; without it, or when it throws, the context needs `reply`, `followUp` and a `deferred` or `replied` key |
| `Interaction.PayloadFor` | Utils/Utilities/getRobloxInfo.js:39-48 | a string becomes `{content, flags: Ephemeral}`; an object keeps its content and its own flags unless they are undefined, when Ephemeral is used; the payload always has a flags key |
| `Interaction.SafeInteractionResponse` | Utils/Utilities/getRobloxInfo.js:36-59 | a notice is produced exactly when the context is interactive and has the function its route needs; it carries the built payload; it goes to `followUp` exactly when the context is deferred or replied and has `followUp`, otherwise to `reply`; nothing is sent for a non-interaction context |
| `Interaction.TextNoticeIsEphemeral` | Utils/Utilities/getRobloxInfo.js:39-41 | every string notice that is sent is ephemeral and carries the string as content |
| `Resolver.EmptyResult` | Utils/Utilities/getRobloxInfo.js:9-18 | every one of the eight fields of the empty result is null |
| `Resolver.MappingEndpoint` | Utils/Utilities/getRobloxInfo.js:83-90 | "discord" selects the discord-to-roblox endpoint and only "discord" does; "roblox" selects roblox-to-discord and only "roblox" does; any other tag selects none (the error path) |
| `Resolver.MappingHeaders` | Utils/Utilities/getRobloxInfo.js:92-99 | the API key is always sent; the `x-guild-id` header is added if and only if the context's guild id is truthy, and then carries it |
| `Resolver.Finish` | Utils/Utilities/getRobloxInfo.js:66-72 | after `finish` the request is settled; a settled request is left unchanged; an unsettled one is settled with the given value |
| `Resolver.FinishIdempotent` | Utils/Utilities/getRobloxInfo.js:68-72 | a second `finish` has no effect: only the first value is delivered |
| `Resolver.ImageUrl` | Utils/Utilities/getRobloxInfo.js:129-145 | a thumbnail lookup contributes a truthy URL exactly when it succeeded with a truthy `imageUrl`, and then that URL; otherwise null, never undefined |
| `Resolver.SecondaryLookups` | Utils/Utilities/getRobloxInfo.js:119-146 | the profile, headshot and body lookups are issued all three for a truthy Roblox id and none otherwise, in the order profile, headshot, body, each keyed by that id |
| `Resolver.LinkedResult` | Utils/Utilities/getRobloxInfo.js:109-157 | the three ids are the mapping's values with falsy ones as null; without a truthy Roblox id every other field is null; a failing secondary lookup leaves its own fields null |
| `Resolver.Resolve` | Utils/Utilities/getRobloxInfo.js:75-169 | at most one notice is attempted, and a notice comes with the empty result and at most the mapping lookup; either no call is issued, or only the mapping lookup, or the mapping lookup followed by the profile, headshot and body lookups in that order, keyed by the result's Roblox id; the first call is always the mapping lookup for the requested id |
| `Resolver.ProcessRequest` | Utils/Utilities/getRobloxInfo.js:74-169 | the imperative body always ends settled. Its settled value, its notices and its issued lookups are exactly those of the case analysis `Resolve` |
| `Resolver.NotConfiguredResolution` | Utils/Utilities/getRobloxInfo.js:75-80 | without an API key the result is empty, exactly one "Verification not configured." notice is attempted and no lookup is issued |
| `Resolver.FailureResolution` | Utils/Utilities/getRobloxInfo.js:84-169 | an invalid type tag or a failing mapping lookup gives the empty result and one "Failed to fetch info. Please try again later." notice. The mapping lookup is issued only in the second case |
| `Resolver.EmptyMappingResolution` | Utils/Utilities/getRobloxInfo.js:101-107 | falsy mapping data gives the empty result, no notice and no secondary lookup |
| `Resolver.NoticeCases` | Utils/Utilities/getRobloxInfo.js:75-169 | at most one notice is attempted: "not configured" iff the API key is missing, "failed to fetch" iff the type is invalid or the mapping lookup fails. A notice always comes with the empty result and no secondary lookup |
| `Resolver.LookupsIssued` | Utils/Utilities/getRobloxInfo.js:84-146 | no call is issued without a key or with an invalid type. Otherwise the mapping lookup comes first, on the endpoint the type selects. The profile, headshot and body lookups follow iff the mapping yields a truthy Roblox id, in that order and keyed by that id |
| `Resolver.SecondaryIsolation` | Utils/Utilities/getRobloxInfo.js:119-146 | with the same mapping outcome, each field depends only on the outcome of its own lookup; notices and issued calls do not depend on the secondary outcomes |
| `Resolver.FailedLookupLeavesNull` | Utils/Utilities/getRobloxInfo.js:113-146 | a failing profile, headshot or body lookup leaves its own fields null |
| `Resolver.LinkedIdsKept` | Utils/Utilities/getRobloxInfo.js:109-119 | with linked mapping data, discordId, robloxId and robloxUsername are the mapping's values with falsy ones as null, whatever the secondary lookups do, and no notice is sent; without a truthy Roblox id every other field is null |
| `Resolver.SecondaryDataCopied` | Utils/Utilities/getRobloxInfo.js:121-142 | a successful profile lookup's name, displayName and created are copied as given, not normalised; thumbnail URLs are the image URL with falsy values as null |
| `Resolver.HeadshotFailureScenario` | Utils/Utilities/getRobloxInfo.js:109-157 | Discord id "123" linked to Roblox "456"/"Alice", profile ok, headshot failing, body ok: the ids and profile are kept, headshot is null, avatar is the URL, no notice, four calls |
| `RequestQueue.Sends` | Utils/Utilities/getRobloxInfo.js:77-167 | the "not configured" notice (line 77) and the "failed to fetch" notice (lines 164-167) go to the request's context: each attempted message yields exactly one notice when the context can be answered and none otherwise, each being what `safeInteractionResponse` hands over |
| `RequestQueue.ServeAll` | Utils/Utilities/getRobloxInfo.js:61-175 | serving requests in order settles the i-th with the result `Resolve` gives for it in the world its ticket meets (network outcomes and object state at its service), one settlement per request |
| `RequestQueue.ConsecutiveCountsOnce` | Utils/Utilities/getRobloxInfo.js:65-72 | in a run of consecutive tickets each ticket of the run occurs exactly once and no other ticket occurs |
| `RequestQueue.Queue.constructor` | Utils/Utilities/getRobloxInfo.js:6-7 | the queue starts empty and not processing, with nothing settled or sent |
| `RequestQueue.Queue.ProcessQueue` | Utils/Utilities/getRobloxInfo.js:61-65 | while a request is in progress or none is waiting, nothing changes. Otherwise the flag is set and the head becomes the request in progress. Afterwards no request waits while the queue is idle |
| `RequestQueue.Queue.Push` | Utils/Utilities/getRobloxInfo.js:180-181 | appends a request with the given tag, id and object references and the next ticket at the tail, then kicks the queue; a request in progress is not disturbed; an idle queue starts the new request; nothing is settled or sent |
| `RequestQueue.Queue.GetRobloxInfo` | Utils/Utilities/getRobloxInfo.js:178-183 | appends a "discord" request with a fresh ticket at the tail and kicks the queue; a request already in progress is not disturbed; nothing is settled or sent |
| `RequestQueue.Queue.GetDiscordInfo` | Utils/Utilities/getRobloxInfo.js:185-190 | appends a "roblox" request with a fresh ticket at the tail and kicks the queue; a request already in progress is not disturbed; nothing is settled or sent |
| `RequestQueue.Queue.RunCurrent` | Utils/Utilities/getRobloxInfo.js:65-174 | the request in progress is settled exactly once with the result of `Resolve` for its context and client in their state at service time, and its notices are sent to that context. Only then is the flag cleared and the next waiting request started. With none in progress nothing happens |
| `RequestQueue.Queue.Drain` | Utils/Utilities/getRobloxInfo.js:170-174 | re-invoking until idle serves every in-flight request in push order, each with its objects as they are when it is served. It appends exactly their settlements and notices and leaves the queue empty and not processing |
| `RequestQueue.Queue.CurrentKindIsValid` | Utils/Utilities/getRobloxInfo.js:178-190 | only "discord" and "roblox" requests are ever queued, so the invalid-type branch is never reached through the entry points |
| `RequestQueue.SharedInteractionRoutes` | Utils/Utilities/getRobloxInfo.js:51-55 | two requests pushed with one shared interaction and no API key, the interaction replied to between their services: the first notice goes through `reply`, the second through `followUp` |
| `RequestQueue.Queue.SettledExactlyOnce` | Utils/Utilities/getRobloxInfo.js:65-72 | each settled ticket has been settled exactly once. Each pushed ticket is either settled once or still in flight once, never both. Tickets never issued appear nowhere |

## Left out

- The HTTP calls themselves are not modelled: axios, the URLs, the query strings, the `Content-Type` header and the JSON shapes. Each lookup is an input outcome carrying only the fields the code reads.
- A throwing secondary lookup is not distinguished from a response whose `data` is null and throws on access. Both are `Fail`.
- The `RATE_LIMIT_DELAY` wait (2000 ms) and the spacing of requests in time are not modelled. The model has no clock, so it states the order of service but not the interval between requests.
- The promise and async scheduling are not modelled. A promise is represented by its ticket and its `resolve` call by an entry in the `settled` log. The body's awaits are not separate steps: a push that happens during one of them is ordered after the whole `RunCurrent` step, which gives the same `pending` because the body does not read it.
- Delivery by `reply`/`followUp` is not modelled, and neither are its swallowed failures. A notice is the value handed over.
- `console.error` logging is not modelled, including which entry-point name the catch block logs.
- Numbers are integers, so NaN and other floating-point values are not modelled.
- Only `content` and `flags` of an options-object message are modelled. The other keys its spread copies are not.
- What `isRepliable()` returns is modelled only by its truthiness.
- Property getters on the context or on responses that throw are not modelled.
- The external id is an opaque string, interpolated into the URL without escaping.
- The notices and the `resolve` calls are kept in two separate logs, so their relative order within one request is not recorded.
