# goat: a verified model of the relay, its helpers and the tenant table

This project models in Dafny the sequential core of the goat Go library:

- **The WebSocket relay** (`rws/ws.go`, `rws/subscription.go`). This covers:
  - the frame constructors `NewError`, `NewReply` and `Wrap`;
  - the handler registry (`Dispatcher`, `HandleFunc`);
  - the per-message dispatch step of `process`;
  - the text normalisation of `receive`;
  - the self-echo `filter`;
  - the subscription-set state machine of `listener`;
  - the built-in `subscribe` and `unsubscribe` handlers.

  A session is a `Client` object. Its fields are the inbound and outbound queues, the bus connection (a log of calls made on it) and the set of confirmed channels. It has one method per step of the loops.
- **Placeholder expansion** (`strings.go`, `EvaluateEnv`). `${NAME}` expands to an environment variable and `${file:PATH}` to a file's content. The environment and the file system are maps.
- **The tenant table** (`multitenant.go`). It covers `OpenTenants`, `Get` and `Close`. The SQL driver's answers (open, ping, close) are inputs.
- **The authentication middleware** (`sso/sso.go`). It covers `PreferredUsername`, where the bearer token comes from, and the 401 / 403 / pass-on decision. Decoding the JWT and the remote validation are functions given as parameters.
- **Pagination** (`pagination.go`). It covers `NewPage` and `Compute`.

JSON is a `Value` datatype. Decoding (`json.Unmarshal`) and encoding (`json.Marshal`) are function parameters returning `Option`. An application handler's result is also a function parameter.

`Wrap` stores a non-map payload under the misspelled key `"paylaod"` (rws/ws.go:101), and the model keeps that key (`Frames.PayloadKey`).

Modules follow the files: `Frames`, `Dispatch` and `Session` model `rws/ws.go`, and `Subscription` models `rws/subscription.go`. The other files map as follows:

| module | source file |
|---|---|
| `Env` | `strings.go` |
| `Tenants` | `multitenant.go` |
| `Sso` | `sso/sso.go` |
| `Pagination` | `pagination.go` |

`Text` models Go's `strings.Index`, with its first-occurrence property. `Wrappers` and `Seqs` are small shared helpers.

## Model

| member | source | states |
|---|---|---|
| Frames.NewError | rws/ws.go:66-76 | the frame has `type` "error" and `code`; it has `msg` exactly when the text is non-empty; it has no other key |
| Frames.NewReply | rws/ws.go:78-87 | the frame has `type` t; it has `sender` exactly when the sender is non-empty; it has no other key |
| Frames.Stamp | rws/ws.go:91-97 | on a map payload, `type` is overwritten; `sender` is set only when non-empty, so an existing sender survives an empty one; every other key is kept |
| Frames.Wrap | rws/ws.go:89-103 | a `map[string]interface{}` payload is updated in place and returned itself (aliasing); any other payload, including one that encodes as a JSON object, goes under "paylaod" of a fresh `NewReply` frame |
| Frames.StampEmptyIsReply | rws/ws.go:79-97 | wrapping an empty map gives exactly `NewReply(t, sender)` |
| Frames.StampIdempotent | rws/ws.go:90-98 | wrapping twice with the same type and sender equals wrapping once |
| Dispatch.Dispatcher.constructor | rws/ws.go:61-64 | `NewDispatcher` starts with an empty table |
| Dispatch.Dispatcher.Resolve | rws/ws.go:240 | a lookup finds a handler exactly when the type is registered, and gives that handler |
| Dispatch.Dispatcher.HandleFunc | rws/ws.go:105-108 | afterwards the type resolves to the new handler, overwriting any earlier one; every other type resolves as before |
| Dispatch.TypeOf | rws/ws.go:239 | a type is read exactly when `type` is present and is a string |
| Dispatch.Decide | rws/ws.go:233-245 | undecodable input gives 400 "Invalid Request"; a registered string type runs its handler on the input; an unregistered one gives 400 "Unknown Request '<t>'"; a missing or non-string type gives nothing |
| Dispatch.UnknownRequest | rws/ws.go:243 | the text "Unknown Request '<t>'" of the error for an unregistered type; `Decide` and `UnknownTypeScenario` state where it is used |
| Dispatch.DecideErrorsAre400 | rws/ws.go:235-245 | every error reply is a frame with exactly the keys type, code, msg, with type "error" and code "400" |
| Dispatch.DecideRunsIffRegistered | rws/ws.go:239-241 | a handler runs if and only if the message decodes with a registered string type |
| Subscription.PubSub.Send | rws/subscription.go:14-17 | a bus call is made and logged whether or not it fails; the failure is only reported back |
| Subscription.Eligible | rws/subscription.go:22 | the `%v` prefix test: an element qualifies exactly when it is a string starting with "sheet:" (only strings render with that prefix) |
| Subscription.EligibleTopics | rws/subscription.go:20-25 | a topic is kept exactly when it is a string element starting with "sheet:"; the result is no longer than the list |
| Subscription.EligibleTopicsAppend | rws/subscription.go:21-25 | filtering distributes over concatenation, so kept topics stay in their original order |
| Subscription.CollectTopics | rws/subscription.go:20-25 | the loop collects exactly the eligible topics, in order |
| Subscription.SubscribeCalls | rws/subscription.go:10-37 | at most one call, always a subscribe with channels; a string topic is subscribed when it has the prefix, otherwise nothing; a list produces one call with its eligible topics, or none; an absent or other-typed topic produces no call |
| Subscription.UnsubscribeCalls | rws/subscription.go:40-72 | at most one call; an ineligible string topic produces no call at all; a list produces one unsubscribe with its eligible topics, or else one pattern unsubscribe of "sheet:*"; an absent or other-typed topic produces no call |
| Subscription.Subscribe | rws/subscription.go:10-37 | the handler appends exactly `SubscribeCalls(req)` to the bus log and returns nil, whatever the bus answers |
| Subscription.Unsubscribe | rws/subscription.go:40-72 | the handler appends exactly `UnsubscribeCalls(req)` to the bus log and returns nil, whatever the bus answers |
| Subscription.UnsubscribeNoEligibleUsesPattern | rws/subscription.go:49-68 | a topic list with no eligible element, the empty list included, issues exactly one pattern unsubscribe of "sheet:*" and no other call |
| Subscription.NoneEligible | rws/subscription.go:20-25 | a list with no eligible element keeps no topic |
| Subscription.SubscribeSingleTopic | rws/subscription.go:11-18 | a request for topic "sheet:42" makes exactly one subscribe call, for that topic |
| Session.IsSpace | rws/ws.go:166 | Go's `unicode.IsSpace`, the white-space test of `bytes.TrimSpace`: the Latin-1 spaces and the Unicode White_Space characters; `TrimLeftSpec` and `TrimRightSpec` state what trimming with it does |
| Session.ReplaceNewlines | rws/ws.go:166 | same length; every newline becomes a space and every other character is kept |
| Session.TrimLeft | rws/ws.go:166 | the leading half of `bytes.TrimSpace`; its contract is `TrimLeftSpec` |
| Session.TrimRight | rws/ws.go:166 | the trailing half of `bytes.TrimSpace`; its contract is `TrimRightSpec` |
| Session.TrimSpace | rws/ws.go:166 | `bytes.TrimSpace`, as leading then trailing white-space removal; its contract is `TrimSpaceSpec` |
| Session.Normalise | rws/ws.go:166 | newline replacement followed by trimming; its contract is `NormaliseSpec` |
| Session.TrimLeftSpec | rws/ws.go:166 | what is dropped is a white-space prefix; what is kept is a suffix that does not start with white space |
| Session.TrimRightSpec | rws/ws.go:166 | what is dropped is a white-space suffix; what is kept is a prefix that does not end with white space |
| Session.TrimSpaceSpec | rws/ws.go:166 | trimming keeps a contiguous part that neither starts nor ends with white space; everything cut off on both sides is white space |
| Session.NormaliseSpec | rws/ws.go:166 | a normalised message has no newline and no white space at either end; it is the newline-replaced message with the surrounding white space cut off |
| Session.Accepted | rws/ws.go:158-171 | never more messages are forwarded than were read |
| Session.AcceptedAppend | rws/ws.go:158-171 | forwarding keeps arrival order: reading more messages extends what was forwarded |
| Session.AcceptedWellFormed | rws/ws.go:166-170 | every forwarded message is non-empty, has no newline and is trimmed |
| Session.ReadLoop | rws/ws.go:158-171 | the read loop forwards exactly the non-empty normalised messages, in order |
| Session.Output | rws/ws.go:233-245 | an error decision outputs its frame; a silent decision outputs nothing; the built-in handlers output nil; an application handler outputs its result |
| Session.Emit | rws/ws.go:247-254 | at most one message is enqueued; one is enqueued exactly when the output is non-nil and encodes, and it is that encoding |
| Session.HandlerCalls | rws/ws.go:240-241 | in the model, only the built-in handlers make bus calls, and exactly those of `Subscribe` and `Unsubscribe`; an application handler contributes none (see "## Left out") |
| Session.Replies | rws/ws.go:222-257 | a run of messages produces at most one reply per message |
| Session.Calls | rws/ws.go:240-241 | the bus calls of a run of messages, one message after another; `CallsAppend` and `ProcessPending` state its meaning |
| Session.RepliesAppend | rws/ws.go:223-256 | replies keep message order: processing `a` then `b` enqueues a's replies, then b's |
| Session.CallsAppend | rws/ws.go:223-256 | bus calls keep message order likewise |
| Session.ProcessedStep | rws/ws.go:225-254 | handling the head of the queue moves its reply and calls from what is due to what is done |
| Session.MalformedIsInvalidRequest | rws/ws.go:235-238 | an undecodable message is answered with {type: error, code: 400, msg: Invalid Request} |
| Session.UnknownTypeScenario | rws/ws.go:239-244 | `{"type":"bogus"}` with no such handler is answered with 400 "Unknown Request 'bogus'" |
| Session.SentBy | rws/ws.go:327 | the sender test of `filter`: the frame has a string `sender` equal to the client ID; `Filter` and `NoSelfEcho` state its use |
| Session.Filter | rws/ws.go:319-332 | data is kept exactly when it decodes and its `sender` is not a string equal to the client ID; kept data is unchanged |
| Session.Forward | rws/ws.go:285-291 | without suppression, data (when non-nil) is forwarded unchanged; with suppression, `Filter` decides and nil data is dropped; forwarded data is always the original |
| Session.NoSelfEcho | rws/ws.go:327-329 | with suppression on, data this client sent is never forwarded back to it |
| Session.Acked | rws/ws.go:293-303 | a subscribe or psubscribe acknowledgement adds the channel; unsubscribe or punsubscribe removes it; any other kind changes nothing; other channels are untouched |
| Session.LastAckFor | rws/ws.go:293-303 | the index of the last acknowledgement that adds or removes a channel, and no later one does |
| Session.AckedAll | rws/ws.go:293-303 | the set after a run of acknowledgements, each applied by `Acked`; `AckedAllMembership` states its meaning |
| Session.AckedAllMembership | rws/ws.go:293-303 | after a run of acknowledgements, a channel is in the set exactly when its last acknowledgement was a subscribe; with none, exactly when it was there before |
| Session.PassCalls | rws/ws.go:269-274 | a pass makes at most one call per enumerated channel, each a single-channel subscribe of a channel of the set |
| Session.PassCallsSplit | rws/ws.go:269-274 | until the first failure, a pass makes one subscribe call per channel enumerated |
| Session.PassCallsCoverSet | rws/ws.go:269-274 | a pass with no failure subscribes every channel of the set, one call each, and only those |
| Session.PassCallsStopAtFailure | rws/ws.go:269-274 | a pass stops right after the first failing subscribe |
| Session.PrivateChannel | rws/ws.go:262 | the private channel `"client:"+ID` every session starts subscribed to; `Client.constructor` states its use |
| Session.Client.constructor | rws/ws.go:261-262 | a session starts with empty queues, an empty bus log and the set {"client:"+ID} |
| Session.Client.Receive | rws/ws.go:158-171 | the inbound queue is extended by exactly the accepted messages; nothing else changes |
| Session.Client.ProcessNext | rws/ws.go:225-254 | one message is taken from the inbound queue; its encoded output, if any, is enqueued and its bus calls are made, as `Decide` says |
| Session.Client.ProcessPending | rws/ws.go:222-257 | draining the queue enqueues exactly `Replies` of the messages and makes exactly `Calls`, in order |
| Session.Client.StartPass | rws/ws.go:264-278 | a new pass re-subscribes the whole set one channel at a time and stops at the first error; the pass listens exactly when no call failed |
| Session.Client.OnMessage | rws/ws.go:283-291 | a bus data message is enqueued exactly as `Forward` decides |
| Session.Client.OnSubscription | rws/ws.go:293-303 | the set follows the acknowledgement (`Acked`); the pass ends exactly on an unsubscribe acknowledgement with count 0 |
| Session.Client.OnError | rws/ws.go:278-281 | a receive error is only logged; the pass goes on unless the connection has failed |
| Session.Client.EndPass | rws/ws.go:307-315 | the listener returns exactly when the receiver has signalled done; otherwise a new pass follows with the same set |
| Text.IndexOf | strings.go:15 | the result is -1 or a position where the pattern occurs |
| Text.IndexOfFirst | strings.go:15-17 | `strings.Index` finds the first occurrence and gives -1 exactly when there is none |
| Env.Lookup | strings.go:19-29 | `${file:P}` gives the content of P, or "" when it cannot be read; any other name gives its environment value, or "" when unset |
| Env.EvaluateEnv | strings.go:14-35 | `EvaluateEnv`; its meaning is stated by the lemmas below |
| Env.ExpandKeepsPrefix | strings.go:30 | the text before the first `${` is always kept verbatim at the front of the result |
| Env.EvaluateStep | strings.go:15-30 | when the first `}` follows the first `${`, the text before is kept, the placeholder is replaced and only the remainder after `}` is evaluated again |
| Env.ExpandNone | strings.go:15-16 | a string with no `${` is returned unchanged |
| Env.ExpandQuirk | strings.go:17-18 | when the first `}` comes before the first `${`, the whole string is returned unchanged, later placeholders included |
| Env.ExpandUnclosed | strings.go:17-18 | a string with no `}` is returned unchanged |
| Env.ExpandOne | strings.go:19-30 | a placeholder after literal text: the text is kept, the placeholder becomes its value, and only what follows is evaluated further |
| Env.NoReexpansion | strings.go:30 | a substituted value is not expanded again, whatever it contains |
| Tenants.Conn.constructor | multitenant.go:47 | a fresh handle has the driver's default limits and is open |
| Tenants.Conn.SetMaxOpen | multitenant.go:50 | sets only the open-connection limit |
| Tenants.Conn.SetMaxIdle | multitenant.go:54 | sets only the idle-connection limit |
| Tenants.Conn.Close | multitenant.go:68 | the handle is closed, and the driver's error is reported |
| Tenants.Limit | multitenant.go:49-55 | a limit is applied exactly when the configured value is positive, and is that value |
| Tenants.OpenSQL | multitenant.go:46-63 | an error exactly when open or ping fails; no handle only when open fails; otherwise a fresh open handle at the URL with the positive limits applied |
| Tenants.FirstFailure | multitenant.go:32-36 | the position of the first tenant whose open fails; every tenant before it opened |
| Tenants.FirstTrue | multitenant.go:67-71 | the position of the first handle whose close fails; every handle before it closed cleanly |
| Tenants.DomainIndex | multitenant.go:32-41 | the routing the loop of `OpenTenants` builds, as tenant positions; `DomainIndexSpec` states its meaning |
| Tenants.Assign | multitenant.go:39-41 | the writes `mdb.domains[d] = db` for each domain of one tenant, in order; its contract is `AssignSpec` |
| Tenants.AssignSpec | multitenant.go:39-41 | writing a tenant's domains routes exactly those domains to it and keeps the others |
| Tenants.DomainIndexSpec | multitenant.go:32-41 | a domain is routed exactly when some tenant lists it, and then to the last tenant that lists it |
| Tenants.TenantFor | multitenant.go:77-83 | the tenant `Get` answers with, in terms of the configuration; `TenantForSpec` states its meaning |
| Tenants.TenantForSpec | multitenant.go:77-83 | a listed domain resolves to a tenant listing it; an unlisted one resolves as "default" does; none exactly when neither is listed |
| Tenants.MDB.Get | multitenant.go:77-83 | a mapped domain gives its handle; an unmapped one gives the handle of "default"; nil exactly when neither is mapped |
| Tenants.GetFollowsTenants | multitenant.go:77-83 | on a table routed as `OpenTenants` routes it, `Get` answers with the handle of the tenant `TenantFor` picks, and nil exactly when it picks none |
| Tenants.MDB.Close | multitenant.go:66-74 | handles are closed in order up to and including the first that fails, the others are left as they were, and no handle's limits change; an error exactly when one fails |
| Tenants.CloseAll | multitenant.go:67-73 | the loop of `Close`, with the same contract (closing in order to the first failure, limits unchanged) over a sequence of distinct handles |
| Tenants.AddDomains | multitenant.go:39-41 | the inner loop routes each listed domain to the new handle, last write winning |
| Tenants.Register | multitenant.go:38-41 | the new handle is appended and the tenant's domains are routed to it |
| Tenants.OpenTenants | multitenant.go:28-44 | one fresh handle per tenant, in order, each at its `EvaluateEnv`-expanded URL with its positive limits; on the first failure, the error together with the handles and domains of the tenants before it; domains route to the last tenant listing them |
| Sso.AuthData.PreferredUsername | sso/sso.go:37-43 | the profile's `preferred_username` when it is a string; "" otherwise, including for a nil profile |
| Sso.Status | sso/sso.go:62-95 | a refusal is 401 exactly when unauthorized and 403 exactly when forbidden; `Authenticate` states its refusals through it |
| Sso.BearerToken | sso/sso.go:51-54 | "" when the header has no "Bearer "; otherwise the text right after the first "Bearer ", running up to the next "Bearer " or the end of the header, and containing no separator |
| Sso.BearerAfterText | sso/sso.go:51-54 | a header `p + "Bearer " + tok`, where `p` contains no `B`, gives back tok, for a token without a separator of its own |
| Sso.RequestToken | sso/sso.go:50-59 | the bearer token when non-empty, else the `token` query parameter |
| Sso.ClientID | sso/sso.go:85 | the `client_id` claim is available exactly when it is a string |
| Sso.Authenticate | sso/sso.go:47-105 | 401 exactly when there is no token and validation is required; with no token and validation optional, pass on with empty auth data; an undecodable token gives 403; with no validation URL, pass on with the claims and no profile; with one, a missing client_id or a failed validation gives 403, and otherwise the returned profile is stored |
| Pagination.CeilDiv | pagination.go:41 | `int(math.Ceil(float64(a) / float64(b)))` as exact integer ceiling division; its contracts are the `CeilDiv*` lemmas |
| Pagination.CeilDivCovers | pagination.go:41 | for a positive size, the page count is the least count whose pages hold every element |
| Pagination.CeilDivNegative | pagination.go:41 | for a negative size, the count is the ceiling of the quotient likewise |
| Pagination.CeilDivZero | pagination.go:41 | no elements make no pages |
| Pagination.CeilDivExact | pagination.go:41 | when the size divides the element count, the page count is the exact quotient |
| Pagination.Page.constructor | pagination.go:24-28 | a new page has all numbers 0 and an empty, non-nil content |
| Pagination.Page.Compute | pagination.go:37-43 | size 0 gives 0 pages, otherwise the ceiling of elements over size; no other field changes |

## Left out

- Concurrency: the four goroutines of a session, the channels between them and the `done` signal are out of the model. Each loop is a sequence of method calls on the `Client` object, and the interleaving of the loops is not modelled.
- The teardown in `receive`'s deferred function is not modelled. This includes the closing `Unsubscribe()` of every channel and the closing of the queues.
- The `write` loop is not modelled: deadlines, the ping ticker and the batching of queued messages.
- The WebSocket library (upgrade, origin check, read limit, pong handling) is not modelled. `receive` takes the messages read before the connection closed.
- `Session.HandlerCalls`, `Session.Client.ProcessNext`, `Session.Client.ProcessPending`: an application handler is modelled by its result alone (`runApp`). The Go handler receives the `*Client` and may itself call the exported `rws.Subscribe` / `rws.Unsubscribe` or keep state between calls; the model gives such a handler no bus calls of its own and one fixed result function for a whole drain, so handlers whose answer depends on earlier requests or client state are not expressed.
- The bus client is a log of calls (`PubSub`). Go replaces `c.psc` with a new connection on every listening pass; the model keeps one log across passes.
- `Session.Client.StartPass`: Go's map iteration order is not modelled. The order of the set is an input (`order`), and the contract holds for every order.
- `Session.Client.StartPass`: the blocking `Receive` of the bus is not modelled. Bus events are the methods `OnMessage`, `OnSubscription` and `OnError`, called by the environment.
- JSON encoding and decoding are function parameters. Numbers are integers, since the relay never inspects them, so floating-point values are not modelled.
- Messages are sequences of characters (decoded runes). Invalid UTF-8 and the byte-level behaviour of `bytes.TrimSpace` on it are not modelled.
- `Frames.Wrap`: a nil Go map passed as payload (on which Go's write would panic) is not modelled; a map payload is always an allocated map.
- Printing with `%v` is not modelled. `Subscription.Eligible` relies on its observable effect: only a JSON string renders with the prefix "sheet:".
- `os.Getenv` and `ioutil.ReadFile` are maps given as inputs. So are the outcomes of `sql.Open`, `Ping` and `db.Close` in `multitenant.go`.
- database/sql's interplay between the two connection limits is not modelled; each limit is recorded as set.
- Pagination: `Pagination.Page.Compute` uses exact integer ceiling division, whereas Go converts to float64. The float value is exact for magnitudes below 2^53; beyond that, float rounding is not modelled.
- Pagination: `GetPageable` is not modelled, because it reads the request through the gin framework.
- JWT decoding (go-jose) and the `validateToken` HTTP round-trip are function parameters of `Sso.Authenticate`.
- The request context plumbing and the HTTP error bodies in `sso/sso.go` are not modelled.
- `http.go` is not part of this model; `Param("token")` is the input `param` of `Sso.Authenticate`.
- `jsonb.go` is not part of this model: it only wraps the JSON library and the SQL driver.
- Logging and UUID generation are not modelled: they do not affect the logic.
