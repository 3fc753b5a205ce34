# trafficlight-proxy, modelled in Dafny

trafficlight-proxy is an HTTP proxy that trafficlight test runs put in front of
a Matrix homeserver so that they can break the network on purpose. A test
client polls the trafficlight server for actions. `proxyTo` builds a proxy in
front of a homeserver and rewrites the login and well-known responses so that
they point at the proxy. `disableEndpoint` and `enableEndpoint` block and
unblock URLs on it, and `exit` ends the run. The proxy itself keeps a
duplicate-free list of blocked endpoint keys. It answers a request whose URL
contains a blocked key with 503 "Blocked" and forwards every other request.
It rewrites the bodies of responses for which a modifier is registered,
un-gzipping and re-gzipping them where needed. It also lets callers wait
until some request hits a given endpoint.

The model covers both versions of the proxy and both versions of the
trafficlight client found in the repository, plus the proxy client that glues
them together:

| file | module | models |
|---|---|---|
| `common.dfy` | `Common` | `Option`, `Result`, `Outcome` (success or a thrown error), bytes |
| `text.dfy` | `Text` | `String.prototype.includes` and `replaceAll` with a string pattern, including the `$` patterns of the replacement |
| `uri_component.dfy` | `UriComponent` | `encodeURIComponent` (UTF-8 bytes, upper-case escapes), and percent-decoding as its partner |
| `block_list.dfy` | `BlockList` | the block list both proxies keep: `push` when absent, `findIndex` plus `splice`, `some` by containment or by equality |
| `response_body.dfy` | `ResponseBody` | the body rewrite of the `proxyRes` end handler, and the actions a handler performs on the client's response |
| `proxy.dfy` | `ProxyEngine` | `src/proxy/Proxy.ts`: the `Proxy` class and its watch registry |
| `legacy_proxy.dfy` | `LegacyProxyEngine` | `proxy/Proxy.ts`: the earlier `Proxy` class |
| `registry.dfy` | `Registry` | `ActionMap.on`/`off`/`get` of both clients, as a dictionary and as the JavaScript object it is |
| `poll_loop.dfy` | `PollLoop` | the `start` loop of both clients, over a script of server replies |
| `traffic_light.dfy` | `TrafficLight` | `src/trafficlight/TrafficLightClient.ts` |
| `legacy_traffic_light.dfy` | `LegacyTrafficLight` | `trafficlight/TrafficLightClient.ts` |
| `network_proxy_client.dfy` | `NetworkProxy` | `src/trafficlight/NetworkProxyTrafficClient.ts` |

Classes keep the fields the TypeScript updates in place:

- The proxy's `httpProxy` and `httpSever` objects are the flags `hasProxy` and `hasServer`.
- A listening server is the port it listens on. A server the proxy drops while it still listens (after a second `target`, or a second `listen` of the earlier proxy) is kept as a stray port, because nothing closes it.
- A watch's resolver is a signal number; calling the resolver adds that number to `resolvedSignals`.
- A response handler returns the list of actions it performs on the client's response (`writeHead`, `statusCode = 503`, `end("Blocked")`, `pipe`, `end(rewritten)`), in order.
- A thrown error is a `Fail` outcome.

What the code cannot see is a parameter:

- `urlParses` says whether `new URL(url)` succeeds.
- A `Codec` value carries `gzipSync`, `gunzipSync`, `Buffer.toString` and `Buffer.from`.
- The HTTP replies of the poll loop are a script of `PollReply` values.
- A fresh uuid and a registration status are given to `Register`.

Facts about the codec, such as gzip round trips, are hypotheses of the contracts that need them, never axioms.

Where the code's own names and structure show an intention it does not meet, the model follows what the code does and states the intention beside it (see "## Findings"):

- `waitForEndpoint` deletes its map entry only after `await Promise.race` (src/proxy/Proxy.ts:88-89). When the timeout wins, the `await` throws before the `delete`, so the entry stays and the next watch on that key completes at once.
- A second `waitForEndpoint` on a key that is already watched looks up `existingPromise` (src/proxy/Proxy.ts:78-80). It is a resolver function, not a promise, so returning it completes the call at once instead of joining the pending watch.
- `ActionMap` keeps its callbacks in an object literal (src/trafficlight/TrafficLightClient.ts:13, trafficlight/TrafficLightClient.ts:12), so names inherited from `Object.prototype` count as registered. The classes use the plain dictionary that the messages "already specified" and "not specified" describe; `Registry` states the as-written behaviour.

Other differences between the two versions, modelled as they are:

- The earlier proxy blocks by exact equality. It decides only after the upstream has answered. When a blocked URL also has a modifier, its end handler still runs the modifier and calls `res.end` a second time after `end("Blocked")`; Node rejects that call as a write after end, so the client receives "Blocked".
- `src/standalone.ts` calls `addResponseDelay` and `responseDelayDefault`, but neither proxy class defines them. The delay feature is therefore not modelled.

## Model

| member | source | states |
|---|---|---|
| Text.ReplaceAll | src/trafficlight/NetworkProxyTrafficClient.ts:49 | `replaceAll` with a non-empty pattern returns a text that has no occurrence of the pattern unchanged |
| Text.Substitution | src/trafficlight/NetworkProxyTrafficClient.ts:49 | a replacement string without `$` is inserted literally |
| Text.SkipUnmatched | src/trafficlight/NetworkProxyTrafficClient.ts:49 | a stretch of text at which no match starts is copied to the output as it is |
| Text.NoMatchIsCopied | src/trafficlight/NetworkProxyTrafficClient.ts:49 | text that holds no match of the pattern is copied unchanged |
| Text.WholeIrrelevant | src/trafficlight/NetworkProxyTrafficClient.ts:49 | with a `$`-free replacement, the text around the part being replaced does not affect the output |
| Text.ReplaceByMatchIsIdentity | src/trafficlight/NetworkProxyTrafficClient.ts:49 | replacing every match by `$&` (the match itself) gives the text back; with the unsearched rest equal to the whole text this is `replaceAll` itself |
| Text.ReplaceByPatternIsIdentity | src/trafficlight/NetworkProxyTrafficClient.ts:49 | replacing every match of a `$`-free pattern by the pattern itself gives the text back |
| Text.ReplaceFirstOccurrence | src/trafficlight/NetworkProxyTrafficClient.ts:49 | when the first match is at the end of `prefix`, the output is `prefix`, the replacement, then `replaceAll` of the rest |
| Text.ReplaceLength | src/trafficlight/NetworkProxyTrafficClient.ts:49 | with a `$`-free replacement, the output length is the input length plus, per non-overlapping match counted left to right, the replacement length minus the pattern length |
| UriComponent.HexDigit | src/trafficlight/TrafficLightClient.ts:117 | each hex digit of an escape is an unreserved character that decodes back to its value |
| UriComponent.Utf8 | src/trafficlight/TrafficLightClient.ts:117 | a character encodes to 1 to 4 UTF-8 bytes, one exactly for ASCII, and that byte is the code point |
| UriComponent.Escapes | src/trafficlight/TrafficLightClient.ts:117 | every byte becomes a three-character `%XX` escape |
| UriComponent.EncodeURIComponent | src/trafficlight/TrafficLightClient.ts:117 | the output holds only unreserved characters and `%`; an input made of unreserved characters comes back unchanged |
| UriComponent.EscapesAlphabet | src/trafficlight/TrafficLightClient.ts:117 | escapes consist of `%` and unreserved characters only |
| UriComponent.DecodeEscape | src/trafficlight/TrafficLightClient.ts:117 | one `%XX` escape decodes to its byte, in front of the decoding of whatever follows |
| UriComponent.DecodeUnescaped | src/trafficlight/TrafficLightClient.ts:117 | an unescaped character decodes to its own one-byte UTF-8 code |
| UriComponent.EscapesDecode | src/trafficlight/TrafficLightClient.ts:117 | percent-decoding escaped bytes followed by any text gives those bytes before the decoding of the text |
| UriComponent.EncodeThenDecode | src/trafficlight/TrafficLightClient.ts:117 | percent-decoding `encodeURIComponent(s)` gives exactly the UTF-8 bytes of `s` |
| BlockList.Disabled | src/proxy/Proxy.ts:52-59 | the key is in the list afterwards; the members are the old members plus the key; no duplicates are introduced; an already-present key changes nothing; an absent key is appended at the end |
| BlockList.DisableIdempotent | src/proxy/Proxy.ts:52-59 | disabling the same key twice is the same as disabling it once |
| BlockList.RemoveFirst | src/proxy/Proxy.ts:61-69 | an absent key changes nothing; a present key shortens the list by one; all other keys stay |
| BlockList.RemoveFirstKeepsNoDuplicates | src/proxy/Proxy.ts:61-69 | on a duplicate-free list the key is gone afterwards and the list stays duplicate-free |
| BlockList.SpliceIsRemoveFirst | src/proxy/Proxy.ts:62-67 | splicing out the entry at the first index equal to the key removes exactly that entry and keeps the others in order |
| BlockList.RemoveFirstAppended | src/proxy/Proxy.ts:61-69 | enabling a key that only appears as the last entry takes out exactly that entry |
| BlockList.DisableThenEnableRestores | src/proxy/Proxy.ts:52-69 | disabling a key that is not in the list and then enabling it restores the list exactly |
| BlockList.FindIndex | src/proxy/Proxy.ts:62 | `findIndex` gives -1 exactly when the key is absent, and otherwise the first index holding the key |
| BlockList.SomeContained | src/proxy/Proxy.ts:33 | the `some`/`includes` loop answers true exactly when some disabled key occurs in the URL |
| BlockList.SomeEqual | proxy/Proxy.ts:70 | the `some` loop answers true exactly when the URL equals a disabled key |
| BlockList.BlockedKeyBlocksEveryExtension | src/proxy/Proxy.ts:33 | a disabled key blocks every URL that contains it |
| BlockList.ExactBlockIsSubstringBlock | proxy/Proxy.ts:70 | on every list, a URL the earlier proxy blocks (equal to a key) is also blocked by the current proxy's containment test (src/proxy/Proxy.ts:33) |
| BlockList.ExactMatchMissesExtensions | proxy/Proxy.ts:70 | the converse fails: with exact matching, a disabled key does not block a longer URL that contains it, although containment does |
| BlockList.EnabledKeyNoLongerBlocks | src/proxy/Proxy.ts:61-69 | once its key is enabled again, a URL that no other disabled key occurs in is no longer blocked |
| ResponseBody.RewriteBody | src/proxy/Proxy.ts:121-137 | the rewrite fails exactly when a gzip body does not decompress; given round-tripping codecs, the delivered body reads as the modifier's output on the upstream text; the "no changes" warning is logged exactly when the modifier returned its input |
| ProxyEngine.Proxy.constructor | src/proxy/Proxy.ts:9-15 | a new proxy has no target, no proxy or server, no stray ports, and an empty block list, modifier map and watch map |
| ProxyEngine.Proxy.Target | src/proxy/Proxy.ts:17-28 | a URL that does not parse throws before any field changes; otherwise the target is set and a fresh, not yet listening proxy and server replace the old ones; the old server, if it listened, becomes a stray port; the lists and maps are kept |
| ProxyEngine.Proxy.Listen | src/proxy/Proxy.ts:44-50 | `listen` throws unless both a proxy and a server exist; then `httpSever.listen` throws when the server already listens, or when the port is outside 0..65535; otherwise the port is recorded |
| ProxyEngine.Proxy.DisableEndpoint | src/proxy/Proxy.ts:52-59 | the list becomes `Disabled(old, e)` and stays duplicate-free; the warning is logged exactly when `e` was already disabled |
| ProxyEngine.Proxy.EnableEndpoint | src/proxy/Proxy.ts:61-69 | the list becomes `RemoveFirst(old, e)`; `this` is returned exactly when `e` was disabled, and `undefined` otherwise |
| ProxyEngine.Proxy.AddResponseModifier | src/proxy/Proxy.ts:71-74 | the modifier replaces any earlier one for exactly this key; all other keys are kept |
| ProxyEngine.Proxy.ResolveWaitIfNeeded | src/proxy/Proxy.ts:142-148 | the resolvers called are exactly those of the watches whose key occurs in the URL |
| ProxyEngine.Proxy.HandleRequest | src/proxy/Proxy.ts:30-42 | a watch's resolver has been called afterwards exactly when it had been before or its key occurs in the URL, blocked request or not; the request is blocked exactly when some disabled key occurs in its URL, and is then answered 503 "Blocked"; otherwise it is forwarded while a proxy exists |
| ProxyEngine.Proxy.OnProxyResponse | src/proxy/Proxy.ts:102-139 | the upstream status is mirrored; the body is piped exactly when no modifier is registered for exactly this URL, and otherwise ends with the rewritten body |
| ProxyEngine.Proxy.WaitForEndpoint | src/proxy/Proxy.ts:76-87 | an already-watched key completes at once and changes nothing; a new key gets a fresh, unresolved signal |
| ProxyEngine.Proxy.SettleWatch | src/proxy/Proxy.ts:88-89 | a resolved watch deletes its entry; a timed-out watch rejects and leaves its entry in the map |
| ProxyEngine.Proxy.Close | src/proxy/Proxy.ts:92-100 | with no proxy, `close` only warns; otherwise it stops listening and clears the proxy, so a second `close` warns |
| ProxyEngine.Proxy.WaitForEndpointIntended | src/proxy/Proxy.ts:76-87 | corrected: a second watch on a key shares the pending signal instead of completing at once |
| ProxyEngine.Proxy.SettleWatchIntended | src/proxy/Proxy.ts:88-89 | corrected: the watch's entry is deleted however the race ends |
| ProxyEngine.TimedOutWatchCompletesLaterWatches | src/proxy/Proxy.ts:76-90 | as written, after a watch times out, the next watch on the same key completes at once |
| ProxyEngine.TimedOutWatchThenFreshWatch | src/proxy/Proxy.ts:76-90 | as intended, after a timeout the next watch on the key waits on a fresh, unresolved signal |
| ProxyEngine.SecondWatchDoesNotWait | src/proxy/Proxy.ts:78-81 | as written, a second watch on a watched key completes at once; as intended it waits on the first watch's unresolved signal |
| LegacyProxyEngine.Proxy.constructor | proxy/Proxy.ts:6-10 | a new proxy has no target, no proxy, no stray ports, and an empty block list and modifier map |
| LegacyProxyEngine.Proxy.Target | proxy/Proxy.ts:12-23 | a URL that does not parse throws before any field changes; otherwise the target is set and a fresh proxy replaces the old one, whose server, if it listened, becomes a stray port |
| LegacyProxyEngine.Proxy.Listen | proxy/Proxy.ts:25-31 | `listen` throws unless a proxy exists; otherwise every call puts a new server in place, the one listening before becomes a stray port, and the new one listens on the port, or throws and does not listen when the port is outside 0..65535 |
| LegacyProxyEngine.Proxy.DisableEndpoint | proxy/Proxy.ts:33-41 | the list becomes `Disabled(old, e)`; the warning is logged exactly when `e` was already disabled |
| LegacyProxyEngine.Proxy.EnableEndpoint | proxy/Proxy.ts:43-51 | the list becomes `RemoveFirst(old, e)`; `this` is returned exactly when `e` was disabled |
| LegacyProxyEngine.Proxy.AddResponseModifier | proxy/Proxy.ts:53-56 | the modifier replaces any earlier one for exactly this key |
| LegacyProxyEngine.Proxy.Close | proxy/Proxy.ts:58-65 | with no proxy, `close` only warns; otherwise it stops the server it holds now (stray ones keep listening) and clears the proxy |
| LegacyProxyEngine.Proxy.OnProxyResponse | proxy/Proxy.ts:67-115 | a URL equal to a disabled key is answered 503 "Blocked"; any other URL gets the upstream status; the body is piped exactly when the URL is neither blocked nor has a modifier; whenever a modifier is registered the end handler calls `end` with the rewritten body, after `end("Blocked")` on a blocked URL, where Node rejects it as a write after end |
| Registry.Lookup | src/trafficlight/TrafficLightClient.ts:30-32 | the dictionary `get` finds a callback exactly when the action has one, and then gives that callback |
| Registry.Register | src/trafficlight/TrafficLightClient.ts:16-21 | `on` throws "already specified" exactly when the action has a callback; otherwise `get` gives the new callback and every other action's entry is unchanged |
| Registry.Unregister | src/trafficlight/TrafficLightClient.ts:23-28 | `off` throws "not specified" exactly when the action has no callback; otherwise `get` gives `undefined` and every other action's entry is unchanged |
| Registry.OffThenOnSucceeds | src/trafficlight/TrafficLightClient.ts:16-28 | after a successful `off`, `on` for the same action succeeds |
| Registry.OnThenOffRestores | src/trafficlight/TrafficLightClient.ts:16-28 | `on` then `off` for a new action restores the registry |
| Registry.LookupAsWritten | src/trafficlight/TrafficLightClient.ts:30-32 | as written, `get` finds an inherited `Object.prototype` member exactly when the name is not an own key and is such a member |
| Registry.OnAsWritten | src/trafficlight/TrafficLightClient.ts:16-21 | as written, `on` throws exactly when the lookup finds anything, own or inherited; on success `get` gives the new callback |
| Registry.OffAsWritten | src/trafficlight/TrafficLightClient.ts:23-28 | as written, `off` throws exactly when the lookup finds nothing, own or inherited; on success `get` gives `undefined` and every other name looks up as before |
| Registry.OffOnInheritedName | src/trafficlight/TrafficLightClient.ts:23-28 | as written, `off("toString")` on a fresh map does not throw and lets `on("toString", cb)` succeed afterwards; the dictionary `off` throws "not specified" |
| Registry.ConstructorIsAlreadySpecified | src/trafficlight/TrafficLightClient.ts:12-32 | on a fresh map, `on("constructor", cb)` throws as written, and `get("toString")` is not `undefined`; with a plain dictionary neither happens |
| TrafficLight.ActionMap.constructor | src/trafficlight/TrafficLightClient.ts:12-14 | a new action map is empty |
| TrafficLight.ActionMap.On | src/trafficlight/TrafficLightClient.ts:16-21 | the map is updated as `Register` says, or left unchanged with the "already specified" error |
| TrafficLight.ActionMap.Off | src/trafficlight/TrafficLightClient.ts:23-28 | the map is updated as `Unregister` says, or left unchanged with the "not specified" error |
| TrafficLight.ActionMap.Get | src/trafficlight/TrafficLightClient.ts:30-32 | `get` gives a callback exactly when the action has one registered, and then the registered one |
| TrafficLight.ClientBaseUrl | src/trafficlight/TrafficLightClient.ts:116-118 | the URL is the server URL and "/client/", followed by a single path segment (no `/`) that percent-decodes to the uuid's UTF-8 bytes ("undefined" before registration) |
| TrafficLight.PollUrl | src/trafficlight/TrafficLightClient.ts:119-121 | the poll URL is the server URL, "/client/", a segment that percent-decodes to the uuid's UTF-8 bytes, then "/poll"; `TrafficLight.ClientUrls` shows it differs from the respond URL |
| TrafficLight.RespondUrl | src/trafficlight/TrafficLightClient.ts:123-125 | the respond URL is the server URL, "/client/", a segment that percent-decodes to the uuid's UTF-8 bytes, then "/respond" |
| TrafficLight.ClientUrls | src/trafficlight/TrafficLightClient.ts:116-125 | the poll and respond URLs differ; a uuid of unreserved characters appears in them verbatim, as `server/client/uuid/poll` |
| TrafficLight.Client.constructor | src/trafficlight/TrafficLightClient.ts:35-41 | a new client keeps the server URL and action map and has no uuid yet |
| TrafficLight.Client.Register | src/trafficlight/TrafficLightClient.ts:43-61 | the uuid is stored before the registration is posted, so it stays even when a status other than 200 makes the call throw |
| TrafficLight.Client.Start | src/trafficlight/TrafficLightClient.ts:63-106 | the loop posts what `Run` gives for this client's callbacks, invoked with the poll data |
| PollLoop.Settle | src/trafficlight/TrafficLightClient.ts:84-103 | a thrown callback posts "error"; a returned value is posted exactly when it is truthy, and then as it is |
| PollLoop.Decide | src/trafficlight/TrafficLightClient.ts:72-84 | the loop stops exactly on "exit"; it skips exactly when the action is not "exit" and has no callback; otherwise the callback's outcome decides |
| PollLoop.Run | src/trafficlight/TrafficLightClient.ts:63-106 | no more results are posted than polls were read, every posted result is non-empty, the loop only ends by exiting when some poll said "exit", and a failed poll or respond post carries a status other than 200 |
| PollLoop.RunOverMoreReplies | src/trafficlight/TrafficLightClient.ts:63-106 | replies after the one that ends the loop are never read; if the replies run out first, the loop continues over further replies after what it has posted, so results accumulate poll by poll |
| PollLoop.Drive | src/trafficlight/TrafficLightClient.ts:63-106 | the `while (!shouldExit)` loop produces exactly the transcript `Run` specifies |
| LegacyTrafficLight.PollUrl | trafficlight/TrafficLightClient.ts:105-107 | the poll URL is exactly the server URL followed by "/poll" |
| LegacyTrafficLight.RespondUrl | trafficlight/TrafficLightClient.ts:109-111 | the respond URL is exactly the server URL followed by "/respond" |
| LegacyTrafficLight.ServerUrls | trafficlight/TrafficLightClient.ts:105-111 | the poll and respond URLs are the server URL plus "/poll" and "/respond", with no client identity, and they differ |
| LegacyTrafficLight.Client.constructor | trafficlight/TrafficLightClient.ts:34-39 | a new client has no actions |
| LegacyTrafficLight.Client.On | trafficlight/TrafficLightClient.ts:14-19 | the actions are updated as `Register` says, or left unchanged with the "already specified" error |
| LegacyTrafficLight.Client.Off | trafficlight/TrafficLightClient.ts:22-27 | the actions are updated as `Unregister` says, or left unchanged with the "not specified" error |
| LegacyTrafficLight.Client.Get | trafficlight/TrafficLightClient.ts:29-31 | `get` gives a callback exactly when the action has one registered, and then the registered one |
| LegacyTrafficLight.Client.Start | trafficlight/TrafficLightClient.ts:61-103 | the loop posts what `Run` gives when each callback is invoked with the action name and the data |
| NetworkProxy.Reply | src/trafficlight/NetworkProxyTrafficClient.ts:15-33 | exactly the `proxyTo`, `disableEndpoint` and `enableEndpoint` callbacks return a truthy result |
| NetworkProxy.Replacer | src/trafficlight/NetworkProxyTrafficClient.ts:47-50 | a body without the homeserver URL followed by "/" is returned unchanged |
| NetworkProxy.ReplacerRewritesBaseUrl | src/trafficlight/NetworkProxyTrafficClient.ts:47-50 | a body that contains the homeserver URL followed by "/" once comes back with the proxy URL in its place and nothing else changed |
| NetworkProxy.HookedReplies | src/trafficlight/NetworkProxyTrafficClient.ts:14-34 | "proxyTo" posts "proxyToSet"; "disableEndpoint" and "enableEndpoint" both post "endpointDisabled"; a missing argument posts "error"; "idle" posts nothing; "exit" stops the loop |
| NetworkProxy.HookActionsToMethods | src/trafficlight/NetworkProxyTrafficClient.ts:14-34 | registering the five callbacks on an empty map never throws and leaves exactly the five hooked actions |
| NetworkProxy.Client.constructor | src/trafficlight/NetworkProxyTrafficClient.ts:8-34 | the action map holds exactly the five hooked actions, and there is no proxy yet |
| NetworkProxy.Client.CreateProxy | src/trafficlight/NetworkProxyTrafficClient.ts:42-58 | a missing or empty URL throws before any proxy is built, and an invalid URL throws too, both leaving `this.proxy` as it was; otherwise a fresh proxy targets the URL, listens on the proxy URL's port, blocks nothing, has no watches, and has the replacer on exactly the three login and well-known keys |
| NetworkProxy.Client.DisableEndpoint | src/trafficlight/NetworkProxyTrafficClient.ts:60-65 | a missing or empty endpoint throws without touching the proxy; with no proxy the call is a TypeError; otherwise the proxy's block list becomes `Disabled(old, endpoint)` and every other field of the proxy stays |
| NetworkProxy.Client.EnableEndpoint | src/trafficlight/NetworkProxyTrafficClient.ts:67-72 | a missing or empty endpoint throws without touching the proxy; with no proxy the call is a TypeError; otherwise the proxy's block list becomes `RemoveFirst(old, endpoint)` and every other field of the proxy stays |
| NetworkProxy.Client.ExitProxy | src/trafficlight/NetworkProxyTrafficClient.ts:74-76 | `exit` is a TypeError with no proxy; otherwise the proxy is closed (no `httpProxy`, and not listening when it had one) while its block list, modifiers and watches stay |
| NetworkProxy.Client.Invoke | src/trafficlight/NetworkProxyTrafficClient.ts:14-76 | a callback throws exactly under its guard's condition, and otherwise resolves to its entry in the reply table; a throw or "idle" leaves the proxy as it was, "proxyTo" installs a fresh proxy serving the URL, "disableEndpoint" and "enableEndpoint" change only the block list of the same proxy, and "exit" closes it |
| NetworkProxy.Client.HandlePoll | src/trafficlight/TrafficLightClient.ts:72-103 | one iteration of this client's loop takes the step `Expected` gives; on "exit" or a name with no registered callback (looked up as a dictionary) the proxy is left untouched, still listening; a known action has exactly its callback's effect on the proxy |

## Left out

- Sockets and HTTP are not modelled: `http.createServer`, `http-proxy`, `httpProxy.web`, header copying, and the `data`/`end` events of the upstream body. A request is its URL, and a response handler is the list of actions it performs.
- ProxyEngine.Proxy.Listen: a port that another server already uses is not modelled, because Node reports EADDRINUSE later, as an `error` event, not as a throw from `listen`.
- LegacyProxyEngine.Proxy.Listen: the same EADDRINUSE case is not modelled; a stray server and the new one on the same port are both recorded as listening.
- WHATWG URL parsing is a parameter (`urlParses`), and so is `parseInt(proxyURL.port)`: the port is given as a number in 0..65535, as a parsed URL's port is. The `NaN` of an empty port, which `listen` would reject, is not modelled.
- NetworkProxy.Client.CreateProxy: a second "proxyTo" without an "exit" in between replaces a proxy that is never closed and still listens on the same port, so the new server's `listen` fails with EADDRINUSE, reported as an `error` event that nothing handles. The model records the new proxy as listening.
- NetworkProxy.Client.constructor: the `new URL(proxyURL)` that throws on a malformed proxy URL is not modelled; a client is built from the already parsed URL and port.
- TrafficLight.ActionMap.On: uses the plain dictionary of `Registry.Register`. As written, the object literal at src/trafficlight/TrafficLightClient.ts:13 also finds names inherited from `Object.prototype`, so `on("constructor", cb)` throws "already specified"; `Registry.OnAsWritten` states that behaviour.
- TrafficLight.ActionMap.Off: uses the plain dictionary of `Registry.Unregister`. As written, `off("toString")` does not throw and stores an own `undefined`; `Registry.OffAsWritten` states that behaviour.
- TrafficLight.ActionMap.Get: uses the plain dictionary of `Registry.Lookup`. As written, `get("toString")` returns a function; `Registry.LookupAsWritten` states that behaviour.
- TrafficLight.Client.Start: its invoker skips every name without a registered callback, where the code as written would call an inherited `Object.prototype` member such as `toString`. The callback's second argument, the client itself, is not modelled.
- LegacyTrafficLight.Client.On: the same dictionary semantics as `TrafficLight.ActionMap.On`; the earlier `ActionMap` at trafficlight/TrafficLightClient.ts:12 is also an object literal, so as written `on("constructor", cb)` throws.
- LegacyTrafficLight.Client.Off: the same dictionary semantics as `TrafficLight.ActionMap.Off`; as written `off("toString")` does not throw.
- LegacyTrafficLight.Client.Get: the same dictionary semantics as `TrafficLight.ActionMap.Get`; as written `get("toString")` returns a function.
- LegacyTrafficLight.Client.Start: like `TrafficLight.Client.Start`, its invoker skips names that the code as written would find on `Object.prototype` and call.
- gzip, gunzip and the Buffer text conversions are a `Codec` parameter. Their round trips are hypotheses of `RewriteBody`'s contract.
- Timers are discrete events: `setTimeout` and `Promise.race` become `WaitForEndpoint` followed by `SettleWatch`, and `WatchTimeoutError` is the `TimedOut` outcome.
- `fetch`, JSON encoding and decoding, `crypto.randomUUID` and `console` output are left out. A warning appears only as a returned flag.
- The 5-second wait of the "idle" callback is left out; it resolves to `undefined` at once.
- The request delay feature is left out, because neither proxy class defines `addResponseDelay` or `responseDelayDefault`.
- `src/standalone.ts`, `src/server.ts` and `app.ts` only wire the environment together and are not part of this model.
- NetworkProxy.Client.HandlePoll models one iteration only. The loop over a stateful client is not composed, because `PollLoop.Run` takes callbacks as pure functions. The step for a name inherited from `Object.prototype` follows the dictionary `Get` and skips it, where the code as written would call the inherited member (`Registry.LookupAsWritten`): `"toString"` posts `"[object Undefined]"`, and `"hasOwnProperty"` throws, so `"error"` is posted.
- Strings are sequences of Unicode scalar values, not UTF-16 code units. Lone surrogates cannot occur, so the `URIError` that `encodeURIComponent` throws on them is not modelled.
- `__proto__` as an action name is left out of `Registry.InheritedMembers`, because assigning it replaces the prototype.
- Poll data is a string-to-string map. An absent `data` object, whose property read would throw a TypeError, is not modelled.

## Findings

| source | as written | input that shows it | evidently intended | confidence | as-written member | corrected member |
|---|---|---|---|---|---|---|
| src/trafficlight/TrafficLightClient.ts:12-32 | `actions` is an object literal, so `on` and `get` also see members inherited from `Object.prototype` | `on("constructor", cb)` on a fresh map throws "already specified"; `get("toString")` returns a function, so the poll loop calls it instead of skipping the unknown action | a plain dictionary of registered actions | high (not executed) | Registry.ConstructorIsAlreadySpecified | Registry.Register |
| src/trafficlight/TrafficLightClient.ts:23-28 | `off` tests truthiness, so an inherited name passes | `off("toString")` on a fresh map does not throw; it stores an own `undefined` | `off` throws "not specified" for every name that has no registered callback | high (not executed) | Registry.OffOnInheritedName | Registry.Unregister |
| trafficlight/TrafficLightClient.ts:11-32 | the earlier `ActionMap` is the same object literal, with the same `on`, `off` and `get` | `on("constructor", cb)` throws; `off("toString")` passes; `get("toString")` returns a function | a plain dictionary of registered actions | high (not executed) | Registry.ConstructorIsAlreadySpecified | Registry.Register |
| src/proxy/Proxy.ts:88-89 | when the timeout wins the race, `await` throws and the `delete` never runs, so the entry stays | `waitForEndpoint(k)` times out; the next `waitForEndpoint(k)` completes at once with no request to `k` | the entry is removed however the race ends | high (not executed) | ProxyEngine.TimedOutWatchCompletesLaterWatches | ProxyEngine.TimedOutWatchThenFreshWatch |
| src/proxy/Proxy.ts:78-81 | a second watch on a key returns the stored resolver, so it completes at once | two `waitForEndpoint(k)` calls with no request in between: the second completes at once | the second watch waits for the same hit as the first | medium (not executed) | ProxyEngine.SecondWatchDoesNotWait | ProxyEngine.Proxy.WaitForEndpointIntended |
