# ClawAvatar exchange layer, modelled in Dafny

ClawAvatar relays expressive cues between an agent gateway and a desktop avatar. The model
covers the layer that carries them, in four parts:

- **The gateway plugin.**
  - A session registry keyed by session key. It holds one negotiated profile per session and a
    bounded per-session event queue: `hello`, `goodbye`, profile lookup with the runtime
    fallback, destructive `pull`, `emitFromTool` with capability downgrade, and drop-oldest
    `enqueueEvent`.
  - The gateway handlers around the registry: `avatar.hello`, `avatar.goodbye`,
    `avatar.status` and `avatar.pull`, plus the context block added before an agent starts.
  - The `avatar_express` tool.
- **The desktop connection manager.**
  - Its pure helpers: capability lists, the device token, base64url as in section 5 of
    RFC 4648, scope splitting, the protocol range, and the pipe-joined device-auth payload.
  - Its bookkeeping: the pending-request table, the connect-once handshake, the hello and the
    goodbye, the single-flight pull loop, and the bounded list of event ids already seen.
- **The browser client.** It connects, closes and reconnects with a growing delay, and parses
  incoming frames.
- **The front end's state.** The protocol reducer, the store built on it, the mapping from
  state to animation parameters with its per-frame smoothing, and the translation of
  connection-manager events into render messages.

Each source file becomes one module:

- `AvatarRegistry` (avatar_state.dfy)
- `AvatarTool`
- `Gateway`
- `PluginHelpers`
- `PluginClientModel`
- `WsClient`
- `Simulate`
- `AppState`
- `Mapping`
- `PluginHook`

Five modules are shared by the others:

- `Options`
- `Text`: JavaScript's `trim`, ASCII lower-casing, `join`, `split` and decimal digits.
- `Js`: JavaScript values, as numbers with NaN and the infinities, strings, booleans, arrays,
  and objects as property lists in enumeration order.
- `Dedup`: the first-seen de-duplication both capability normalisers share.
- `Base64Url`.

The model takes each source file's own form:

- **Registry.** `AvatarState` is a class whose `profiles` and `events` maps its methods
  reassign. Its list normalisers are loops checked against functions.
- **Connection manager.** `PluginClient` is a class whose fields are the manager's grouped
  state. Each handler's effect is a function on that state. Validity is proved of the
  functions and kept by the methods.
- **Browser client.** `AvatarWsClient` is a class over the closure's variables. Its sockets
  and timers are numbered handles, so events from a socket or timer that has been let go can
  be told apart.
- **Pure files.** The reducer, mapping and translation are functions and lemmas.

Randomness, the clock, `parseFloat`, `Number(...)` and `JSON.parse` are parameters. A failed
socket write is an optional failure reason passed to the operation that writes.

## Model

| member | source | states |
|---|---|---|
| AvatarRegistry.NormalizeStringList | extensions/avatar/src/avatar-state.ts:67-83 | The loop returns exactly the specification list of capability names. |
| AvatarRegistry.CapabilityListShape | extensions/avatar/src/avatar-state.ts:67-83 | A capability list has no blanks and no duplicates, and every entry is trimmed and lower-case. A name is in it exactly when some string in the input array normalises to it. A non-array gives the empty list. |
| AvatarRegistry.CapabilityNameIdempotent | extensions/avatar/src/avatar-state.ts:76 | Trimming and lower-casing a name twice gives what doing it once gives, and the result is trimmed. |
| Dedup.NormalizedMembers | extensions/avatar/src/avatar-state.ts:67-83 | First-seen de-duplication gives distinct non-empty names. They are exactly the normalised forms of the input's strings. |
| Dedup.NormalizedOrder | extensions/avatar/src/avatar-state.ts:67-83 | The list built from a prefix of the input is a prefix of the whole list, so names keep their first-seen order. |
| Dedup.NormalizedFixed | electron/avatarPlugin.mjs:32-41 | A list that is already distinct, non-empty and normalised comes back unchanged. |
| AvatarRegistry.NormalizeFallback | extensions/avatar/src/avatar-state.ts:85-99 | The loop builds exactly the specification fallback map. That is the table of usable entries, minus `__proto__`, which the plain object's prototype setter never stores. |
| AvatarRegistry.ProtoEntryDropped | extensions/avatar/src/avatar-state.ts:89-96 | An entry keyed `__proto__` with a non-blank target is usable, yet the table stores nothing for it. |
| AvatarRegistry.ProtoFallbackIgnored | extensions/avatar/src/avatar-state.ts:303-317 | An unoffered action `__proto__` never maps through the table. It becomes the first offered action and is recorded as downgraded, or is dropped when there is none. |
| AvatarRegistry.FallbackOfShape | extensions/avatar/src/avatar-state.ts:85-99 | Every key and value of the fallback map is a normalised name. Every usable entry of the input has its normalised key in the map. |
| AvatarRegistry.FallbackLastWins | extensions/avatar/src/avatar-state.ts:91-96 | When a key's normalised form repeats, the last usable entry decides its value. |
| AvatarRegistry.FallbackEntryNormalized | extensions/avatar/src/avatar-state.ts:91-96 | A non-empty key or target of one fallback entry is trimmed, lower-case and non-blank. |
| AvatarRegistry.NormalizeSessionKey | extensions/avatar/src/avatar-state.ts:101-107 | A non-blank string gives its trimmed form. Anything else gives `"main"`. The result is never empty and is trimmed. |
| AvatarRegistry.SessionKeyIdempotent | extensions/avatar/src/avatar-state.ts:101-107 | Normalising a normalised session key changes nothing. |
| AvatarRegistry.NormalizeAvatarId | extensions/avatar/src/avatar-state.ts:109-115 | A non-blank string gives its trimmed form, anything else the default avatar id. |
| AvatarRegistry.NormalizeConnectionId | extensions/avatar/src/avatar-state.ts:117-123 | A non-blank string gives its trimmed form, anything else `avatar-` followed by the fresh UUID. |
| AvatarRegistry.NormalizeViseme | extensions/avatar/src/avatar-state.ts:125-139 | A non-object gives nothing. `supported` holds exactly when the input is `true`. The mode is manual exactly when supported and the input mode is `"manual"`. |
| Js.ClampNum | extensions/avatar/src/avatar-state.ts:141-146 | The result lies within the bounds. A finite number inside them is kept, and one outside goes to the nearer bound. NaN and minus infinity give the lower bound, plus infinity the upper. |
| Js.Trunc | extensions/avatar/src/avatar-state.ts:245 | Truncation moves toward zero by less than one. |
| AvatarRegistry.AvatarState.constructor | extensions/avatar/src/avatar-state.ts:148-152 | A new registry has no profiles, no queues and the given queue limit. |
| AvatarRegistry.HelloProfileWellFormed | extensions/avatar/src/avatar-state.ts:154-189 | The negotiated profile's capabilities are well-formed lists. Its key is the normalised session key, and its negotiation and last-seen times are both now. |
| AvatarRegistry.AvatarState.Hello | extensions/avatar/src/avatar-state.ts:154-189 | The profile for the normalised key is replaced. Every other profile and every queue is unchanged. The ack carries the profile's ids, the protocol version, the accepted capabilities and the time. |
| AvatarRegistry.AvatarState.Goodbye | extensions/avatar/src/avatar-state.ts:191-205 | It removes exactly when a profile exists and a non-blank connection id, if given, matches the stored one after trimming. A removal deletes the profile and the queue. Otherwise nothing changes. |
| AvatarRegistry.AvatarState.GetProfile | extensions/avatar/src/avatar-state.ts:207-215 | A profile is found exactly when one exists for the normalised key. It is returned with its last-seen time set to now, and only that field of that profile changes. |
| AvatarRegistry.ResolveRuntimeSpec | extensions/avatar/src/avatar-state.ts:217-237 | Resolution tries the exact key, then `"main"`, then the only profile when exactly one exists. It finds nothing exactly when all three fail. |
| AvatarRegistry.SoleKeyUnique | extensions/avatar/src/avatar-state.ts:229-234 | In a one-entry map, the key present is the only key. |
| AvatarRegistry.AvatarState.ResolveKey | extensions/avatar/src/avatar-state.ts:217-237 | The key the lookup settles on is the specification resolution, and it is a key of the registry. |
| AvatarRegistry.AvatarState.GetProfileForRuntime | extensions/avatar/src/avatar-state.ts:217-237 | A profile is found exactly when resolution succeeds. The resolved profile is returned touched, and queues are untouched. |
| AvatarRegistry.TouchKeepsShape | extensions/avatar/src/avatar-state.ts:213 | Touching a profile keeps the set of keys and every profile's key and capabilities. |
| AvatarRegistry.PullLimit | extensions/avatar/src/avatar-state.ts:239-246 | The limit is in [1, 200]. A non-number gives 20. A number gives its truncation clamped to [1, 200]. NaN and minus infinity give 1, plus infinity 200. |
| AvatarRegistry.AvatarState.Pull | extensions/avatar/src/avatar-state.ts:239-248 | It returns the first min(limit, queue length) events. Those events followed by the remaining queue are the old queue. Other queues and all profiles are unchanged. |
| AvatarRegistry.AvatarState.PendingCount | extensions/avatar/src/avatar-state.ts:250-253 | The count is the length of the session's queue: never above the queue limit, and zero for an unknown session. |
| AvatarRegistry.EnqueuedSpec | extensions/avatar/src/avatar-state.ts:357-364 | After a push the queue is the last min(length + 1, limit) events of old queue plus event, and it ends with the new event. |
| AvatarRegistry.EnqueuedFits | extensions/avatar/src/avatar-state.ts:357-364 | A push keeps a queue within its limit and holding only its own session's events. |
| AvatarRegistry.EnqueueAllKeepsLast | extensions/avatar/src/avatar-state.ts:357-364 | Any run of pushes leaves exactly the last `limit` events of everything pushed. |
| AvatarRegistry.OverflowScenario | extensions/avatar/src/avatar-state.ts:357-364 | Pushing 130 events into a 128-event queue keeps the last 128: the first two are dropped. |
| AvatarRegistry.AvatarState.EnqueueEvent | extensions/avatar/src/avatar-state.ts:357-364 | Only the session's queue changes, and it becomes the drop-oldest push of the event. |
| AvatarRegistry.DowngradeEmotion | extensions/avatar/src/avatar-state.ts:291-301 | An offered or blank emotion passes unchanged. An unoffered one becomes `neutral` when that is offered, else the first offered emotion when it is non-empty, else it is dropped. It is recorded as downgraded exactly when a substitute exists. A non-empty result is always offered. |
| AvatarRegistry.DowngradeAction | extensions/avatar/src/avatar-state.ts:303-317 | An offered or blank action passes unchanged. An unoffered one goes to its fallback when that is a non-empty offered action, else to the first action when it is non-empty, else it is dropped. It is recorded as downgraded exactly when a substitute exists. A non-empty result is always offered. |
| AvatarRegistry.ToolOutcomeSpec | extensions/avatar/src/avatar-state.ts:282-354 | The event carries the resolved key, the tool source, the time and the requested key. Its emotion and action are offered ones. Intensity is in [0, 1] and present exactly for a finite input; duration likewise, in [200, 5000]. The downgrade record names only the unoffered requests. |
| AvatarRegistry.ToolOutcomeFields | extensions/avatar/src/avatar-state.ts:283-344 | A finite intensity inside [0, 1] is kept, above it becomes 1 and below it 0. A finite duration inside [200, 5000] is truncated, above it becomes 5000 and below it 200. The emotion and action are the two downgrade choices, and the record is present exactly when either downgraded. |
| AvatarRegistry.DowngradeScenario | extensions/avatar/src/avatar-state.test.ts:38-72 | An unoffered emotion with `neutral` offered becomes neutral. An unoffered action with an offered fallback becomes the fallback. Intensity 2 becomes 1, duration 9000 becomes 5000, and both originals are recorded. |
| AvatarRegistry.AvatarState.EmitFromTool | extensions/avatar/src/avatar-state.ts:255-355 | With no runtime profile it rejects as unavailable with the key and changes nothing. Otherwise it touches the resolved profile and appends its outcome event, drop-oldest, to that session's queue. |
| AvatarTool.AsObject | extensions/avatar/src/avatar-tool.ts:19-24 | The result is always a plain object. It is the input when that is one, and it reads every key the way the input does. |
| AvatarTool.ReadOptionalString | extensions/avatar/src/avatar-tool.ts:26-33 | A value is present exactly when the field is a non-blank string, and it is that string trimmed. |
| AvatarTool.ReadOptionalNumber | extensions/avatar/src/avatar-tool.ts:35-47 | A finite number is taken as is; a string is taken when its trimmed form parses finite. Anything else gives nothing. |
| AvatarTool.ToolRequestSpec | extensions/avatar/src/avatar-tool.ts:77-93 | The session is the trimmed payload key, else the normalised context key. Emotion and action, when present, are non-blank inputs lower-cased. Numbers are finite, and the call id is passed on. |
| AvatarTool.ToolRequestKey | extensions/avatar/src/avatar-tool.ts:78-79 | The key the tool asks for is already a normalised session key. |
| AvatarTool.CapabilityRead | extensions/avatar/src/avatar-tool.ts:80-81 | A requested emotion or action is a normalised capability name read from a non-blank field. |
| AvatarTool.DetailsOf | extensions/avatar/src/avatar-tool.ts:95-115 | A rejection is reported as not accepted, with the registry's reason, key and the handshake hint. An acceptance carries the registry's key, event and downgrade record unchanged. |
| AvatarTool.Execute | extensions/avatar/src/avatar-tool.ts:76-116 | The tool's result and the registry's new state are exactly those of `emitFromTool` on the request, decline included. |
| Gateway.ParseConfig | extensions/avatar/index.ts:36-46 | The plugin is enabled unless `enabled` is `false`. The queue limit is in [16, 2048]: 128 for a missing or non-finite value, else the truncation clamped. |
| Gateway.SharedSlot.constructor | extensions/avatar/index.ts:17-27 | The global slot starts empty. |
| Gateway.SharedSlot.Shared | extensions/avatar/index.ts:17-27 | Once created, the same registry comes back on every call and the first queue limit is kept. The first call creates a fresh, empty registry with the given limit. |
| Gateway.SharedSlot.Reset | extensions/avatar/index.ts:29-34 | Reset discards the registry and its limit. |
| Gateway.Plugin.constructor | extensions/avatar/index.ts:66-68 | Registration parses the config and takes the shared registry, created with the config's limit if there was none. |
| Gateway.Plugin.HandleHello | extensions/avatar/index.ts:70-96 | A disabled plugin, or capabilities that are not a plain object, give `ok: false` with the source's message and change nothing. Otherwise the response is the registry's ack, and only that session's profile changes. |
| Gateway.Plugin.HandleGoodbye | extensions/avatar/index.ts:98-104 | The response is always `ok: true` with the registry's `removed` result. The registry changes as `goodbye` says. |
| Gateway.Plugin.HandleStatus | extensions/avatar/index.ts:106-115 | The key is normalised. `connected` holds exactly when a profile exists, and that profile is returned touched. `pendingEvents` is the queue length. Profiles change only by the touch, and queues are unchanged. |
| Gateway.ForwardedMax | extensions/avatar/index.ts:119 | Only a number is forwarded as `max`, and the limit it yields equals the limit of the raw field. |
| Gateway.Plugin.HandlePull | extensions/avatar/index.ts:117-126 | The events are the queue's first min(limit, length). `pendingEvents` is what remains after the pull. Only that session's non-empty queue changes, to its remainder. Profiles are unchanged. |
| Gateway.Plugin.RunTool | extensions/avatar/index.ts:128-137 | A disabled plugin registers no tool and changes nothing. An enabled one declines exactly when no runtime profile exists. |
| Gateway.ContextLines | extensions/avatar/index.ts:152-163 | The context block has ten lines. |
| Gateway.ContextLinesSpec | extensions/avatar/index.ts:148-163 | The block is wrapped in the capability tags, and names the session, the avatar, and the emotions and actions joined by `", "` or `(none)`. |
| Gateway.ListOrNoneSpec | extensions/avatar/index.ts:149-150 | An empty list reads `(none)`. A non-empty one reads as its comma-joined names, which start with the first name. |
| Gateway.EmotionLineExample | extensions/avatar/index.test.ts:90-94 | Emotions `happy` and `neutral` appear as `available_emotions: happy, neutral`. |
| Gateway.Plugin.BeforeAgentStart | extensions/avatar/index.ts:139-165 | Nothing is added when the plugin is disabled or no runtime profile exists. Otherwise the context is the block for the resolved profile joined by newlines, and that profile is touched. |
| PluginHelpers.DefaultsAnnounceable | electron/avatarPlugin.mjs:22-30 | The default emotions and actions are distinct, non-empty and trimmed. |
| PluginHelpers.NormalizeList | electron/avatarPlugin.mjs:32-41 | The loop returns exactly the specification list. |
| PluginHelpers.TrimmedListShape | electron/avatarPlugin.mjs:32-41 | The list has no blanks and no duplicates, and each entry is trimmed, with case kept. An entry is in it exactly when an input string trims to it. A non-array gives the empty list. |
| PluginHelpers.NormalizeCapabilitiesSpec | electron/avatarPlugin.mjs:43-69 | A non-object gives the defaults. Empty emotion or action lists fall back to the defaults, and the default fallback keys are always present. An object viseme gives `supported` as the truthiness of its flag and `mode` as its string mode, else `auto`. Otherwise the viseme is supported and automatic. |
| PluginHelpers.FallbackOverride | electron/avatarPlugin.mjs:45-51 | An input fallback entry whose key does not repeat later overrides the default. |
| PluginHelpers.FallbackFromArray | electron/avatarPlugin.mjs:45-51 | An array spread into the fallback contributes its indices, in decimal, as keys. |
| PluginHelpers.FallbackDefaultKept | electron/avatarPlugin.mjs:45-51 | A default entry the input does not name keeps its default value. |
| PluginHelpers.SpreadKeys | electron/avatarPlugin.mjs:45-51 | An object spread has exactly the old keys and the spread properties' keys. |
| PluginHelpers.SpreadLastWins | electron/avatarPlugin.mjs:45-51 | In a spread, the last occurrence of a key decides its value. |
| PluginHelpers.ExtractDeviceToken | electron/avatarPlugin.mjs:71-78 | The trimmed non-blank `auth.deviceToken` wins, then `helloOk.auth.deviceToken`. Otherwise null. |
| Base64Url.EncodeAlphabet | electron/avatarPlugin.mjs:80-83 | The encoding is standard base64 with `+` and `/` replaced, and contains no `=`, `+` or `/`. Its length is the unpadded base64 length. |
| Base64Url.PadAgrees | electron/avatarPlugin.mjs:84-88 | The decoder's `(4 - len % 4) % 4` pad restores the padding the encoder stripped. |
| Base64Url.StdBodyDecodes | electron/avatarPlugin.mjs:80-88 | Standard base64 decoding inverts standard base64 encoding. |
| Base64Url.RoundTrip | electron/avatarPlugin.mjs:80-88 | Decoding an encoded byte string gives it back. |
| PluginHelpers.SplitScopes | electron/avatarPlugin.mjs:90-97 | The scopes are never empty, and each is non-empty and trimmed. Anything but a non-empty string gives the default scopes. |
| PluginHelpers.SplitScopesJoin | electron/avatarPlugin.mjs:90-97 | Splitting a comma-joined list of clean scopes gives the list back. |
| PluginHelpers.ParsePositiveInt | electron/avatarPlugin.mjs:99-103 | A finite number of at least 1 gives its floor. Anything else gives the fallback. |
| PluginHelpers.ProtocolRange | electron/avatarPlugin.mjs:177-179 | The minimum is the parsed minimum. The maximum is the parsed maximum, raised to the minimum when it is below it. |
| PluginHelpers.BuildDeviceAuthPayload | electron/avatarPlugin.mjs:116-140 | The payload starts with `v2` when a nonce is present and with `v1` otherwise. |
| PluginHelpers.DeviceAuthFieldsRecovered | electron/avatarPlugin.mjs:116-140 | With no `\|` in the inputs, splitting the payload on `\|` gives back each field in order, and the nonce exactly in version 2. |
| PluginClientModel.PluginClient.constructor | electron/avatarPlugin.mjs:164-209 | A new client has no socket, no pending requests, a counter of 1, the default capabilities and the parsed protocol range. |
| PluginClientModel.PluginClient.SetError | electron/avatarPlugin.mjs:226-230 | The phase becomes failed with the message as last error. Nothing else changes. |
| PluginClientModel.PluginClient.SetCapabilities | electron/avatarPlugin.mjs:344-351 | The capabilities are normalised. The hello is re-sent exactly when the socket is open and the handshake done. |
| PluginClientModel.SendGate | electron/avatarPlugin.mjs:354-359 | A request passes exactly when the socket is open and either the handshake is complete or the method is `connect`. |
| PluginClientModel.SendFresh | electron/avatarPlugin.mjs:353-393 | A refused request changes nothing. Otherwise the counter grows by one under a fresh id. A write that succeeds registers exactly one pending entry and frame; a failed write registers none. |
| PluginClientModel.PluginClient.SendReq | electron/avatarPlugin.mjs:353-393 | The new state and the outcome are those of the specification send. |
| PluginClientModel.IdForInjective | electron/avatarPlugin.mjs:360 | The id `method-seq` determines both the method and the sequence number. |
| PluginClientModel.SendKeepsValid | electron/avatarPlugin.mjs:353-393 | A non-connect send keeps the request table well numbered and the connect bookkeeping intact. |
| PluginClientModel.RemoveOnce | electron/avatarPlugin.mjs:412-414 | Removing an id keeps the table well numbered and leaves no entry with that id. |
| PluginClientModel.FindPending | electron/avatarPlugin.mjs:412 | A pending entry is found exactly when one has the id, and it is that entry. |
| PluginClientModel.ErrorReason | electron/avatarPlugin.mjs:419-426 | The reason is `error.message`, else a string `error`, else `payload.reason`, else the default reason. |
| PluginClientModel.SettlementOf | electron/avatarPlugin.mjs:416-432 | A reply settles its id. It resolves exactly when `ok` is `true`, with the payload or null; otherwise it rejects with the error reason. |
| PluginClientModel.RepliedSettlesOnce | electron/avatarPlugin.mjs:395-434 | A reply to a pending id removes that entry once and records one settlement, and replaying it changes nothing. A reply to an unknown id changes nothing. |
| PluginClientModel.PluginClient.HandleIncoming | electron/avatarPlugin.mjs:395-434 | The new state is the specification handling of the frame, and validity is kept. |
| PluginClientModel.PluginClient.Timeout | electron/avatarPlugin.mjs:369-372 | Only the request table changes, by the specification timeout. |
| PluginClientModel.TimedOutOnce | electron/avatarPlugin.mjs:369-372 | A timeout removes its entry and settles it once, does nothing for a settled id, and is idempotent. |
| PluginClientModel.RejectAll | electron/avatarPlugin.mjs:542-545 | Tearing down rejects every pending entry in order, with the given reason. |
| PluginClientModel.PluginClient.RejectPending | electron/avatarPlugin.mjs:749-752 | Only the request table changes: every entry is rejected and the table is emptied. |
| PluginClientModel.PluginClient.BeginOpen | electron/avatarPlugin.mjs:443-462 | Opening first runs the corrected disconnect, then starts a fresh socket in the connecting phase. |
| PluginClientModel.ReopenGoodbye | electron/avatarPlugin.mjs:445 | Reopening a handshaken open socket sends no frame as written, and only the goodbye with the corrected disconnect. |
| PluginClientModel.OpenedValid | electron/avatarPlugin.mjs:443-462 | Opening keeps validity, and no connect frame has been sent on the new socket. |
| PluginClientModel.PluginClient.SendConnectOnce | electron/avatarPlugin.mjs:481-511 | The connect is sent on the first call only, and later calls return nothing. |
| PluginClientModel.ConnectOnceValid | electron/avatarPlugin.mjs:481-511 | Sending the connect keeps validity. |
| PluginClientModel.ConnectSentOnce | electron/avatarPlugin.mjs:481-511 | At most one connect frame is sent per socket, and a second attempt changes nothing. |
| PluginClientModel.PluginClient.OnSocketMessage | electron/avatarPlugin.mjs:513-531 | A challenge stores its trimmed nonce, if any, and triggers the connect once. Any other frame is handled as a reply. |
| PluginClientModel.PluginClient.OnOpen | electron/avatarPlugin.mjs:533-536 | The open event of the connecting socket marks it open and sends the connect once. An event from any other socket changes nothing. |
| PluginClientModel.PluginClient.OnClose | electron/avatarPlugin.mjs:538-549 | A close with a live socket rejects and clears every pending entry and stops the pull loop. It records the drop unless the close was intentional. With no socket, nothing changes. |
| PluginClientModel.ClosedRejectsAll | electron/avatarPlugin.mjs:538-549 | After the close the table is empty, every old entry is rejected with the closed reason, and the phase is failed exactly for an unintentional close. |
| PluginClientModel.PluginClient.OnError | electron/avatarPlugin.mjs:551-554 | A socket error is recorded with its message or the default text. |
| PluginClientModel.PluginClient.AfterConnect | electron/avatarPlugin.mjs:566-574 | An accepted connect marks the handshake done and sends the hello. |
| PluginClientModel.HelloAdmittedAfterConnect | electron/avatarPlugin.mjs:566-574 | Once the connect is accepted, the hello passes the gate on an open socket. |
| PluginClientModel.PluginClient.SendHello | electron/avatarPlugin.mjs:581-589 | The hello carries the configured ids and the current capabilities through the ordinary send. |
| PluginClientModel.PluginClient.AfterHello | electron/avatarPlugin.mjs:575-578 | After the hello the pull loop starts, and the phase is connected with no error. |
| PluginClientModel.RememberedSpec | electron/avatarPlugin.mjs:591-599 | A non-empty new id joins the window. Empty and known ids change nothing. Only the oldest id can be evicted, and the window stays distinct, non-empty and at most 1000 long. |
| PluginClientModel.RememberedSet | electron/avatarPlugin.mjs:591-599 | The id list and the id set keep holding the same ids through an add, an eviction or a duplicate. |
| PluginClientModel.PluginClient.RememberEvent | electron/avatarPlugin.mjs:591-599 | Only the feed changes: the id is remembered in the list and the set. |
| PluginClientModel.PullSingleFlight | electron/avatarPlugin.mjs:603-606 | Two ticks send at most one pull, and a tick while a pull is in flight changes nothing. |
| PluginClientModel.PluginClient.PullTick | electron/avatarPlugin.mjs:603-627 | A tick is the specification tick, and validity is kept. |
| PluginClientModel.PullTickValid | electron/avatarPlugin.mjs:603-627 | A tick keeps validity. |
| PluginClientModel.DeliverFresh | electron/avatarPlugin.mjs:611-619 | Only object events are delivered, and each delivered id is remembered after what was seen. The window stays valid. |
| PluginClientModel.DeliverWindow | electron/avatarPlugin.mjs:611-619 | Delivering any batch keeps the seen-id window valid. |
| PluginClientModel.PluginClient.OnPullResponse | electron/avatarPlugin.mjs:611-619 | A response delivers the unseen events and clears the in-flight flag. |
| PluginClientModel.PluginClient.OnPullFailed | electron/avatarPlugin.mjs:620-625 | A failed pull records its reason and clears the in-flight flag. |
| PluginClientModel.PluginClient.StopPullLoop | electron/avatarPlugin.mjs:630-636 | Only the two pull flags change, both to false. |
| PluginClientModel.PluginClient.ConnectFailed | electron/avatarPlugin.mjs:665-680 | A retry happens exactly for a protocol mismatch with a numeric expected protocol, and it pins both bounds. A paired failure records its reason; an unpaired one changes nothing. |
| PluginClientModel.DisconnectAsWrittenSendsNothing | electron/avatarPlugin.mjs:713-731 | As written, disconnecting sends no frame at all: the goodbye is refused. |
| PluginClientModel.PluginClient.DisconnectAsWritten | electron/avatarPlugin.mjs:713-756 | The state after the source's disconnect, handshake flag cleared before the goodbye. |
| PluginClientModel.DisconnectSendsGoodbye | electron/avatarPlugin.mjs:713-731 | Corrected, a disconnect of a handshaken open socket sends exactly the goodbye. It then rejects every pending entry, the goodbye's included. |
| PluginClientModel.DisconnectTearsDown | electron/avatarPlugin.mjs:713-756 | A disconnect leaves no socket, no handshake, no pull loop, an idle phase and an empty table. At most one frame is added, and the seen ids are kept. |
| PluginClientModel.DisconnectValid | electron/avatarPlugin.mjs:713-756 | A disconnect keeps validity. |
| PluginClientModel.PluginClient.Disconnect | electron/avatarPlugin.mjs:713-756 | The state after the corrected disconnect. |
| WsClient.ParseMessage | src/ws/avatarClient.ts:27-37 | A message comes back exactly for a parsed object whose `type` is `agent_state` or `render`, and it is that object. |
| WsClient.InitialWs | src/ws/avatarClient.ts:43-46 | The client starts valid, with a 2000 ms delay and no intentional close. |
| WsClient.AvatarWsClient.constructor | src/ws/avatarClient.ts:43-46 | A new client is in the initial state. |
| WsClient.NextDelay | src/ws/avatarClient.ts:106-109 | The delay grows by 2000 up to the cap of 15000, and never leaves [2000, 15000]. |
| WsClient.DelaySchedule | src/ws/avatarClient.ts:24-25 | After k reconnect attempts the delay is 2000·(k + 1), capped at 15000. |
| WsClient.DelayFrom | src/ws/avatarClient.ts:103-110 | From the j-th delay, k more attempts give the (j + k)-th. |
| WsClient.ConnectSpec | src/ws/avatarClient.ts:64-73 | While open, connect does nothing. Otherwise it clears the intentional close and reports connecting. It then either attaches a new socket or reports the creation error. |
| WsClient.AvatarWsClient.Connect | src/ws/avatarClient.ts:64-73 | The new state is the specification connect. |
| WsClient.OpenSpec | src/ws/avatarClient.ts:75-78 | An open resets the delay to 2000 and reports connected. |
| WsClient.AvatarWsClient.OnOpen | src/ws/avatarClient.ts:75-78 | The new state is the specification open. |
| WsClient.AvatarWsClient.OnMessage | src/ws/avatarClient.ts:80-90 | The new state is the specification receive: non-text frames and unparsable messages are dropped. |
| WsClient.AvatarWsClient.OnError | src/ws/avatarClient.ts:92-94 | The new state is the specification error report. |
| WsClient.CloseSpec | src/ws/avatarClient.ts:96-111 | An unintentional close reports reconnecting and schedules a fresh timer with the current delay. An intentional one reports idle and schedules nothing. |
| WsClient.AvatarWsClient.OnClose | src/ws/avatarClient.ts:96-111 | The new state is the specification close. |
| WsClient.FireSpec | src/ws/avatarClient.ts:103-110 | A fired timer is let go and the delay advances by one step. Unless a socket is open, the next report is connecting. |
| WsClient.AvatarWsClient.OnTimer | src/ws/avatarClient.ts:103-110 | The new state is the specification timer firing. |
| WsClient.EventsKeepValid | src/ws/avatarClient.ts:75-111 | Every socket event keeps the client's state valid. |
| WsClient.DisconnectSpec | src/ws/avatarClient.ts:48-62 | Close marks the close intentional, cancels the pending timer, lets the socket go, and reports idle. |
| WsClient.DisconnectSilences | src/ws/avatarClient.ts:48-62 | After close, no event from the old socket or timer changes anything. |
| WsClient.AvatarWsClient.Disconnect | src/ws/avatarClient.ts:48-62 | The new state is the specification close. |
| WsClient.AvatarWsClient.Notify | src/ws/avatarClient.ts:20 | A status report is appended to the reports. |
| Simulate.Initial | src/protocol/simulate.ts:44-50 | The initial state is idle, neutral, at 0.8. |
| Simulate.Apply | src/protocol/simulate.ts:20-39 | `agent_state` changes only the state. `render` sets the state, its emotion or the current one, and its intensity or 0.8. Anything else changes nothing. |
| Simulate.ApplyIdempotent | src/protocol/simulate.ts:20-39 | Applying the same message twice is applying it once. |
| Simulate.RenderForgetsCurrent | src/protocol/simulate.ts:31-37 | A render's result depends on the previous state only through its emotion, and only when the render names none. |
| Simulate.RenderOverridesAgentState | src/protocol/simulate.ts:24-37 | An `agent_state` followed by a `render` is the `render` alone. |
| Simulate.AgentStatesKeepExpression | src/protocol/simulate.ts:24-30 | A run of `agent_state` messages keeps emotion and intensity and ends in the last message's state. |
| AppState.InitialCurrent | src/app/state.ts:36-39 | The initial record is the reducer's initial state with a delta clamp of 0.05. |
| AppState.Applied | src/app/state.ts:44-49 | The three displayed fields are the reducer's output and the delta clamp is kept. |
| AppState.AppStore.constructor | src/app/state.ts:36-39 | The store starts at the initial record. |
| AppState.AppStore.ApplyMessage | src/app/state.ts:44-49 | The record becomes the reducer's output with the clamp kept. |
| AppState.AppStore.SetState | src/app/state.ts:51-55 | Only the state changes. |
| AppState.AppStore.SetEmotion | src/app/state.ts:57-61 | Only the emotion changes. |
| AppState.AppStore.Reset | src/app/state.ts:63 | The record returns to the initial one. |
| AppState.DeltaClampConstant | src/app/state.ts:36-63 | No sequence of store actions changes the 0.05 delta clamp. |
| AppState.RunIsReducerRun | src/app/state.ts:44-49 | A run of applied messages moves the displayed fields exactly as the reducer alone would. |
| Mapping.StateToAnimationParams | src/app/mapping.ts:33-62 | State and emotion pass through, and intensity is clamped to [0, 1] and capped at 0.5 on error. Weights are (1, 1) idle, (0.6, 0.8) while a tool runs, (0.8, 1) on error, and (1, 1) otherwise. |
| Mapping.MappingStable | src/app/mapping.ts:33-62 | Every output weight and intensity is in [0, 1], and mapping an output again gives it back. |
| Mapping.Step | src/app/mapping.ts:72-76 | One step moves at most the clamp and never passes the target. It lands on the target exactly when the gap is within the clamp; a larger gap shrinks by exactly the clamp. |
| Mapping.Lerp | src/app/mapping.ts:67-83 | State and emotion are the target's, and each number takes one bounded step toward the target. |
| Mapping.LerpKeepsRange | src/app/mapping.ts:67-83 | Smoothing from in-range parameters toward an in-range target stays in range. |
| Mapping.StepsReach | src/app/mapping.ts:67-83 | Once the frames times the clamp cover the gap, the field is at the target. |
| Mapping.StepsAtTarget | src/app/mapping.ts:72-76 | A field already at its target stays there. |
| PluginHook.NormalizeEmotion | src/hooks/useElectronAvatarPlugin.ts:34-50 | An emotion comes back exactly when the trimmed, lower-cased input is a known emotion, and it is that form. |
| PluginHook.KnownEmotionsFolded | src/hooks/useElectronAvatarPlugin.ts:34-43 | Every known emotion is already trimmed and lower-case. |
| PluginHook.NormalizeEmotionIdempotent | src/hooks/useElectronAvatarPlugin.ts:45-50 | Normalising a normalised emotion changes nothing. |
| PluginHook.DeriveWireState | src/hooks/useElectronAvatarPlugin.ts:52-57 | `thinking` gives thinking and `talking` gives speaking, ignoring case and surrounding space. Anything else gives idle, whatever the text. |
| PluginHook.FirstMatch | src/hooks/useElectronAvatarPlugin.ts:64 | The match is the first clip whose name equals the action ignoring case and space. None is found only when no clip matches. |
| PluginHook.ResolveGestureName | src/hooks/useElectronAvatarPlugin.ts:59-66 | An absent or blank action gives nothing. Otherwise the first matching clip is returned in its own spelling, else the trimmed action. |
| PluginHook.ResolveGestureIdempotent | src/hooks/useElectronAvatarPlugin.ts:59-66 | Resolving a resolved gesture gives it back. |
| PluginHook.EventIntensity | src/hooks/useElectronAvatarPlugin.ts:90-93 | A finite intensity inside [0, 1] is kept, above it becomes 1 and below it 0. Anything else becomes 0.8. |
| PluginHook.TranslateEvent | src/hooks/useElectronAvatarPlugin.ts:83-98 | The message is a render for the bridge session. Its state is derived from the resolved gesture, with the emotion normalised and the intensity clamped. |
| PluginHook.EventMessageSane | src/hooks/useElectronAvatarPlugin.ts:83-98 | Every translated message has a wire state, a known emotion if any, and an intensity in [0, 1]. |
| PluginHook.EventKeepsDisplaySane | src/hooks/useElectronAvatarPlugin.ts:83-98 | After any event the store shows a wire state and an intensity in [0, 1], with a known or unchanged emotion. |
| PluginHook.OnPluginEvent | src/hooks/useElectronAvatarPlugin.ts:97 | The store's record becomes the translated message applied to the old record. |

## Left out

- I/O:
  - The pairing file and OS secret storage (electron/avatarPlugin.mjs:232-317).
  - The device identity file.
  - Status callbacks to the window, except as reports in the browser client.
  - The logger.
- Cryptography: Ed25519 key handling, signing and the device-id hash
  (electron/avatarPlugin.mjs:142-161, 319-342). The signed device block in the connect request
  is reduced to a flag.
- Timers and awaits: the 8 s request timeouts, the 150 ms pull interval, and the 200 and 350 ms
  connect waits. Each is an event the caller delivers (`Timeout`, `PullTick`, `OnOpen`,
  `OnTimer`), not a clock.
- `connect()` and its shared `connectPromise` (electron/avatarPlugin.mjs:638-649). These only
  serialise calls.
- The credential sequence of `connectOnce`: reading the pairing, then the bootstrap token
  (electron/avatarPlugin.mjs:651-711). Only the protocol-mismatch decision is modelled
  (`ConnectFailed`).
- `originFromGatewayUrl`, `waitConnectChallenge`, `getStatus` and `emitStatus`: URL parsing and
  status copies.
- JSON text: `toToolResult`'s text and the parsing of frames. Frames are already-parsed values,
  and `JSON.parse` is a parameter of `parseMessage`.
- Strings:
  - `toLowerCase` is modelled for ASCII letters only.
  - Node's base64 decoder accepts malformed input leniently. The model states the round trip
    and rejects what the strict decoder rejects.
- Numbers are reals (mathematical real numbers), with NaN and the two infinities as
  separate cases of the JavaScript number. Floating-point rounding is not modelled.
  `parseFloat` and `Number(...)` are parameters.
- A browser-client socket is either open or not. Its `CONNECTING` and `CLOSING` states are
  not told apart.
- In the browser client the message casts are not checked beyond `type`. That is what the
  source does.
- The store's getters `getCurrentAgentState`, `getCurrentEmotion` and `getCurrentIntensity`
  (src/app/state.ts:67-79) are plain field reads.
- Out of src/hooks/useElectronAvatarPlugin.ts, only the translation is modelled. Out of scope:
  - React state;
  - the status and capability effects;
  - the capability filter (122-129);
  - `isElectronPluginAvailable`.
- AvatarRegistry.AvatarState.constructor: the queue limit is a natural number. Its only caller
  passes a value already clamped to [16, 2048].
- Simulate.AgentState: it has five values. The wire protocol names three, and the mapping
  also switches on `tool_running` and `error`.
- PluginHook.NormalizeEmotion: emotions are strings. The known list holds names outside the
  declared emotion type.
- PluginClientModel.PluginClient: the client's fields are grouped into four records (link,
  requests, feed, status). The pending map is a sequence in insertion order, which is the
  order the source's `Map` iterates in.
- PluginClientModel.DeliverFresh: states freshness only when the window cannot overflow
  during the batch (`|seen| + |events| <= 1000`). DeliverWindow keeps the window valid for
  any batch.
- PluginClientModel.PluginClient.Disconnect: the corrected disconnect does not wait for the
  goodbye's reply. Like every other pending entry, it is rejected when the table is cleared.
- PluginClientModel.PluginClient.BeginOpen: it runs the corrected disconnect, like every
  other caller in the model. The source's `openSocket` awaits the disconnect as written
  (electron/avatarPlugin.mjs:445), so reopening a handshaken socket sends no goodbye there.
  ReopenGoodbye states both behaviours.
- PluginClientModel.PluginClient.OnPullFailed: it is a separate event, so it can arrive after
  a close or disconnect. The source's in-flight pull is rejected by that teardown, and its
  catch then records the closed reason as `lastError` (electron/avatarPlugin.mjs:620-623,
  749-755). The model shows that record only when the caller delivers that failure after the
  teardown.
- PluginHelpers.NormalizeCapabilities: the result holds only the four fields the client
  announces. The source spreads `...input` and `...merged` (electron/avatarPlugin.mjs:47, 65),
  so any other keys the input carries are passed through there and dropped here.
- Gateway.Plugin.RunTool: states only when the tool declines. The full effect is
  AvatarTool.Execute's contract, which RunTool calls.
- Gateway.ContextLines: states only the line count. The contents are ContextLinesSpec's,
  except the fixed instruction lines, which are not stated.
- PluginHelpers.BuildDeviceAuthPayload: states only the version prefix. The field layout is
  DeviceAuthFieldsRecovered's, for inputs that hold no `|`.
- WsClient.FireSpec: states the first report a fired timer makes, not the whole connect that
  follows. Its full effect is the function OnTimer is proved against.
- AvatarRegistry.PullLimit: a numeric `max` is truncated before it is clamped
  (extensions/avatar/src/avatar-state.ts:245), so NaN gives 1 rather than the default 20.

## Findings

| source | as written | input that shows it | evidently intended | confidence | as-written member | corrected member |
|---|---|---|---|---|---|---|
| electron/avatarPlugin.mjs:713-731 | `disconnect` sets `gatewayConnected = false` before `sendReq('avatar.goodbye')`. `sendReq` refuses every method but `connect` when the handshake flag is false (lines 357-359), so the goodbye is never sent. | `disconnect()` on an open socket whose handshake has completed | The goodbye reaches the gateway before the socket is closed, so the gateway drops the session's profile and queue | not executed; high, from reading the two guards | PluginClientModel.DisconnectAsWrittenSendsNothing | PluginClientModel.DisconnectSendsGoodbye |
