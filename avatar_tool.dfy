/**
 * The `avatar_express` agent tool: reads loosely typed tool arguments, fills in the session
 * key of the agent's context, emits through the registry and reports whether the cue was
 * accepted.
 */
module AvatarTool {
  import opened Options
  import opened Text
  import opened Js
  import opened AvatarRegistry

  const HandshakeHint: string := "Avatar capability handshake required. Call avatar.hello from the avatar client."

  /** The `details` of the tool result; the result also carries them rendered as JSON text. */
  datatype ToolDetails =
    | Declined(reason: string, sessionKey: string, hint: string)
    | Expressed(sessionKey: string, event: Event, downgraded: Option<Downgraded>)

  /** `asObject`: a plain object as it is, anything else as an empty object. */
  function AsObject(value: Value): (r: Value)
    ensures IsRecord(r)
    ensures IsRecord(value) ==> r == value
    ensures forall key :: Get(r, key) == Get(value, key)
  {
    if IsRecord(value) then value else Obj([])
  }

  /** `readOptionalString`: the trimmed string under `key`, nothing for a non-string or a blank one. */
  function ReadOptionalString(params: Value, key: string): (r: Option<string>)
    ensures r.Some? <==> IsNonBlank(Get(params, key))
    ensures r.Some? ==> r.value == Trim(Get(params, key).s) && r.value != "" && IsTrimmed(r.value)
  {
    var raw := Get(params, key);
    TrimShape(if raw.Str? then raw.s else "");
    if !raw.Str? then None
    else
      var trimmed := Trim(raw.s);
      if trimmed == "" then None else Some(trimmed)
  }

  /** `readOptionalNumber`: a finite number as it is; a string through `parseFloat` of its trimmed
      text when that is finite; nothing otherwise. `parseFloat` stands for `Number.parseFloat`. */
  function ReadOptionalNumber(params: Value, key: string, parseFloat: string -> Num): (r: Option<real>)
    ensures IsFiniteNumber(Get(params, key)) ==> r == Some(Get(params, key).n.r)
    ensures Get(params, key).Str? && parseFloat(Trim(Get(params, key).s)).Finite? ==>
            r == Some(parseFloat(Trim(Get(params, key).s)).r)
    ensures r.None? <==> !IsFiniteNumber(Get(params, key)) &&
                         !(Get(params, key).Str? && parseFloat(Trim(Get(params, key).s)).Finite?)
  {
    var raw := Get(params, key);
    if raw.Number? && raw.n.Finite? then Some(raw.n.r)
    else if raw.Str? then
      var parsed := parseFloat(Trim(raw.s));
      if parsed.Finite? then Some(parsed.r) else None
    else None
  }

  function OptionalLower(s: Option<string>): Option<string>
  {
    if s.Some? then Some(Lower(s.value)) else None
  }

  function OptionalFinite(r: Option<real>): Option<Num>
  {
    if r.Some? then Some(Finite(r.value)) else None
  }

  /** What `execute` hands to `emitFromTool`. `contextKey` is the session key of the agent's
      tool context. */
  function ToolRequest(toolCallId: string, rawParams: Value, contextKey: Option<string>,
                       parseFloat: string -> Num): EmitParams
  {
    var payload := AsObject(rawParams);
    var fallbackSession := NormalizeSessionKey(OptionalKey(contextKey));
    var sessionKey := ReadOptionalString(payload, "sessionKey").GetOr(fallbackSession);
    EmitParams(
      Some(sessionKey),
      toolCallId,
      OptionalLower(ReadOptionalString(payload, "emotion")),
      OptionalLower(ReadOptionalString(payload, "action")),
      OptionalFinite(ReadOptionalNumber(payload, "intensity", parseFloat)),
      ReadOptionalString(payload, "gesture"),
      OptionalFinite(ReadOptionalNumber(payload, "durationMs", parseFloat)),
      ReadOptionalString(payload, "text"),
      ReadOptionalString(payload, "runId"))
  }

  /** The tool always names a session: the argument when it is a non-blank string, else the
      context's key, else "main"; the registry keeps that key as it is. Emotion and action
      reach the registry already in normal form, and numbers only when finite. */
  lemma ToolRequestSpec(toolCallId: string, rawParams: Value, contextKey: Option<string>, parseFloat: string -> Num)
    ensures var req := ToolRequest(toolCallId, rawParams, contextKey, parseFloat);
      && req.sessionKey.Some?
      && NormalizeSessionKey(Str(req.sessionKey.value)) == req.sessionKey.value
      && (IsNonBlank(Get(rawParams, "sessionKey")) ==> req.sessionKey.value == Trim(Get(rawParams, "sessionKey").s))
      && (!IsNonBlank(Get(rawParams, "sessionKey")) ==> req.sessionKey.value == NormalizeSessionKey(OptionalKey(contextKey)))
      && (req.emotion.Some? ==> IsCapabilityName(req.emotion.value) && IsNonBlank(Get(rawParams, "emotion")))
      && (req.action.Some? ==> IsCapabilityName(req.action.value) && IsNonBlank(Get(rawParams, "action")))
      && (req.intensity.Some? ==> req.intensity.value.Finite?)
      && (req.durationMs.Some? ==> req.durationMs.value.Finite?)
      && req.toolCallId == toolCallId
  {
    var payload := AsObject(rawParams);
    ToolRequestKey(payload, contextKey);
    CapabilityRead(payload, "emotion");
    CapabilityRead(payload, "action");
  }

  /** The session key a request carries is the trimmed one it names, else the context's,
      and normalising it again changes nothing. */
  lemma ToolRequestKey(payload: Value, contextKey: Option<string>)
    ensures var key := ReadOptionalString(payload, "sessionKey").GetOr(NormalizeSessionKey(OptionalKey(contextKey)));
      NormalizeSessionKey(Str(key)) == key
  {
    var key := ReadOptionalString(payload, "sessionKey").GetOr(NormalizeSessionKey(OptionalKey(contextKey)));
    if IsNonBlank(Get(payload, "sessionKey")) {
      TrimShape(Get(payload, "sessionKey").s);
      TrimmedIsFixed(key);
    } else {
      SessionKeyIdempotent(OptionalKey(contextKey));
    }
  }

  /** An emotion or action a request carries is a capability name read from a non-blank
      string. */
  lemma CapabilityRead(payload: Value, key: string)
    ensures var r := OptionalLower(ReadOptionalString(payload, key));
      r.Some? ==> IsCapabilityName(r.value) && IsNonBlank(Get(payload, key))
  {
    var e := ReadOptionalString(payload, key);
    if e.Some? {
      LowerKeepsTrimmed(e.value);
      TrimmedIsFixed(Lower(e.value));
      LowerIdempotent(e.value);
    }
  }

  /** The tool's report of an emit outcome. */
  function DetailsOf(result: EmitResult): (d: ToolDetails)
    ensures d.Declined? <==> result.Rejected?
    ensures d.Declined? ==> d.reason == result.reason && d.sessionKey == result.sessionKey && d.hint == HandshakeHint
    ensures d.Expressed? ==> d.sessionKey == result.sessionKey && d.event == result.event && d.downgraded == result.downgraded
  {
    match result
    case Rejected(reason, sessionKey) => Declined(reason, sessionKey, HandshakeHint)
    case Accepted(sessionKey, event, downgraded) => Expressed(sessionKey, event, downgraded)
  }

  /** `execute`: with no front-end to serve the session the call is declined and nothing
      changes; otherwise the cue is queued for the serving session and reported. */
  method Execute(state: AvatarState, toolCallId: string, rawParams: Value, contextKey: Option<string>,
                 parseFloat: string -> Num, uuid: string, now: int) returns (details: ToolDetails)
    requires state.Valid()
    modifies state
    ensures state.Valid()
    ensures var req := ToolRequest(toolCallId, rawParams, contextKey, parseFloat);
      var key := req.sessionKey.value;
      var resolved := ResolveRuntime(old(state.profiles), key);
      && (resolved.None? ==> details == Declined(Unavailable, key, HandshakeHint)
                             && state.profiles == old(state.profiles) && state.events == old(state.events))
      && (resolved.Some? ==>
            && resolved.value in old(state.profiles)
            && details == DetailsOf(ToolOutcome(old(state.profiles)[resolved.value].acceptedCapabilities, req, key,
                                                resolved.value, uuid, now))
            && state.profiles == Touch(old(state.profiles), resolved.value, now)
            && state.events == old(state.events)[resolved.value :=
                   Enqueued(QueueOf(old(state.events), resolved.value), details.event, state.queueLimit)])
  {
    var request := ToolRequest(toolCallId, rawParams, contextKey, parseFloat);
    ToolRequestSpec(toolCallId, rawParams, contextKey, parseFloat);
    var result := state.EmitFromTool(request, uuid, now);
    details := DetailsOf(result);
  }
}
