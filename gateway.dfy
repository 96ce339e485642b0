/**
 * The gateway extension: configuration parsing, the process-wide registry shared by every
 * registration, the four gateway methods (`avatar.hello`, `avatar.goodbye`, `avatar.status`,
 * `avatar.pull`), the tool gate and the `before_agent_start` hook that tells the agent what
 * the connected avatar can show.
 */
module Gateway {
  import opened Options
  import opened Text
  import opened Js
  import opened AvatarRegistry
  import opened AvatarTool

  const MinQueueLimit: int := 16
  const MaxQueueLimit: int := 2048

  datatype Config = Config(enabled: bool, queueLimit: nat)

  /** `parseConfig`: `enabled` unless it is the boolean `false`; the queue limit is a finite
      number truncated and clamped to 16..2048, 128 otherwise. */
  function ParseConfig(raw: Value): (cfg: Config)
    ensures cfg.enabled <==> Get(raw, "enabled") != Bool(false)
    ensures MinQueueLimit <= cfg.queueLimit <= MaxQueueLimit
    ensures !IsFiniteNumber(Get(raw, "queueLimit")) ==> cfg.queueLimit == DefaultQueueLimit
    ensures IsFiniteNumber(Get(raw, "queueLimit")) ==>
      var t := Trunc(Get(raw, "queueLimit").n.r);
      && (MinQueueLimit <= t <= MaxQueueLimit ==> cfg.queueLimit == t)
      && (t < MinQueueLimit ==> cfg.queueLimit == MinQueueLimit)
      && (t > MaxQueueLimit ==> cfg.queueLimit == MaxQueueLimit)
  {
    var enabledRaw := Get(raw, "enabled");
    var enabled := if enabledRaw.Bool? then enabledRaw.b else true;
    var limitRaw := Get(raw, "queueLimit");
    var queueLimitRaw := if limitRaw.Number? && limitRaw.n.Finite? then limitRaw.n.r else DefaultQueueLimit as real;
    var t := Trunc(queueLimitRaw);
    var queueLimit := if t < MinQueueLimit then MinQueueLimit else if t > MaxQueueLimit then MaxQueueLimit else t;
    Config(enabled, queueLimit)
  }

  /** The slot on the global object that holds the shared registry and the limit it was made with. */
  class SharedSlot {
    var state: AvatarState?
    var queueLimit: Option<nat>

    ghost predicate Valid()
      reads this, state
    {
      (state == null <==> queueLimit.None?) &&
      (state != null ==> state.queueLimit == queueLimit.value && state.Valid())
    }

    constructor ()
      ensures Valid() && state == null && queueLimit == None
    {
      state := null;
      queueLimit := None;
    }

    /** `getSharedAvatarState`: the first call creates the registry with its limit; every later
        call returns that same registry, whatever limit it asks for. */
    method Shared(limit: nat) returns (s: AvatarState)
      requires Valid()
      modifies this
      ensures Valid() && state == s
      ensures old(state) != null ==> s == old(state) && queueLimit == old(queueLimit)
      ensures old(state) == null ==>
                fresh(s) && s.queueLimit == limit && s.profiles == map[] && s.events == map[] && queueLimit == Some(limit)
    {
      if state == null {
        var created := new AvatarState(limit);
        state := created;
        queueLimit := Some(limit);
      }
      s := state;
    }

    /** `resetSharedAvatarStateForTest`: forgets the registry. */
    method Reset()
      modifies this
      ensures Valid() && state == null && queueLimit == None
    {
      state := null;
      queueLimit := None;
    }
  }

  /** The payload passed to `respond`. */
  datatype Payload =
    | Failure(error: string)
    | HelloAcked(ack: HelloAck)
    | GoodbyeDone(removed: bool)
    | Status(sessionKey: string, connected: bool, profile: Option<Profile>, pendingEvents: nat)
    | Pulled(sessionKey: string, events: seq<Event>, pendingEvents: nat)

  datatype Response = Response(ok: bool, payload: Payload)

  /** The `max` the pull handler forwards: a number as it is, anything else left out. */
  function ForwardedMax(params: Value): (max: Value)
    ensures max.Number? || max.Undefined?
    ensures PullLimit(max) == PullLimit(Get(params, "max"))
  {
    var raw := Get(params, "max");
    if raw.Number? then raw else Undefined
  }

  /** A capability list as the hook prints it: comma-separated, "(none)" when empty. */
  function ListOrNone(xs: seq<string>): string
  {
    var joined := Join(xs, ", ");
    if joined == "" then "(none)" else joined
  }

  /** For a normalised list, "(none)" stands exactly for the empty list. */
  lemma ListOrNoneSpec(xs: seq<string>)
    requires WellFormedList(xs)
    ensures xs == [] ==> ListOrNone(xs) == "(none)"
    ensures xs != [] ==> ListOrNone(xs) == Join(xs, ", ") && |ListOrNone(xs)| >= |xs[0]| > 0
  {
    if xs != [] {
      JoinStartsWithFirst(xs, ", ");
    }
  }

  const UsageLine: string := "Use tool `avatar_express` only when non-verbal cues improve communication (e.g., empathy, celebration, apology, emphasis)."
  const FrequencyLine: string := "Do not call avatar_express for every sentence. Keep text clarity first."
  const RetryLine: string := "If avatar_express returns accepted=false, continue normal text response without retry loops."

  /** The lines of the prompt context the hook prepends. */
  function ContextLines(sessionKey: string, avatarId: string, caps: Capabilities): (lines: seq<string>)
    ensures |lines| == 10
  {
    [ "<avatar_capability>",
      "Avatar front-end is connected for this session.",
      "sessionKey: " + sessionKey,
      "avatarId: " + avatarId,
      "available_emotions: " + ListOrNone(caps.emotions),
      "available_actions: " + ListOrNone(caps.actions),
      UsageLine,
      FrequencyLine,
      RetryLine,
      "</avatar_capability>" ]
  }

  /** The block opens and closes with the capability tags, names the session and the avatar,
      and lists the negotiated emotions and actions in their order, "(none)" for an empty list. */
  lemma ContextLinesSpec(sessionKey: string, avatarId: string, caps: Capabilities)
    requires WellFormedCaps(caps)
    ensures var lines := ContextLines(sessionKey, avatarId, caps);
      && lines[0] == "<avatar_capability>" && lines[9] == "</avatar_capability>"
      && lines[2] == "sessionKey: " + sessionKey && lines[3] == "avatarId: " + avatarId
      && lines[4] == "available_emotions: " + (if caps.emotions == [] then "(none)" else Join(caps.emotions, ", "))
      && lines[5] == "available_actions: " + (if caps.actions == [] then "(none)" else Join(caps.actions, ", "))
  {
    ListOrNoneSpec(caps.emotions);
    ListOrNoneSpec(caps.actions);
  }

  /** The extension as registered: its parsed configuration and the registry it shares. */
  class Plugin {
    const cfg: Config
    const state: AvatarState

    ghost predicate Valid()
      reads this, state
    {
      state.Valid()
    }

    /** `register`: parses the configuration and takes the shared registry. */
    constructor (pluginConfig: Value, slot: SharedSlot)
      requires slot.Valid()
      modifies slot
      ensures Valid() && slot.Valid() && state == slot.state
      ensures cfg == ParseConfig(pluginConfig)
      ensures old(slot.state) != null ==> state == old(slot.state)
      ensures old(slot.state) == null ==> state.queueLimit == ParseConfig(pluginConfig).queueLimit
    {
      var parsed := ParseConfig(pluginConfig);
      var shared := slot.Shared(parsed.queueLimit);
      cfg := parsed;
      state := shared;
    }

    /** `avatar.hello`: refused when the extension is disabled or the capabilities are not a
        plain object; otherwise the registry's hello, acknowledged. */
    method HandleHello(params: Value, uuid: string, now: int) returns (response: Response)
      requires Valid()
      modifies state
      ensures Valid()
      ensures !cfg.enabled ==> response == Response(false, Failure("avatar plugin disabled"))
      ensures cfg.enabled && !IsRecord(Get(params, "capabilities")) ==>
                response == Response(false, Failure("capabilities object required"))
      ensures !cfg.enabled || !IsRecord(Get(params, "capabilities")) ==>
                state.profiles == old(state.profiles) && state.events == old(state.events)
      ensures cfg.enabled && IsRecord(Get(params, "capabilities")) ==>
        var input := HelloInput(Get(params, "sessionKey"), Get(params, "connectionId"), Get(params, "avatarId"),
                                Get(params, "protocolVersion"), Get(params, "capabilities"));
        var p := HelloProfile(input, uuid, now);
        && response.ok && response.payload.HelloAcked?
        && response.payload.ack == HelloAck(p.connectionId, p.sessionKey, p.avatarId, ProtocolVersion,
                                            p.acceptedCapabilities, now)
        && state.profiles == old(state.profiles)[p.sessionKey := p]
        && state.events == old(state.events)
    {
      if !cfg.enabled {
        return Response(false, Failure("avatar plugin disabled"));
      }
      var capsRaw := Get(params, "capabilities");
      if !IsRecord(capsRaw) {
        return Response(false, Failure("capabilities object required"));
      }
      var ack := state.Hello(HelloInput(Get(params, "sessionKey"), Get(params, "connectionId"), Get(params, "avatarId"),
                                        Get(params, "protocolVersion"), capsRaw), uuid, now);
      return Response(true, HelloAcked(ack));
    }

    /** `avatar.goodbye`: always answers ok, saying whether a profile was removed. */
    method HandleGoodbye(params: Value) returns (response: Response)
      requires Valid()
      modifies state
      ensures Valid()
      ensures var key := NormalizeSessionKey(Get(params, "sessionKey"));
        var connection := Get(params, "connectionId");
        var removed := key in old(state.profiles) &&
                       (IsNonBlank(connection) ==> old(state.profiles)[key].connectionId == Trim(connection.s));
        && response == Response(true, GoodbyeDone(removed))
        && (removed ==> state.profiles == old(state.profiles) - {key} && state.events == old(state.events) - {key})
        && (!removed ==> state.profiles == old(state.profiles) && state.events == old(state.events))
    {
      var removed := state.Goodbye(Get(params, "sessionKey"), Get(params, "connectionId"));
      return Response(true, GoodbyeDone(removed));
    }

    /** `avatar.status`: the session's profile (touched), whether there is one, and how many
        events wait; nothing is dequeued. */
    method HandleStatus(params: Value, now: int) returns (response: Response)
      requires Valid()
      modifies state
      ensures Valid()
      ensures var key := NormalizeSessionKey(Get(params, "sessionKey"));
        && response.ok && response.payload.Status?
        && response.payload.sessionKey == key
        && (response.payload.connected <==> key in old(state.profiles))
        && (response.payload.connected ==> response.payload.profile == Some(old(state.profiles)[key].(lastSeenAt := now)))
        && (!response.payload.connected ==> response.payload.profile == None)
        && response.payload.pendingEvents == |QueueOf(old(state.events), key)|
        && state.events == old(state.events)
        && state.profiles == (if key in old(state.profiles) then Touch(old(state.profiles), key, now)
                              else old(state.profiles))
    {
      var sessionKey := NormalizeSessionKey(Get(params, "sessionKey"));
      SessionKeyIdempotent(Get(params, "sessionKey"));
      var profile := state.GetProfile(Str(sessionKey), now);
      var pending := state.PendingCount(Str(sessionKey));
      return Response(true, Status(sessionKey, profile.Some?, profile, pending));
    }

    /** `avatar.pull`: dequeues up to the requested number of events (a non-number falls back to
        the default) and reports how many remain. */
    method HandlePull(params: Value) returns (response: Response)
      requires Valid()
      modifies state
      ensures Valid()
      ensures var key := NormalizeSessionKey(Get(params, "sessionKey"));
        var old_queue := QueueOf(old(state.events), key);
        && response.ok && response.payload.Pulled?
        && response.payload.sessionKey == key
        && |response.payload.events| == Min(PullLimit(Get(params, "max")), |old_queue|)
        && response.payload.events + QueueOf(state.events, key) == old_queue
        && response.payload.pendingEvents == |old_queue| - |response.payload.events|
        && state.events == (if key in old(state.events) && old_queue != []
                            then old(state.events)[key := old_queue[|response.payload.events|..]]
                            else old(state.events))
        && state.profiles == old(state.profiles)
    {
      var sessionKey := NormalizeSessionKey(Get(params, "sessionKey"));
      SessionKeyIdempotent(Get(params, "sessionKey"));
      var max := ForwardedMax(params);
      var events := state.Pull(Str(sessionKey), max);
      var pending := state.PendingCount(Str(sessionKey));
      return Response(true, Pulled(sessionKey, events, pending));
    }

    /** The tool the factory registers: none when the extension is disabled, otherwise
        `avatar_express` run against the shared registry. */
    method RunTool(toolCallId: string, rawParams: Value, contextKey: Option<string>,
                   parseFloat: string -> Num, uuid: string, now: int) returns (details: Option<ToolDetails>)
      requires Valid()
      modifies state
      ensures Valid()
      ensures details.None? <==> !cfg.enabled
      ensures !cfg.enabled ==> state.profiles == old(state.profiles) && state.events == old(state.events)
      ensures cfg.enabled ==>
        var req := ToolRequest(toolCallId, rawParams, contextKey, parseFloat);
        var resolved := ResolveRuntime(old(state.profiles), req.sessionKey.value);
        (resolved.None? <==> details.value.Declined?)
    {
      if !cfg.enabled {
        return None;
      }
      var d := Execute(state, toolCallId, rawParams, contextKey, parseFloat, uuid, now);
      return Some(d);
    }

    /** `before_agent_start`: when enabled and some profile serves the session, the capability
        block naming the serving avatar and its emotions and actions; otherwise nothing. */
    method BeforeAgentStart(hookSessionKey: Option<string>, now: int) returns (prependContext: Option<string>)
      requires Valid()
      modifies state
      ensures Valid()
      ensures state.events == old(state.events)
      ensures var key := NormalizeSessionKey(OptionalKey(hookSessionKey));
        var resolved := ResolveRuntime(old(state.profiles), key);
        && (!cfg.enabled || resolved.None? ==> prependContext.None? && state.profiles == old(state.profiles))
        && (cfg.enabled && resolved.Some? ==>
              && resolved.value in old(state.profiles)
              && prependContext == Some(Join(ContextLines(key, old(state.profiles)[resolved.value].avatarId,
                                                          old(state.profiles)[resolved.value].acceptedCapabilities), "\n"))
              && state.profiles == Touch(old(state.profiles), resolved.value, now))
    {
      if !cfg.enabled {
        return None;
      }
      var sessionKey := NormalizeSessionKey(OptionalKey(hookSessionKey));
      SessionKeyIdempotent(OptionalKey(hookSessionKey));
      var profile := state.GetProfileForRuntime(Str(sessionKey), now);
      if profile.None? {
        return None;
      }
      var capabilities := profile.value.acceptedCapabilities;
      return Some(Join(ContextLines(sessionKey, profile.value.avatarId, capabilities), "\n"));
    }
  }

  /** The prompt-context test: emotions `[happy, neutral]` are listed as "happy, neutral". */
  lemma EmotionLineExample(caps: Capabilities)
    requires caps.emotions == ["happy", "neutral"]
    ensures ContextLines("main", "fox", caps)[4] == "available_emotions: happy, neutral"
  {
    assert Join(caps.emotions, ", ") == "happy" + ", " + "neutral";
  }
}
