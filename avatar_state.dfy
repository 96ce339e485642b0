/**
 * The gateway's session registry (`AvatarState`): one negotiated profile per session key
 * and, per session, a bounded FIFO queue of expressive events that the front-end drains
 * with a destructive pull.
 */
module AvatarRegistry {
  import opened Options
  import opened Text
  import opened Js
  import opened Dedup

  const ProtocolVersion: string := "1.0"
  const DefaultQueueLimit: nat := 128
  const DefaultPullLimit: int := 20
  const MaxPull: int := 200
  const MainSession: string := "main"
  const DefaultAvatarId: string := "avatar-default"
  const Unavailable: string := "avatar_unavailable"

  datatype VisemeMode = Auto | Manual
  datatype Viseme = Viseme(supported: bool, mode: VisemeMode)

  /** What a front-end declared it can show, after normalisation. */
  datatype Capabilities = Capabilities(
    emotions: seq<string>,
    actions: seq<string>,
    viseme: Option<Viseme>,
    fallback: map<string, string>)

  datatype Profile = Profile(
    connectionId: string,
    sessionKey: string,
    avatarId: string,
    negotiatedVersion: string,
    acceptedCapabilities: Capabilities,
    negotiatedAt: int,
    lastSeenAt: int)

  datatype Source = Tool | Autopilot

  /** The `meta` record of an event made by the tool. */
  datatype EventMeta = EventMeta(toolCallId: string, requestedSessionKey: string)

  datatype Event = Event(
    eventId: string,
    sessionKey: string,
    ts: int,
    source: Source,
    emotion: Option<string>,
    action: Option<string>,
    intensity: Option<real>,
    gesture: Option<string>,
    durationMs: Option<int>,
    text: Option<string>,
    runId: Option<string>,
    meta: EventMeta)

  /** The fields of a hello request, as untyped values. */
  datatype HelloInput = HelloInput(
    sessionKey: Value,
    connectionId: Value,
    avatarId: Value,
    protocolVersion: Value,
    capabilities: Value)

  datatype HelloAck = HelloAck(
    connectionId: string,
    sessionKey: string,
    avatarId: string,
    negotiatedVersion: string,
    acceptedCapabilities: Capabilities,
    serverTs: int)

  datatype EmitParams = EmitParams(
    sessionKey: Option<string>,
    toolCallId: string,
    emotion: Option<string>,
    action: Option<string>,
    intensity: Option<Num>,
    gesture: Option<string>,
    durationMs: Option<Num>,
    text: Option<string>,
    runId: Option<string>)

  /** What an emit substituted: the requested emotion and action it replaced. */
  datatype Downgraded = Downgraded(emotionFrom: Option<string>, actionFrom: Option<string>)

  datatype EmitResult =
    | Rejected(reason: string, sessionKey: string)
    | Accepted(sessionKey: string, event: Event, downgraded: Option<Downgraded>)

  // ---------------------------------------------------------------------------------------
  // Normalisation of hello input
  // ---------------------------------------------------------------------------------------

  /** How a capability name is normalised: trimmed, then lower-cased. */
  function CapabilityName(s: string): string
  {
    Lower(Trim(s))
  }

  /** A name that normalisation leaves as it is, and that is not empty. */
  predicate IsCapabilityName(s: string)
  {
    s != "" && CapabilityName(s) == s
  }

  lemma CapabilityNameIdempotent(s: string)
    ensures CapabilityName(CapabilityName(s)) == CapabilityName(s)
    ensures IsTrimmed(CapabilityName(s))
  {
    TrimShape(s);
    LowerKeepsTrimmed(Trim(s));
    TrimmedIsFixed(Lower(Trim(s)));
    LowerIdempotent(Trim(s));
  }

  /** The capability list a hello value declares: its string entries normalised and
      de-duplicated in first-seen order; anything but an array declares nothing. */
  function CapabilityList(value: Value): seq<string>
  {
    if value.Arr? then Normalized(value.items, CapabilityName) else []
  }

  /** A normalised capability list: distinct, non-empty, trimmed, lower-case names. */
  predicate WellFormedList(xs: seq<string>)
  {
    DistinctNonEmpty(xs) && forall i :: 0 <= i < |xs| ==> IsCapabilityName(xs[i])
  }

  /** A capability list holds exactly the normalised non-blank string entries of the array,
      once each, and is well formed. */
  lemma {:induction false} CapabilityListShape(value: Value)
    ensures WellFormedList(CapabilityList(value))
    ensures value.Arr? ==> forall t :: t in CapabilityList(value) <==> Offers(value.items, CapabilityName, t)
    ensures !value.Arr? ==> CapabilityList(value) == []
  {
    if value.Arr? {
      var r := CapabilityList(value);
      NormalizedMembers(value.items, CapabilityName);
      forall i | 0 <= i < |r| ensures IsCapabilityName(r[i]) {
        assert Offers(value.items, CapabilityName, r[i]);
        var j :| 0 <= j < |value.items| && value.items[j].Str? && CapabilityName(value.items[j].s) == r[i];
        CapabilityNameIdempotent(value.items[j].s);
      }
    }
  }

  /** `normalizeStringList`. */
  method NormalizeStringList(value: Value) returns (list: seq<string>)
    ensures list == CapabilityList(value)
  {
    if !value.Arr? {
      return [];
    }
    var items := value.items;
    var dedup: set<string> := {};
    list := [];
    for i := 0 to |items|
      invariant list == Normalized(items[..i], CapabilityName)
      invariant forall t :: t in dedup <==> t in list
    {
      NormalizedStep(items, i, CapabilityName);
      var entry := items[i];
      if !entry.Str? {
        continue;
      }
      var trimmed := Lower(Trim(entry.s));
      if trimmed == "" {
        continue;
      }
      if trimmed !in dedup {
        dedup := dedup + {trimmed};
        list := list + [trimmed];
      }
    }
    assert items[..|items|] == items;
  }

  /** One fallback entry as `normalizeFallback` reads it: (from, to), either empty when the
      entry is skipped. */
  function FallbackEntry(key: string, mapped: Value): (string, string)
  {
    (CapabilityName(key), if mapped.Str? then CapabilityName(mapped.s) else "")
  }

  /** The key a plain object does not store: assigning it calls the prototype setter, which
      ignores a string. */
  const ProtoKey := "__proto__"

  /** The fallback table of a property list: each entry whose normalised key and string
      value are both non-empty, a later entry overriding an earlier one with the same key. */
  function FallbackOf(props: seq<(string, Value)>): map<string, string>
  {
    if props == [] then map[]
    else
      var m := FallbackOf(props[..|props| - 1]);
      var e := FallbackEntry(props[|props| - 1].0, props[|props| - 1].1);
      if e.0 == "" || e.1 == "" then m else m[e.0 := e.1]
  }

  /** The fallback table a hello value declares; anything but a plain object declares none.
      The table is built on a plain object, which never stores `ProtoKey`, and no other key
      depends on that one, so leaving it out at every step is leaving it out at the end. */
  function FallbackMap(value: Value): map<string, string>
  {
    if IsRecord(value) then FallbackOf(value.props) - {ProtoKey} else map[]
  }

  /** A normalised fallback table: every key and every target a normalised, non-empty name. */
  predicate WellFormedFallback(m: map<string, string>)
  {
    forall k :: k in m ==> IsCapabilityName(k) && IsCapabilityName(m[k])
  }

  /** Both halves of a usable fallback entry are normalised names. */
  lemma FallbackEntryNormalized(key: string, mapped: Value)
    ensures FallbackEntry(key, mapped).0 != "" ==> IsCapabilityName(FallbackEntry(key, mapped).0)
    ensures FallbackEntry(key, mapped).1 != "" ==> IsCapabilityName(FallbackEntry(key, mapped).1)
  {
    CapabilityNameIdempotent(key);
    if mapped.Str? {
      CapabilityNameIdempotent(mapped.s);
    }
  }

  /** A usable entry: both its normalised key and its normalised string target are non-empty. */
  predicate Usable(entry: (string, Value))
  {
    FallbackEntry(entry.0, entry.1).0 != "" && FallbackEntry(entry.0, entry.1).1 != ""
  }

  /** A fallback table is well formed, and the key of every usable entry of the input is in it. */
  lemma {:induction false} FallbackOfShape(props: seq<(string, Value)>)
    ensures WellFormedFallback(FallbackOf(props))
    ensures forall i :: 0 <= i < |props| && Usable(props[i]) ==> FallbackEntry(props[i].0, props[i].1).0 in FallbackOf(props)
  {
    if props != [] {
      var init := props[..|props| - 1];
      FallbackOfShape(init);
      var last := props[|props| - 1];
      FallbackEntryNormalized(last.0, last.1);
      var m := FallbackOf(init);
      assert m.Keys <= FallbackOf(props).Keys;
      forall i | 0 <= i < |props| && Usable(props[i])
        ensures FallbackEntry(props[i].0, props[i].1).0 in FallbackOf(props)
      {
        if i < |props| - 1 {
          assert props[i] == init[i];
        }
      }
    }
  }

  /** The last entry of a property list is the one applied last. */
  lemma FallbackOfLast(props: seq<(string, Value)>)
    requires props != []
    ensures var el := FallbackEntry(props[|props| - 1].0, props[|props| - 1].1);
      FallbackOf(props) == if el.0 == "" || el.1 == "" then FallbackOf(props[..|props| - 1])
                           else FallbackOf(props[..|props| - 1])[el.0 := el.1]
  {
  }

  /** The value of a fallback key is the target of the LAST usable entry with that key. */
  lemma {:induction false} FallbackLastWins(props: seq<(string, Value)>, i: nat)
    requires i < |props|
    requires Usable(props[i])
    requires forall j :: i < j < |props| && Usable(props[j]) ==>
               FallbackEntry(props[j].0, props[j].1).0 != FallbackEntry(props[i].0, props[i].1).0
    ensures FallbackEntry(props[i].0, props[i].1).0 in FallbackOf(props)
    ensures FallbackOf(props)[FallbackEntry(props[i].0, props[i].1).0] == FallbackEntry(props[i].0, props[i].1).1
    decreases |props|
  {
    var init := props[..|props| - 1];
    var last := props[|props| - 1];
    var el := FallbackEntry(last.0, last.1);
    FallbackOfLast(props);
    if i < |props| - 1 {
      var e := FallbackEntry(props[i].0, props[i].1);
      assert init[i] == props[i];
      assert forall j :: i < j < |init| ==> init[j] == props[j];
      FallbackLastWins(init, i);
      assert Usable(last) ==> el.0 != e.0;
      EntryKept(FallbackOf(init), FallbackOf(props), e, el);
    }
  }

  /** Applying an entry with another key, or a skipped one, keeps an existing entry. */
  lemma EntryKept(m: map<string, string>, next: map<string, string>, e: (string, string), el: (string, string))
    requires e.0 in m && m[e.0] == e.1
    requires next == if el.0 == "" || el.1 == "" then m else m[el.0 := el.1]
    requires el.0 == "" || el.1 == "" || el.0 != e.0
    ensures e.0 in next && next[e.0] == e.1
  {
  }

  lemma FallbackStep(props: seq<(string, Value)>, i: nat)
    requires i < |props|
    ensures var e := FallbackEntry(props[i].0, props[i].1);
      FallbackOf(props[..i + 1]) == if e.0 == "" || e.1 == "" then FallbackOf(props[..i]) else FallbackOf(props[..i])[e.0 := e.1]
  {
    var q := props[..i + 1];
    assert q[..|q| - 1] == props[..i];
    assert q[|q| - 1] == props[i];
  }

  /** Updating a map and then removing `p` is removing `p` first and updating only when the key
      is not `p`. */
  lemma UpdateWithout(m: map<string, string>, k: string, v: string, p: string)
    ensures k != p ==> m[k := v] - {p} == (m - {p})[k := v]
    ensures k == p ==> m[k := v] - {p} == m - {p}
  {
  }

  /** `normalizeFallback`. */
  method NormalizeFallback(value: Value) returns (next: map<string, string>)
    ensures next == FallbackMap(value)
  {
    if !value.Obj? {
      return map[];
    }
    var entries := value.props;
    next := map[];
    for i := 0 to |entries|
      invariant next == FallbackOf(entries[..i]) - {ProtoKey}
    {
      FallbackStep(entries, i);
      var key := entries[i].0;
      var mapped := entries[i].1;
      var from := CapabilityName(key);
      var to := if mapped.Str? then CapabilityName(mapped.s) else "";
      assert (from, to) == FallbackEntry(key, mapped);
      if from == "" || to == "" {
        continue;
      }
      // `next[from] = to` on a plain object: for `__proto__` the prototype setter runs and
      // ignores the string, so nothing is stored.
      UpdateWithout(FallbackOf(entries[..i]), from, to, ProtoKey);
      if from != ProtoKey {
        next := next[from := to];
      }
    }
    assert entries[..|entries|] == entries;
  }

  /** `normalizeSessionKey`: the trimmed string, or "main" for a non-string or blank one. */
  function NormalizeSessionKey(value: Value): (key: string)
    ensures key != "" && IsTrimmed(key)
    ensures IsNonBlank(value) ==> key == Trim(value.s)
    ensures !IsNonBlank(value) ==> key == MainSession
  {
    TrimShape(if value.Str? then value.s else "");
    if !value.Str? then MainSession
    else
      var trimmed := Trim(value.s);
      if trimmed == "" then MainSession else trimmed
  }

  /** A normalised key normalises to itself: the gateway handlers may normalise twice. */
  lemma SessionKeyIdempotent(value: Value)
    ensures NormalizeSessionKey(Str(NormalizeSessionKey(value))) == NormalizeSessionKey(value)
  {
    TrimmedIsFixed(NormalizeSessionKey(value));
  }

  /** The session key of an optional string, as the registry's methods read it. */
  function OptionalKey(key: Option<string>): Value
  {
    if key.Some? then Str(key.value) else Undefined
  }

  /** `normalizeAvatarId`. */
  function NormalizeAvatarId(value: Value): (id: string)
    ensures IsNonBlank(value) ==> id == Trim(value.s)
    ensures !IsNonBlank(value) ==> id == DefaultAvatarId
  {
    if !value.Str? then DefaultAvatarId
    else
      var trimmed := Trim(value.s);
      if trimmed == "" then DefaultAvatarId else trimmed
  }

  /** `normalizeConnectionId`; `uuid` stands for the value `randomUUID()` returns. */
  function NormalizeConnectionId(value: Value, uuid: string): (id: string)
    ensures IsNonBlank(value) ==> id == Trim(value.s)
    ensures !IsNonBlank(value) ==> id == "avatar-" + uuid
  {
    if !value.Str? then "avatar-" + uuid
    else
      var trimmed := Trim(value.s);
      if trimmed == "" then "avatar-" + uuid else trimmed
  }

  /** `normalizeViseme`: nothing for a non-object; `supported` only for a literal `true`;
      the manual mode only when supported and asked for. */
  function NormalizeViseme(value: Value): (v: Option<Viseme>)
    ensures v.None? <==> !IsRecord(value)
    ensures v.Some? ==> (v.value.supported <==> Get(value, "supported") == Bool(true))
    ensures v.Some? ==> (v.value.mode == Manual <==> v.value.supported && Get(value, "mode") == Str("manual"))
  {
    if !IsRecord(value) then None
    else
      var supported := Get(value, "supported") == Bool(true);
      if !supported then Some(Viseme(false, Auto))
      else Some(Viseme(true, if Get(value, "mode") == Str("manual") then Manual else Auto))
  }

  /** A capability set as `hello` stores it. */
  predicate WellFormedCaps(c: Capabilities)
  {
    WellFormedList(c.emotions) && WellFormedList(c.actions) && WellFormedFallback(c.fallback)
  }

  /** The profile `hello` stores; `uuid` and `now` stand for `randomUUID()` and `Date.now()`. */
  function HelloProfile(input: HelloInput, uuid: string, now: int): Profile
  {
    var caps := input.capabilities;
    Profile(
      NormalizeConnectionId(input.connectionId, uuid),
      NormalizeSessionKey(input.sessionKey),
      NormalizeAvatarId(input.avatarId),
      ProtocolVersion,
      Capabilities(
        CapabilityList(Get(caps, "emotions")),
        CapabilityList(Get(caps, "actions")),
        NormalizeViseme(Get(caps, "viseme")),
        FallbackMap(Get(caps, "fallback"))),
      now,
      now)
  }

  /** Whatever the input, `hello` stores well-formed capabilities under a normalised key. */
  lemma HelloProfileWellFormed(input: HelloInput, uuid: string, now: int)
    ensures WellFormedCaps(HelloProfile(input, uuid, now).acceptedCapabilities)
    ensures HelloProfile(input, uuid, now).sessionKey == NormalizeSessionKey(input.sessionKey)
    ensures HelloProfile(input, uuid, now).negotiatedAt == HelloProfile(input, uuid, now).lastSeenAt == now
  {
    var caps := input.capabilities;
    CapabilityListShape(Get(caps, "emotions"));
    CapabilityListShape(Get(caps, "actions"));
    if IsRecord(Get(caps, "fallback")) {
      FallbackOfShape(Get(caps, "fallback").props);
    }
  }

  // ---------------------------------------------------------------------------------------
  // Runtime resolution, pull and the bounded queue
  // ---------------------------------------------------------------------------------------

  /** The only key of a one-entry map. */
  ghost function SoleKey<V>(m: map<string, V>): (k: string)
    requires |m| == 1
    ensures k in m && m.Keys == {k}
  {
    assert m.Keys != {};
    var k :| k in m;
    SoleKeyUnique(m, k);
    k
  }

  lemma SoleKeyUnique<V>(m: map<string, V>, k: string)
    requires |m| == 1 && k in m
    ensures m.Keys == {k}
  {
    var rest := m.Keys - {k};
    assert |rest| == 0;
  }

  /** Which profile serves a request for `requested`: that key, else "main", else the only
      profile when there is exactly one. */
  ghost function ResolveRuntime(profiles: map<string, Profile>, requested: string): Option<string>
  {
    if requested in profiles then Some(requested)
    else if MainSession in profiles then Some(MainSession)
    else if |profiles| == 1 then Some(SoleKey(profiles))
    else None
  }

  /** The resolution succeeds exactly when the key, "main" or a sole profile exists, and the
      key it picks always names a profile. */
  lemma ResolveRuntimeSpec(profiles: map<string, Profile>, requested: string)
    ensures ResolveRuntime(profiles, requested).Some? ==> ResolveRuntime(profiles, requested).value in profiles
    ensures ResolveRuntime(profiles, requested).None? <==>
            requested !in profiles && MainSession !in profiles && |profiles| != 1
    ensures requested in profiles ==> ResolveRuntime(profiles, requested) == Some(requested)
    ensures requested !in profiles && |profiles| == 1 ==>
            ResolveRuntime(profiles, requested).Some? && profiles.Keys == {ResolveRuntime(profiles, requested).value}
  {
    if requested !in profiles && |profiles| == 1 && MainSession in profiles {
      SoleKeyUnique(profiles, MainSession);
    }
  }

  /** `profiles` with the `lastSeenAt` of `key` set to `now`. */
  function Touch(profiles: map<string, Profile>, key: string, now: int): (m: map<string, Profile>)
    requires key in profiles
  {
    profiles[key := profiles[key].(lastSeenAt := now)]
  }

  /** Touching a profile keeps every key, session key and capability set. */
  lemma TouchKeepsShape(profiles: map<string, Profile>, key: string, now: int)
    requires key in profiles
    ensures var m := Touch(profiles, key, now);
      && m.Keys == profiles.Keys
      && forall k :: k in m ==> (m[k].sessionKey == profiles[k].sessionKey
                               && m[k].acceptedCapabilities == profiles[k].acceptedCapabilities)
  {
  }

  /** The queue of a session; a session that never had an event has an empty one. */
  function QueueOf(events: map<string, seq<Event>>, key: string): seq<Event>
  {
    if key in events then events[key] else []
  }

  /** How many events one pull takes at most: `max` truncated when it is a number, 20 otherwise,
      clamped to 1..200 (NaN gives 1). */
  function PullLimit(maxInput: Value): (n: int)
    ensures 1 <= n <= MaxPull
    ensures !maxInput.Number? ==> n == DefaultPullLimit
    ensures maxInput.Number? && maxInput.n.Finite? && 1 <= Trunc(maxInput.n.r) <= MaxPull ==> n == Trunc(maxInput.n.r)
    ensures maxInput.Number? && maxInput.n.Finite? && Trunc(maxInput.n.r) > MaxPull ==> n == MaxPull
    ensures maxInput.Number? && (maxInput.n.NaN? || maxInput.n.NegInf? || (maxInput.n.Finite? && Trunc(maxInput.n.r) < 1)) ==> n == 1
    ensures maxInput == Number(PosInf) ==> n == MaxPull
  {
    if maxInput.Number? then ClampNum(TruncNum(maxInput.n), 1.0, MaxPull as real).Floor
    else DefaultPullLimit
  }

  function Min(a: int, b: int): int
  {
    if a < b then a else b
  }

  /** The queue after appending `e` and dropping the oldest events beyond `limit`. */
  function Enqueued(queue: seq<Event>, e: Event, limit: nat): seq<Event>
  {
    var q := queue + [e];
    if |q| > limit then q[|q| - limit..] else q
  }

  /** A queue of at most `limit` events, every one of them for session `k`. */
  predicate QueueFits(queue: seq<Event>, k: string, limit: nat)
  {
    |queue| <= limit && forall i :: 0 <= i < |queue| ==> queue[i].sessionKey == k
  }

  /** Replacing one session's queue by one that fits keeps every queue fitting. */
  lemma QueueUpdateFits(events: map<string, seq<Event>>, key: string, q: seq<Event>, limit: nat,
                         updated: map<string, seq<Event>>)
    requires forall k :: k in events ==> QueueFits(events[k], k, limit)
    requires QueueFits(q, key, limit) && updated == events[key := q]
    ensures forall k :: k in updated ==> QueueFits(updated[k], k, limit)
  {
  }

  /** Taking the first `n` events of one session's queue keeps every queue fitting and every
      key, and what is taken followed by what is left is the old queue. */
  lemma TakeFromQueue(events: map<string, seq<Event>>, key: string, n: nat, limit: nat,
                      next: map<string, seq<Event>>)
    requires key in events && n <= |events[key]|
    requires forall k :: k in events ==> QueueFits(events[k], k, limit)
    requires next == events[key := events[key][n..]]
    ensures forall k :: k in next ==> QueueFits(next[k], k, limit)
    ensures next.Keys == events.Keys
    ensures events[key][..n] + QueueOf(next, key) == QueueOf(events, key)
  {
    var queue := events[key];
    SuffixFits(queue, n, key, limit);
    QueueUpdateFits(events, key, queue[n..], limit, next);
    assert queue[..n] + queue[n..] == queue;
  }

  /** Enqueueing an event of the queue's own session keeps the queue within its limit. */
  lemma EnqueuedFits(queue: seq<Event>, e: Event, k: string, limit: nat)
    requires QueueFits(queue, k, limit) && e.sessionKey == k
    ensures QueueFits(Enqueued(queue, e, limit), k, limit)
  {
    var q := queue + [e];
    assert forall i :: 0 <= i < |q| ==> q[i].sessionKey == k;
  }

  /** What is left of a queue after its first `n` events are taken still fits. */
  lemma SuffixFits(queue: seq<Event>, n: nat, k: string, limit: nat)
    requires QueueFits(queue, k, limit) && n <= |queue|
    ensures QueueFits(queue[n..], k, limit)
  {
    assert forall i :: 0 <= i < |queue| - n ==> queue[n..][i] == queue[n + i];
  }

  /** Overflow drops the oldest, never the newest: the result is the last `limit` events of
      the queue followed by the new one, in order. */
  lemma EnqueuedSpec(queue: seq<Event>, e: Event, limit: nat)
    ensures |Enqueued(queue, e, limit)| == Min(|queue| + 1, limit)
    ensures Enqueued(queue, e, limit) == (queue + [e])[|queue| + 1 - Min(|queue| + 1, limit)..]
    ensures limit > 0 ==> Enqueued(queue, e, limit)[|Enqueued(queue, e, limit)| - 1] == e
  {
  }

  /** The queue after enqueueing `es` one by one. */
  function EnqueueAll(queue: seq<Event>, es: seq<Event>, limit: nat): seq<Event>
    decreases |es|
  {
    if es == [] then queue else EnqueueAll(Enqueued(queue, es[0], limit), es[1..], limit)
  }

  /** The last `limit` elements of `q` (all of them when there are fewer). */
  function LastN(q: seq<Event>, limit: nat): seq<Event>
  {
    if |q| > limit then q[|q| - limit..] else q
  }

  /** For any limit L and any run of enqueues, the queue holds exactly the last L events of
      what it held and what was added, in their original order. */
  lemma {:induction false} EnqueueAllKeepsLast(queue: seq<Event>, es: seq<Event>, limit: nat)
    requires |queue| <= limit
    ensures EnqueueAll(queue, es, limit) == LastN(queue + es, limit)
    decreases |es|
  {
    if es != [] {
      var q1 := Enqueued(queue, es[0], limit);
      EnqueueAllKeepsLast(q1, es[1..], limit);
      EnqueuedThenRest(queue, es, limit);
    }
  }

  /** One enqueue followed by the rest keeps the same last `limit` events as the whole run. */
  lemma EnqueuedThenRest(queue: seq<Event>, es: seq<Event>, limit: nat)
    requires |queue| <= limit && es != []
    ensures LastN(Enqueued(queue, es[0], limit) + es[1..], limit) == LastN(queue + es, limit)
  {
    var all := queue + es;
    var t := queue + [es[0]];
    assert t + es[1..] == all;
    if |t| > limit {
      assert Enqueued(queue, es[0], limit) == t[1..];
      assert t[1..] + es[1..] == all[1..];
      LastNDropFirst(all, limit);
    } else {
      assert Enqueued(queue, es[0], limit) == t;
    }
  }

  /** Dropping the first element of a sequence longer than `limit` keeps its last `limit`. */
  lemma LastNDropFirst(all: seq<Event>, limit: nat)
    requires |all| > limit
    ensures LastN(all[1..], limit) == LastN(all, limit)
  {
    assert LastN(all, limit) == all[|all| - limit..];
    if |all| - 1 > limit {
      assert all[1..][|all| - 1 - limit..] == all[|all| - limit..];
    } else {
      assert all[|all| - limit..] == all[1..];
    }
  }

  /** The end-to-end scenario: with limit 128, after 130 enqueues into an empty queue, the
      queue holds events 3 to 130 in order. */
  lemma OverflowScenario(es: seq<Event>)
    requires |es| == 130
    ensures EnqueueAll([], es, 128) == es[2..]
    ensures |EnqueueAll([], es, 128)| == 128
  {
    EnqueueAllKeepsLast([], es, 128);
    assert [] + es == es;
  }

  // ---------------------------------------------------------------------------------------
  // Emitting from the tool: downgrade against the negotiated capabilities
  // ---------------------------------------------------------------------------------------

  /** (emotion of the event, emotionFrom of the downgrade record) for a requested emotion. */
  function DowngradeEmotion(emotions: seq<string>, requested: Option<string>): (r: (Option<string>, Option<string>))
    ensures requested.None? ==> r == (None, None)
    ensures requested.Some? && (requested.value == "" || requested.value in emotions) ==> r == (requested, None)
    ensures r.1.Some? <==> requested.Some? && requested.value != "" && requested.value !in emotions
                           && ("neutral" in emotions || (|emotions| > 0 && emotions[0] != ""))
    ensures r.1.Some? ==> r.1 == requested
    ensures r.1.Some? && "neutral" in emotions ==> r.0 == Some("neutral")
    ensures requested.Some? && requested.value != "" && requested.value !in emotions && "neutral" !in emotions ==>
      r.0 == (if |emotions| > 0 && emotions[0] != "" then Some(emotions[0]) else None)
    ensures r.0.Some? && r.0.value != "" ==> r.0.value in emotions
  {
    match requested
    case None => (None, None)
    case Some(e) =>
      if e == "" || e in emotions then (requested, None)
      else
        var fallbackEmotion := if "neutral" in emotions then "neutral" else if |emotions| > 0 then emotions[0] else "";
        if fallbackEmotion != "" then (Some(fallbackEmotion), Some(e)) else (None, None)
  }

  /** The session maps action `a` to a non-empty action it offers. */
  predicate FallbackUsable(actions: seq<string>, fallback: map<string, string>, a: string)
  {
    a in fallback && fallback[a] != "" && fallback[a] in actions
  }

  /** (action of the event, actionFrom of the downgrade record) for a requested action. */
  function DowngradeAction(actions: seq<string>, fallback: map<string, string>, requested: Option<string>): (r: (Option<string>, Option<string>))
    ensures requested.None? ==> r == (None, None)
    ensures requested.Some? && (requested.value == "" || requested.value in actions) ==> r == (requested, None)
    ensures r.1.Some? <==> requested.Some? && requested.value != "" && requested.value !in actions
                           && (FallbackUsable(actions, fallback, requested.value) || (|actions| > 0 && actions[0] != ""))
    ensures r.1.Some? ==> r.1 == requested
    ensures r.1.Some? && FallbackUsable(actions, fallback, requested.value) ==> r.0 == Some(fallback[requested.value])
    ensures requested.Some? && requested.value != "" && requested.value !in actions
            && !FallbackUsable(actions, fallback, requested.value) ==>
      r.0 == (if |actions| > 0 && actions[0] != "" then Some(actions[0]) else None)
    ensures r.0.Some? && r.0.value != "" ==> r.0.value in actions
  {
    match requested
    case None => (None, None)
    case Some(a) =>
      if a == "" || a in actions then (requested, None)
      else
        var mapped := if a in fallback then fallback[a] else "";
        if mapped != "" && mapped in actions then (Some(mapped), Some(a))
        else if |actions| > 0 && actions[0] != "" then (Some(actions[0]), Some(a))
        else (None, None)
  }

  /** The event an accepted emit enqueues and returns. `uuid` and `now` stand for
      `randomUUID()` and `Date.now()`. */
  function ToolOutcome(caps: Capabilities, params: EmitParams, requestedKey: string, resolvedKey: string,
                       uuid: string, now: int): EmitResult
  {
    var requestedEmotion := if params.emotion.Some? then Some(CapabilityName(params.emotion.value)) else None;
    var requestedAction := if params.action.Some? then Some(CapabilityName(params.action.value)) else None;
    var (emotion, emotionFrom) := DowngradeEmotion(caps.emotions, requestedEmotion);
    var (action, actionFrom) := DowngradeAction(caps.actions, caps.fallback, requestedAction);
    var intensity := if params.intensity.Some? && params.intensity.value.Finite?
                     then Some(ClampReal(params.intensity.value.r, 0.0, 1.0)) else None;
    var durationMs := if params.durationMs.Some? && params.durationMs.value.Finite?
                      then Some(Trunc(ClampReal(params.durationMs.value.r, 200.0, 5000.0))) else None;
    var event := Event(
      "evt_" + params.toolCallId + "_" + uuid,
      resolvedKey,
      now,
      Tool,
      emotion,
      action,
      intensity,
      params.gesture,
      durationMs,
      params.text,
      params.runId,
      EventMeta(params.toolCallId, requestedKey));
    Accepted(
      resolvedKey,
      event,
      if emotionFrom.Some? || actionFrom.Some? then Some(Downgraded(emotionFrom, actionFrom)) else None)
  }

  /** What an accepted emit promises: the event is tagged with the resolved key; it only
      names emotions and actions the session offers; the intensity is in [0,1]; the duration
      is a whole number in [200,5000]; a downgrade record is present exactly when something
      was substituted, and names what was asked for. */
  lemma ToolOutcomeSpec(caps: Capabilities, params: EmitParams, requestedKey: string, resolvedKey: string,
                        uuid: string, now: int)
    requires WellFormedCaps(caps)
    ensures var r := ToolOutcome(caps, params, requestedKey, resolvedKey, uuid, now);
      && r.Accepted? && r.sessionKey == resolvedKey && r.event.sessionKey == resolvedKey
      && r.event.source == Tool && r.event.ts == now
      && r.event.meta == EventMeta(params.toolCallId, requestedKey)
      && (r.event.emotion.Some? ==> r.event.emotion.value in caps.emotions || r.event.emotion == Some(""))
      && (r.event.action.Some? ==> r.event.action.value in caps.actions || r.event.action == Some(""))
      && (r.event.emotion.Some? ==> params.emotion.Some?)
      && (r.event.action.Some? ==> params.action.Some?)
      && (r.event.intensity.Some? ==> 0.0 <= r.event.intensity.value <= 1.0)
      && (r.event.intensity.Some? <==> params.intensity.Some? && params.intensity.value.Finite?)
      && (r.event.durationMs.Some? ==> 200 <= r.event.durationMs.value <= 5000)
      && (r.event.durationMs.Some? <==> params.durationMs.Some? && params.durationMs.value.Finite?)
      && (r.downgraded.Some? ==> r.downgraded.value.emotionFrom.Some? || r.downgraded.value.actionFrom.Some?)
      && (r.downgraded.Some? && r.downgraded.value.emotionFrom.Some? ==>
            r.downgraded.value.emotionFrom == Some(CapabilityName(params.emotion.value))
            && r.downgraded.value.emotionFrom.value !in caps.emotions)
      && (r.downgraded.Some? && r.downgraded.value.actionFrom.Some? ==>
            r.downgraded.value.actionFrom == Some(CapabilityName(params.action.value))
            && r.downgraded.value.actionFrom.value !in caps.actions)
  {
    var r := ToolOutcome(caps, params, requestedKey, resolvedKey, uuid, now);
    if params.durationMs.Some? && params.durationMs.value.Finite? {
      var c := ClampReal(params.durationMs.value.r, 200.0, 5000.0);
      assert 200 <= Trunc(c) <= 5000;
    }
  }

  /** Each field of an accepted emit's event, by its own rule: an unfolding aid for the lemmas
      that state what those rules mean. */
  lemma ToolOutcomeParts(caps: Capabilities, params: EmitParams, requestedKey: string, resolvedKey: string,
                         uuid: string, now: int)
    ensures var r := ToolOutcome(caps, params, requestedKey, resolvedKey, uuid, now);
      var requestedEmotion := if params.emotion.Some? then Some(CapabilityName(params.emotion.value)) else None;
      var requestedAction := if params.action.Some? then Some(CapabilityName(params.action.value)) else None;
      var de := DowngradeEmotion(caps.emotions, requestedEmotion);
      var da := DowngradeAction(caps.actions, caps.fallback, requestedAction);
      && r.event.emotion == de.0 && r.event.action == da.0
      && r.event.intensity == (if params.intensity.Some? && params.intensity.value.Finite?
                               then Some(ClampReal(params.intensity.value.r, 0.0, 1.0)) else None)
      && r.event.durationMs == (if params.durationMs.Some? && params.durationMs.value.Finite?
                                then Some(Trunc(ClampReal(params.durationMs.value.r, 200.0, 5000.0))) else None)
      && r.downgraded == (if de.1.Some? || da.1.Some? then Some(Downgraded(de.1, da.1)) else None)
  {
  }

  /** The numbers of an accepted emit's event: a finite intensity is kept inside [0, 1] and
      moved to the nearer bound outside it, a finite duration likewise for [200, 5000] and then
      truncated; the emotion and action are the downgrade choices, and the downgrade record
      holds exactly the two downgrade notes. */
  lemma ToolOutcomeFields(caps: Capabilities, params: EmitParams, requestedKey: string, resolvedKey: string,
                          uuid: string, now: int, x: real)
    ensures var r := ToolOutcome(caps, params, requestedKey, resolvedKey, uuid, now);
      && (params.intensity == Some(Finite(x)) ==>
            && (0.0 <= x <= 1.0 ==> r.event.intensity == Some(x))
            && (x > 1.0 ==> r.event.intensity == Some(1.0))
            && (x < 0.0 ==> r.event.intensity == Some(0.0)))
      && (params.durationMs == Some(Finite(x)) ==>
            && (200.0 <= x <= 5000.0 ==> r.event.durationMs == Some(Trunc(x)))
            && (x > 5000.0 ==> r.event.durationMs == Some(5000))
            && (x < 200.0 ==> r.event.durationMs == Some(200)))
      && var requestedEmotion := if params.emotion.Some? then Some(CapabilityName(params.emotion.value)) else None;
      var requestedAction := if params.action.Some? then Some(CapabilityName(params.action.value)) else None;
      var de := DowngradeEmotion(caps.emotions, requestedEmotion);
      var da := DowngradeAction(caps.actions, caps.fallback, requestedAction);
      && r.event.emotion == de.0 && r.event.action == da.0
      && (r.downgraded.Some? <==> de.1.Some? || da.1.Some?)
      && (r.downgraded.Some? ==> r.downgraded.value == Downgraded(de.1, da.1))
  {
    ToolOutcomeParts(caps, params, requestedKey, resolvedKey, uuid, now);
    assert Trunc(5000.0) == 5000;
    assert Trunc(200.0) == 200;
  }

  /** The downgrade test of the registry, for any names: an emotion the session does not
      offer becomes `neutral` when that is offered, an action it does not offer becomes its
      offered fallback, an intensity of 2 becomes 1 and a duration of 9000 ms becomes 5000,
      and the downgrade record names the emotion and action asked for. */
  lemma DowngradeScenario(caps: Capabilities, params: EmitParams, key: string, uuid: string, now: int)
    requires params.emotion.Some? && IsCapabilityName(params.emotion.value)
    requires params.emotion.value !in caps.emotions && "neutral" in caps.emotions
    requires params.action.Some? && IsCapabilityName(params.action.value)
    requires params.action.value !in caps.actions && params.action.value in caps.fallback
    requires caps.fallback[params.action.value] != "" && caps.fallback[params.action.value] in caps.actions
    requires params.intensity == Some(Finite(2.0)) && params.durationMs == Some(Finite(9000.0))
    ensures var r := ToolOutcome(caps, params, key, key, uuid, now);
      && r.event.emotion == Some("neutral")
      && r.event.action == Some(caps.fallback[params.action.value])
      && r.event.intensity == Some(1.0) && r.event.durationMs == Some(5000)
      && r.downgraded == Some(Downgraded(params.emotion, params.action))
  {
    ToolOutcomeParts(caps, params, key, key, uuid, now);
    assert (5000.0).Floor == 5000;
  }

  /** An action named `__proto__` never finds a fallback: the table cannot hold that key, so
      the first offered action, if any, stands in for it. */
  lemma ProtoFallbackIgnored(value: Value, actions: seq<string>)
    requires ProtoKey !in actions
    ensures ProtoKey !in FallbackMap(value)
    ensures var first := if |actions| > 0 && actions[0] != "" then Some(actions[0]) else None;
      DowngradeAction(actions, FallbackMap(value), Some(ProtoKey)) == (first, if first.Some? then Some(ProtoKey) else None)
  {
  }

  /** `__proto__` is already a normalised name, so an entry may carry it. */
  lemma ProtoKeyNormalized()
    ensures CapabilityName(ProtoKey) == ProtoKey
  {
    assert IsTrimmed(ProtoKey);
    TrimmedIsFixed(ProtoKey);
    assert forall i :: 0 <= i < |ProtoKey| ==> LowerChar(ProtoKey[i]) == ProtoKey[i];
    assert Lower(ProtoKey) == ProtoKey;
  }

  /** A declared `__proto__` fallback is read but not stored: the entry is usable, yet the
      table a plain object builds from it is empty. */
  lemma ProtoEntryDropped(target: string)
    requires CapabilityName(target) != ""
    ensures FallbackOf([(ProtoKey, Str(target))]) == map[ProtoKey := CapabilityName(target)]
    ensures FallbackMap(Obj([(ProtoKey, Str(target))])) == map[]
  {
    var props := [(ProtoKey, Str(target))];
    ProtoKeyNormalized();
    FallbackOfLast(props);
    assert props[..0] == [];
  }

  // ---------------------------------------------------------------------------------------
  // The registry
  // ---------------------------------------------------------------------------------------

  class AvatarState {
    var profiles: map<string, Profile>
    var events: map<string, seq<Event>>
    const queueLimit: nat

    /** Each profile sits under its own session key with normalised capabilities; queues exist
        only for sessions with a profile, hold at most `queueLimit` events each, and hold only
        events tagged with their session key. */
    ghost predicate Valid()
      reads this
    {
      && (forall k :: k in profiles ==> profiles[k].sessionKey == k && WellFormedCaps(profiles[k].acceptedCapabilities))
      && events.Keys <= profiles.Keys
      && (forall k :: k in events ==> QueueFits(events[k], k, queueLimit))
    }

    constructor (queueLimit: nat)
      ensures Valid()
      ensures profiles == map[] && events == map[] && this.queueLimit == queueLimit
    {
      this.queueLimit := queueLimit;
      profiles := map[];
      events := map[];
    }

    /** `hello`: stores the normalised profile under its key, replacing any earlier one, and
        leaves every other profile and every queue as it was. */
    method Hello(input: HelloInput, uuid: string, now: int) returns (ack: HelloAck)
      requires Valid()
      modifies this
      ensures Valid()
      ensures var p := HelloProfile(input, uuid, now);
        && profiles == old(profiles)[p.sessionKey := p]
        && events == old(events)
        && ack == HelloAck(p.connectionId, p.sessionKey, p.avatarId, ProtocolVersion, p.acceptedCapabilities, now)
    {
      var sessionKey := NormalizeSessionKey(input.sessionKey);
      var connectionId := NormalizeConnectionId(input.connectionId, uuid);
      var avatarId := NormalizeAvatarId(input.avatarId);
      var emotions := NormalizeStringList(Get(input.capabilities, "emotions"));
      var actions := NormalizeStringList(Get(input.capabilities, "actions"));
      var fallback := NormalizeFallback(Get(input.capabilities, "fallback"));
      var viseme := NormalizeViseme(Get(input.capabilities, "viseme"));
      var profile := Profile(connectionId, sessionKey, avatarId, ProtocolVersion,
                             Capabilities(emotions, actions, viseme, fallback), now, now);
      HelloProfileWellFormed(input, uuid, now);
      profiles := profiles[sessionKey := profile];
      ack := HelloAck(connectionId, sessionKey, avatarId, ProtocolVersion, profile.acceptedCapabilities, now);
    }

    /** `goodbye`: removes the profile and the queue of the key, unless there is no profile or a
        non-blank connection id differs from the stored one; then nothing changes. */
    method Goodbye(sessionKeyInput: Value, connectionIdInput: Value) returns (removed: bool)
      requires Valid()
      modifies this
      ensures Valid()
      ensures var key := NormalizeSessionKey(sessionKeyInput);
        && removed == (key in old(profiles) &&
                       (IsNonBlank(connectionIdInput) ==> old(profiles)[key].connectionId == Trim(connectionIdInput.s)))
        && (removed ==> profiles == old(profiles) - {key} && events == old(events) - {key})
        && (!removed ==> profiles == old(profiles) && events == old(events))
    {
      var sessionKey := NormalizeSessionKey(sessionKeyInput);
      if sessionKey !in profiles {
        return false;
      }
      var existing := profiles[sessionKey];
      if connectionIdInput.Str? && Trim(connectionIdInput.s) != "" {
        if existing.connectionId != Trim(connectionIdInput.s) {
          return false;
        }
      }
      profiles := profiles - {sessionKey};
      events := events - {sessionKey};
      return true;
    }

    /** `getProfile`: the profile of the key, whose `lastSeenAt` becomes `now`. */
    method GetProfile(sessionKeyInput: Value, now: int) returns (profile: Option<Profile>)
      requires Valid()
      modifies this
      ensures Valid()
      ensures var key := NormalizeSessionKey(sessionKeyInput);
        && (profile.Some? <==> key in old(profiles))
        && (profile.Some? ==> profile.value == old(profiles)[key].(lastSeenAt := now)
                              && profiles == Touch(old(profiles), key, now))
        && (profile.None? ==> profiles == old(profiles))
        && events == old(events)
    {
      var sessionKey := NormalizeSessionKey(sessionKeyInput);
      if sessionKey !in profiles {
        return None;
      }
      var touched := profiles[sessionKey].(lastSeenAt := now);
      profiles := profiles[sessionKey := touched];
      return Some(touched);
    }

    /** The resolution order of `getProfileForRuntime`: the key, else "main", else the sole
        profile. */
    method ResolveKey(requested: string) returns (key: Option<string>)
      ensures key == ResolveRuntime(profiles, requested)
      ensures key.Some? ==> key.value in profiles
    {
      ResolveRuntimeSpec(profiles, requested);
      if requested in profiles {
        key := Some(requested);
      } else if MainSession in profiles {
        key := Some(MainSession);
      } else if |profiles| == 1 {
        assert profiles.Keys != {};
        var k :| k in profiles;
        SoleKeyUnique(profiles, k);
        key := Some(k);
      } else {
        key := None;
      }
    }

    /** `getProfileForRuntime`: the profile that serves the key by the resolution order, whose
        `lastSeenAt` becomes `now`. */
    method GetProfileForRuntime(sessionKeyInput: Value, now: int) returns (profile: Option<Profile>)
      requires Valid()
      modifies this
      ensures Valid()
      ensures var resolved := ResolveRuntime(old(profiles), NormalizeSessionKey(sessionKeyInput));
        && (profile.Some? <==> resolved.Some?)
        && (resolved.Some? ==> resolved.value in old(profiles)
                               && profile.value == old(profiles)[resolved.value].(lastSeenAt := now)
                               && profiles == Touch(old(profiles), resolved.value, now))
        && (resolved.None? ==> profiles == old(profiles))
        && events == old(events)
    {
      var requested := NormalizeSessionKey(sessionKeyInput);
      var resolved := ResolveKey(requested);
      if resolved.None? {
        return None;
      }
      var key := resolved.value;
      ghost var before := profiles;
      TouchKeepsShape(profiles, key, now);
      var touched := profiles[key].(lastSeenAt := now);
      profiles := profiles[key := touched];
      assert profiles == Touch(before, key, now);
      assert profiles.Keys == before.Keys;
      return Some(touched);
    }

    /** `pull`: removes the first `PullLimit(max)` events of the key's queue and returns them in
        queue order; what it returns followed by what remains is the old queue. */
    method Pull(sessionKeyInput: Value, maxInput: Value) returns (pulled: seq<Event>)
      requires Valid()
      modifies this
      ensures Valid()
      ensures var key := NormalizeSessionKey(sessionKeyInput);
        var old_queue := QueueOf(old(events), key);
        && |pulled| == Min(PullLimit(maxInput), |old_queue|)
        && pulled + QueueOf(events, key) == old_queue
        && (key in old(events) && old_queue != [] ==> events == old(events)[key := old_queue[|pulled|..]])
        && (key !in old(events) || old_queue == [] ==> events == old(events))
        && profiles == old(profiles)
    {
      var sessionKey := NormalizeSessionKey(sessionKeyInput);
      if sessionKey !in events || events[sessionKey] == [] {
        return [];
      }
      var queue := events[sessionKey];
      var max := PullLimit(maxInput);
      var n := Min(max, |queue|);
      pulled := queue[..n];
      ghost var before := events;
      events := events[sessionKey := queue[n..]];
      TakeFromQueue(before, sessionKey, n, queueLimit, events);
    }

    /** `pendingCount`: how many events wait in the key's queue, never more than the limit. */
    function PendingCount(sessionKeyInput: Value): (n: nat)
      reads this
      ensures n == |QueueOf(events, NormalizeSessionKey(sessionKeyInput))|
      ensures Valid() ==> n <= queueLimit
      ensures NormalizeSessionKey(sessionKeyInput) !in events ==> n == 0
    {
      var sessionKey := NormalizeSessionKey(sessionKeyInput);
      if sessionKey in events then |events[sessionKey]| else 0
    }

    /** `emitFromTool`: with no profile to serve the key, rejects as unavailable and changes
        nothing; otherwise builds the downgraded event for the resolved session and enqueues it. */
    method EmitFromTool(params: EmitParams, uuid: string, now: int) returns (result: EmitResult)
      requires Valid()
      modifies this
      ensures Valid()
      ensures var key := NormalizeSessionKey(OptionalKey(params.sessionKey));
        var resolved := ResolveRuntime(old(profiles), key);
        && (resolved.None? ==> result == Rejected(Unavailable, key)
                               && profiles == old(profiles) && events == old(events))
        && (resolved.Some? ==>
              && resolved.value in old(profiles)
              && result == ToolOutcome(old(profiles)[resolved.value].acceptedCapabilities, params, key,
                                       resolved.value, uuid, now)
              && profiles == Touch(old(profiles), resolved.value, now)
              && events == old(events)[resolved.value :=
                                       Enqueued(QueueOf(old(events), resolved.value), result.event, queueLimit)])
    {
      var sessionKey := NormalizeSessionKey(OptionalKey(params.sessionKey));
      SessionKeyIdempotent(OptionalKey(params.sessionKey));
      var profile := GetProfileForRuntime(Str(sessionKey), now);
      if profile.None? {
        return Rejected(Unavailable, sessionKey);
      }
      var resolvedSessionKey := profile.value.sessionKey;
      var capabilities := profile.value.acceptedCapabilities;
      result := ToolOutcome(capabilities, params, sessionKey, resolvedSessionKey, uuid, now);
      EnqueueEvent(resolvedSessionKey, result.event);
    }

    /** `enqueueEvent`: appends to the key's queue, dropping the oldest events beyond the limit. */
    method EnqueueEvent(sessionKey: string, event: Event)
      requires Valid()
      requires sessionKey in profiles && event.sessionKey == sessionKey
      modifies this
      ensures Valid()
      ensures events == old(events)[sessionKey := Enqueued(QueueOf(old(events), sessionKey), event, queueLimit)]
      ensures profiles == old(profiles)
    {
      var queue := QueueOf(events, sessionKey);
      ghost var next := Enqueued(queue, event, queueLimit);
      EnqueuedFits(queue, event, sessionKey, queueLimit);
      queue := queue + [event];
      if |queue| > queueLimit {
        queue := queue[|queue| - queueLimit..];
      }
      assert queue == next;
      ghost var before := events;
      events := events[sessionKey := queue];
      QueueUpdateFits(before, sessionKey, queue, queueLimit, events);
    }
  }
}
