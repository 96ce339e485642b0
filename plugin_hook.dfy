/**
 * How the desktop front end turns an event from the connection manager into a `render`
 * message for its store: the emotion is checked against the names it knows, the action is
 * resolved against the animation clips it has, and the intensity is clamped.
 */
module PluginHook {
  import opened Options
  import opened Text
  import opened Js
  import opened Simulate
  import AppState

  const BridgeSessionId: string := "avatar-plugin"
  const KnownEmotions: seq<string> :=
    ["neutral", "happy", "sad", "angry", "surprised", "relaxed", "sorry", "confused"]
  const FallbackIntensity: real := 0.8

  /** `!value` for an optional string: absent or empty. */
  predicate Missing(value: Option<string>)
  {
    value.None? || value.value == ""
  }

  /** The trimmed, lower-cased form the hook compares names in. */
  function Folded(s: string): string
  {
    Lower(Trim(s))
  }

  /** `normalizeEmotion`: the folded name when it is one of the known emotions, else nothing. */
  function NormalizeEmotion(value: Option<string>): (r: Option<string>)
    ensures r.Some? <==> !Missing(value) && Folded(value.value) in KnownEmotions
    ensures r.Some? ==> r.value == Folded(value.value) && r.value in KnownEmotions
  {
    if Missing(value) then None
    else
      var v := Folded(value.value);
      if v == "" then None
      else if v in KnownEmotions then Some(v) else None
  }

  /** A known emotion is its own folded form. */
  lemma KnownEmotionsFolded(e: string)
    requires e in KnownEmotions
    ensures Folded(e) == e
  {
    assert LowerAscii(e);
    LowerAsciiFixed(e);
  }

  /** Normalising a normalised emotion changes nothing. */
  lemma NormalizeEmotionIdempotent(value: Option<string>)
    ensures NormalizeEmotion(NormalizeEmotion(value)) == NormalizeEmotion(value)
  {
    var r := NormalizeEmotion(value);
    if r.Some? {
      KnownEmotionsFolded(r.value);
    }
  }

  /** `deriveWireState`: `thinking` and `talking`, whatever their case and surrounding space,
      give the thinking and speaking states; everything else, including no action, gives
      idle. The text plays no part. */
  function DeriveWireState(action: Option<string>, text: Option<string>): (r: AgentState)
    ensures r == Thinking <==> Folded(action.GetOr("")) == "thinking"
    ensures r == Speaking <==> Folded(action.GetOr("")) == "talking"
    ensures r == Idle <==> Folded(action.GetOr("")) != "thinking" && Folded(action.GetOr("")) != "talking"
    ensures r in {Idle, Thinking, Speaking}
  {
    var a := Folded(action.GetOr(""));
    if a == "thinking" then Thinking
    else if a == "talking" then Speaking
    else Idle
  }

  /** The index of the first occurrence of `x` in `xs`, if there is one. */
  function IndexOf(xs: seq<string>, x: string): (r: Option<nat>)
    ensures r.Some? ==> r.value < |xs| && xs[r.value] == x
    ensures r.Some? ==> forall j :: 0 <= j < r.value ==> xs[j] != x
    ensures r.None? ==> forall j :: 0 <= j < |xs| ==> xs[j] != x
    decreases |xs|
  {
    if xs == [] then None
    else if xs[0] == x then Some(0)
    else
      match IndexOf(xs[1..], x)
      case None => None
      case Some(i) => Some(i + 1)
  }

  /** The folded form of every clip name, in order. */
  function FoldAll(names: seq<string>): (r: seq<string>)
    ensures |r| == |names| && forall i :: 0 <= i < |names| ==> r[i] == Folded(names[i])
  {
    seq(|names|, i requires 0 <= i < |names| => Folded(names[i]))
  }

  /** The index of the first clip whose folded name is `lower`, if there is one. */
  function FirstMatch(clipNames: seq<string>, lower: string): (r: Option<nat>)
    ensures r.Some? ==> r.value < |clipNames| && Folded(clipNames[r.value]) == lower
    ensures r.Some? ==> forall j :: 0 <= j < r.value ==> Folded(clipNames[j]) != lower
    ensures r.None? ==> forall j :: 0 <= j < |clipNames| ==> Folded(clipNames[j]) != lower
  {
    var folded := FoldAll(clipNames);
    var r := IndexOf(folded, lower);
    r
  }

  /** `resolveGestureName`: nothing for an absent or blank action; otherwise the first clip
      name that matches it ignoring case and surrounding space, spelt as the clip spells it,
      or else the trimmed action itself. */
  function ResolveGestureName(action: Option<string>, clipNames: seq<string>): (r: Option<string>)
    ensures r.None? <==> Missing(action) || Trim(action.value) == ""
    ensures r.Some? ==> match FirstMatch(clipNames, Folded(action.value))
      case Some(i) => r.value == clipNames[i]
      case None => r.value == Trim(action.value)
  {
    if Missing(action) then None
    else
      var raw := Trim(action.value);
      if raw == "" then None
      else
        match FirstMatch(clipNames, Lower(raw))
        case Some(i) => Some(clipNames[i])
        case None => Some(raw)
  }

  /** A resolved gesture resolves to itself: resolving is idempotent. */
  lemma ResolveGestureIdempotent(action: Option<string>, clipNames: seq<string>)
    ensures ResolveGestureName(ResolveGestureName(action, clipNames), clipNames)
      == ResolveGestureName(action, clipNames)
  {
    var r := ResolveGestureName(action, clipNames);
    if r.Some? {
      var lower := Folded(action.value);
      match FirstMatch(clipNames, lower)
      case Some(i) =>
        assert Folded(r.value) == lower;
        assert |Trim(r.value)| == |lower| > 0;
      case None =>
        TrimIdempotent(action.value);
    }
  }

  /** An event from the connection manager; the intensity is whatever value it carried. */
  datatype PluginEvent = PluginEvent(
    action: Option<string>, emotion: Option<string>, text: Option<string>, intensity: Value)

  /** The render message the hook builds from an event, with the gesture and text it adds. */
  datatype BridgeRender = BridgeRender(message: Message, gesture: Option<string>, text: Option<string>)

  /** The intensity the hook sends: a finite number clamped to [0, 1], else 0.8. */
  function EventIntensity(v: Value): (r: real)
    ensures 0.0 <= r <= 1.0
    ensures IsFiniteNumber(v) && 0.0 <= v.n.r <= 1.0 ==> r == v.n.r
    ensures IsFiniteNumber(v) && v.n.r > 1.0 ==> r == 1.0
    ensures IsFiniteNumber(v) && v.n.r < 0.0 ==> r == 0.0
    ensures !IsFiniteNumber(v) ==> r == FallbackIntensity
  {
    if IsFiniteNumber(v) then ClampReal(v.n.r, 0.0, 1.0) else FallbackIntensity
  }

  /** The `onPluginEvent` callback's message: state derived from the resolved gesture,
      emotion normalised, intensity clamped, under the bridge's own session id. */
  function TranslateEvent(event: PluginEvent, clipNames: seq<string>): (r: BridgeRender)
    ensures r.gesture == ResolveGestureName(event.action, clipNames)
    ensures r.text == event.text
    ensures r.message.RenderMsg? && r.message.sessionId == BridgeSessionId
    ensures r.message.state == DeriveWireState(r.gesture, event.text)
    ensures r.message.emotion == NormalizeEmotion(event.emotion)
    ensures r.message.intensity == Some(EventIntensity(event.intensity))
  {
    var gesture := ResolveGestureName(event.action, clipNames);
    BridgeRender(
      RenderMsg(BridgeSessionId, DeriveWireState(gesture, event.text),
        NormalizeEmotion(event.emotion), Some(EventIntensity(event.intensity))),
      gesture, event.text)
  }

  /** The message the callback hands to the store. */
  function EventMessage(event: PluginEvent, clipNames: seq<string>): Message
  {
    TranslateEvent(event, clipNames).message
  }

  /** A render message that carries a wire state, a known emotion if any, and an intensity in
      [0, 1]. */
  predicate SaneRender(m: Message)
  {
    && m.RenderMsg?
    && m.state in {Idle, Thinking, Speaking}
    && (m.emotion.Some? ==> m.emotion.value in KnownEmotions)
    && m.intensity.Some? && 0.0 <= m.intensity.value <= 1.0
  }

  /** Every message the callback builds is sane. */
  lemma EventMessageSane(event: PluginEvent, clipNames: seq<string>)
    ensures SaneRender(EventMessage(event, clipNames))
  {
    var t := TranslateEvent(event, clipNames);
    assert t.message.state == DeriveWireState(t.gesture, event.text);
    assert t.message.emotion == NormalizeEmotion(event.emotion);
  }

  /** Applying a sane render leaves the store showing a wire state, an intensity in [0, 1],
      and a known emotion or the one it showed before. */
  lemma SaneRenderApplied(c: AppState.Current, m: Message)
    requires SaneRender(m)
    ensures var next := AppState.Applied(c, m);
      && next.state in {Idle, Thinking, Speaking}
      && 0.0 <= next.intensity <= 1.0
      && (next.emotion in KnownEmotions || next.emotion == c.emotion)
      && next.intensityDeltaClamp == c.intensityDeltaClamp
  {
    assert AppState.Sim(AppState.Applied(c, m)) == Apply(AppState.Sim(c), m);
  }

  /** Whatever event arrives, the store afterwards shows one of the three wire states, an
      intensity in [0, 1], and either a known emotion or the one it already showed. */
  lemma EventKeepsDisplaySane(c: AppState.Current, event: PluginEvent, clipNames: seq<string>)
    ensures var next := AppState.Applied(c, EventMessage(event, clipNames));
      && next.state in {Idle, Thinking, Speaking}
      && 0.0 <= next.intensity <= 1.0
      && (next.emotion in KnownEmotions || next.emotion == c.emotion)
      && next.intensityDeltaClamp == c.intensityDeltaClamp
  {
    EventMessageSane(event, clipNames);
    SaneRenderApplied(c, EventMessage(event, clipNames));
  }

  /** The callback: translate the event and apply it to the store. */
  method OnPluginEvent(store: AppState.AppStore, event: PluginEvent, clipNames: seq<string>)
    modifies store
    ensures store.current == AppState.Applied(old(store.current), EventMessage(event, clipNames))
  {
    var msg := EventMessage(event, clipNames);
    store.ApplyMessage(msg);
  }
}
