/**
 * The front end's protocol reducer: how an `agent_state` or `render` message turns the
 * displayed agent state, emotion and intensity into the next ones.
 */
module Simulate {
  import opened Options

  /** The agent states the front end displays. The wire protocol names the first three; the
      animation mapping also knows `tool_running` and `error`. */
  datatype AgentState = Idle | Thinking | Speaking | ToolRunning | Error

  /** A protocol message after parsing. `Other` stands for an object whose `type` is neither
      of the two the reducer knows. Emotions are kept as the names the sender used. */
  datatype Message =
    | AgentStateMsg(sessionId: string, state: AgentState, detail: Option<string>, progress: Option<real>)
    | RenderMsg(sessionId: string, state: AgentState, emotion: Option<string>, intensity: Option<real>)
    | Other(kind: string)

  /** What the reducer keeps: the displayed state, emotion and intensity. */
  datatype SimState = SimState(state: AgentState, emotion: string, intensity: real)

  const DefaultEmotion: string := "neutral"
  const DefaultIntensity: real := 0.8

  /** `createInitialSimulatedState`. */
  function Initial(): (r: SimState)
    ensures r.state == Idle && r.emotion == DefaultEmotion && r.intensity == DefaultIntensity
  {
    SimState(Idle, DefaultEmotion, DefaultIntensity)
  }

  /** `applyProtocolMessage`: `agent_state` replaces only the state; `render` sets the state,
      takes its emotion when given and keeps the current one otherwise, and takes its
      intensity when given and falls back to 0.8, not to the current intensity, otherwise;
      any other message changes nothing. */
  function Apply(current: SimState, message: Message): (r: SimState)
    ensures message.AgentStateMsg? ==>
      r.state == message.state && r.emotion == current.emotion && r.intensity == current.intensity
    ensures message.RenderMsg? ==>
      && r.state == message.state
      && r.emotion == message.emotion.GetOr(current.emotion)
      && r.intensity == message.intensity.GetOr(DefaultIntensity)
    ensures message.Other? ==> r == current
  {
    match message
    case AgentStateMsg(_, state, _, _) => current.(state := state)
    case RenderMsg(_, state, emotion, intensity) =>
      SimState(state, emotion.GetOr(current.emotion), intensity.GetOr(DefaultIntensity))
    case Other(_) => current
  }

  /** Applying the same message twice is applying it once. */
  lemma ApplyIdempotent(current: SimState, message: Message)
    ensures Apply(Apply(current, message), message) == Apply(current, message)
  {
  }

  /** After a `render` the only thing left of the previous state is its emotion, and only when
      the message names none: two states with the same emotion, or any two states when the
      message names one, come out the same. */
  lemma RenderForgetsCurrent(s1: SimState, s2: SimState, message: Message)
    requires message.RenderMsg?
    requires message.emotion.Some? || s1.emotion == s2.emotion
    ensures Apply(s1, message) == Apply(s2, message)
  {
  }

  /** An `agent_state` message followed by a `render` is the `render` alone: the intermediate
      state change leaves no trace. */
  lemma RenderOverridesAgentState(current: SimState, first: Message, second: Message)
    requires first.AgentStateMsg? && second.RenderMsg?
    ensures Apply(Apply(current, first), second) == Apply(current, second)
  {
  }

  /** The messages applied one after another, in order. */
  function ApplyAll(current: SimState, messages: seq<Message>): SimState
    decreases |messages|
  {
    if messages == [] then current else ApplyAll(Apply(current, messages[0]), messages[1..])
  }

  /** A run of `agent_state` messages keeps the emotion and intensity and leaves the state of
      the last one. */
  lemma {:induction false} AgentStatesKeepExpression(current: SimState, messages: seq<Message>)
    requires messages != []
    requires forall i :: 0 <= i < |messages| ==> messages[i].AgentStateMsg?
    ensures ApplyAll(current, messages)
      == current.(state := messages[|messages| - 1].state)
    decreases |messages|
  {
    if |messages| > 1 {
      AgentStatesKeepExpression(Apply(current, messages[0]), messages[1..]);
      assert messages[1..][|messages[1..]| - 1] == messages[|messages| - 1];
    }
  }
}
