/**
 * The front end's state store: the displayed state, emotion and intensity together with the
 * per-frame step limit the animation uses, replaced as a whole by each store action.
 */
module AppState {
  import opened Simulate

  /** The store's `current` record: the reducer's fields plus `intensityDeltaClamp`. */
  datatype Current = Current(state: AgentState, emotion: string, intensity: real, intensityDeltaClamp: real)

  const InitialDeltaClamp: real := 0.05

  /** The reducer's view of the record. */
  function Sim(c: Current): SimState
  {
    SimState(c.state, c.emotion, c.intensity)
  }

  /** `initialState`: the reducer's initial state and a step limit of 0.05. */
  function InitialCurrent(): (r: Current)
    ensures Sim(r) == Simulate.Initial()
    ensures r.intensityDeltaClamp == InitialDeltaClamp
  {
    Current(Idle, DefaultEmotion, DefaultIntensity, InitialDeltaClamp)
  }

  /** `{ ...s.current, ...next }` with `next` the reducer's output: the reducer decides the
      three displayed fields and the step limit is kept. */
  function Applied(c: Current, message: Message): (r: Current)
    ensures Sim(r) == Simulate.Apply(Sim(c), message)
    ensures r.intensityDeltaClamp == c.intensityDeltaClamp
  {
    var next := Simulate.Apply(Sim(c), message);
    c.(state := next.state, emotion := next.emotion, intensity := next.intensity)
  }

  /** The four store actions, as values. */
  datatype Action = ApplyMessageAction(message: Message) | SetStateAction(state: AgentState)
    | SetEmotionAction(emotion: string) | ResetAction

  /** The record after one action. */
  function Step(c: Current, a: Action): Current
  {
    match a
    case ApplyMessageAction(m) => Applied(c, m)
    case SetStateAction(st) => c.(state := st)
    case SetEmotionAction(e) => c.(emotion := e)
    case ResetAction => InitialCurrent()
  }

  /** The record after a run of actions, in order. */
  function Run(c: Current, actions: seq<Action>): Current
    decreases |actions|
  {
    if actions == [] then c else Run(Step(c, actions[0]), actions[1..])
  }

  /** No action changes the step limit: whatever the store has gone through since it was
      created, the limit is still 0.05. */
  lemma {:induction false} DeltaClampConstant(c: Current, actions: seq<Action>)
    requires c.intensityDeltaClamp == InitialDeltaClamp
    ensures Run(c, actions).intensityDeltaClamp == InitialDeltaClamp
    decreases |actions|
  {
    if actions != [] {
      DeltaClampConstant(Step(c, actions[0]), actions[1..]);
    }
  }

  /** With no reset among them, a run of messages moves the reducer view exactly as the
      reducer alone would. */
  lemma {:induction false} RunIsReducerRun(c: Current, messages: seq<Message>)
    ensures Sim(Run(c, seq(|messages|, i requires 0 <= i < |messages| => ApplyMessageAction(messages[i]))))
      == Simulate.ApplyAll(Sim(c), messages)
    decreases |messages|
  {
    var actions := seq(|messages|, i requires 0 <= i < |messages| => ApplyMessageAction(messages[i]));
    if messages != [] {
      var rest := seq(|messages| - 1, i requires 0 <= i < |messages| - 1 => ApplyMessageAction(messages[1..][i]));
      assert actions[1..] == rest;
      RunIsReducerRun(Step(c, actions[0]), messages[1..]);
    }
  }

  /** The zustand store, reduced to its one field. */
  class AppStore {
    var current: Current

    constructor()
      ensures current == InitialCurrent()
    {
      current := InitialCurrent();
    }

    /** `applyMessage`. */
    method ApplyMessage(message: Message)
      modifies this
      ensures current == Applied(old(current), message)
    {
      current := Applied(current, message);
    }

    /** `setState`: only the state changes. */
    method SetState(state: AgentState)
      modifies this
      ensures current == old(current).(state := state)
    {
      current := current.(state := state);
    }

    /** `setEmotion`: only the emotion changes. */
    method SetEmotion(emotion: string)
      modifies this
      ensures current == old(current).(emotion := emotion)
    {
      current := current.(emotion := emotion);
    }

    /** `reset`: back to the initial record. */
    method Reset()
      modifies this
      ensures current == InitialCurrent()
    {
      current := InitialCurrent();
    }
  }
}
