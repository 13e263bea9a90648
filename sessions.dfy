/**
 Sequences of actions, as the user interface's `useReducer` applies them
 one after the other, for either reducer copy.
 */
module Sessions {
  import opened Types

  /** The state after applying `actions` in order, starting from `s`. */
  function Run(step: (State, Action) -> State, s: State, actions: seq<Action>): State
    decreases |actions|
  {
    if |actions| == 0 then s else Run(step, step(s, actions[0]), actions[1..])
  }

  /** A reducer that keeps the state well-formed on every keypad action keeps
      it well-formed over every sequence of keypad actions. */
  lemma {:induction false} RunKeepsWellformed(step: (State, Action) -> State, cap: nat, s: State, actions: seq<Action>)
    requires forall t, a :: Wellformed(t, cap) && Keystroke(a) ==> Wellformed(step(t, a), cap)
    requires Wellformed(s, cap)
    requires forall i :: 0 <= i < |actions| ==> Keystroke(actions[i])
    ensures Wellformed(Run(step, s, actions), cap)
    decreases |actions|
  {
    if |actions| > 0 {
      RunKeepsWellformed(step, cap, step(s, actions[0]), actions[1..]);
    }
  }
}
