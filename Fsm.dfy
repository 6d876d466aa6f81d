/** The per-user finite-state-machine context that aiogram hands to every handler: an optional
    state string and a dictionary of stored answers. Survey answers are stored under the
    attribute name of their step, so the dictionary is keyed by step here. */
module Fsm {
  import opened Wrappers
  import opened PyText
  import opened SurveyStates

  type Data = map<Step, Scalar>

  /** The state string the admin broadcast mode sets; it is not a member of `SurveyStates`. */
  const BroadcastWaiting: string := "broadcast_waiting"

  lemma BroadcastIsNotAStep(s: Step)
    ensures StateName(s) != BroadcastWaiting
    ensures StepNamed(BroadcastWaiting).None?
  {
    assert StateName(s)[0] != BroadcastWaiting[0];
  }

  /** `FSMContext` over the in-memory storage, for one user. */
  class FsmContext {
    var state: Option<string>
    var data: Data

    /** A user the bot has not seen yet: no state, no data. */
    constructor ()
      ensures state == None && data == map[]
    {
      state := None;
      data := map[];
    }

    /** `state.set_state(s)`: only the state changes. */
    method SetState(s: Option<string>)
      modifies this
      ensures state == s && data == old(data)
    {
      state := s;
    }

    /** `state.update_data(key=value)`: one key written, the others and the state kept. */
    method UpdateData(key: Step, value: Scalar)
      modifies this
      ensures data == old(data)[key := value] && state == old(state)
    {
      data := data[key := value];
    }

    /** `state.clear()`: no state and no data. */
    method Clear()
      modifies this
      ensures state == None && data == map[]
    {
      state := None;
      data := map[];
    }
  }
}
