/** The aiogram finite-state-machine context of one conversation: the current state and
    the data dictionary (app/handlers/registration.py:16-26 declares the states). */
module Fsm {
  import opened Values
  import opened Tables

  /** `None` (no flow active) and the seven declared states. `SetMacros` is declared in
      `Registration` but no handler ever sets it. */
  datatype State =
    | Idle
    | Collecting | ConfirmGoal | SetMacros
    | ChooseMethod | AiRequest | ManualInput | ConfirmNewGoal

  /** The keys the handlers put in the data dictionary; `None` is an absent key. */
  datatype FsmData = FsmData(
    answers: Option<seq<Option<string>>>,
    current: Option<int>,
    profile: Option<Profile>,
    pendingGoal: Option<Goal>,
    pendingMeal: Option<string>)

  const EmptyData: FsmData := FsmData(None, None, None, None, None)

  datatype Conv = Conv(state: State, data: FsmData)

  /** After `state.clear()`: no state and no data, the buffered meal text included. */
  const Cleared: Conv := Conv(Idle, EmptyData)

  /** `FSMContext`. Each method is one awaited call on it. */
  class FsmContext {
    var state: State
    var data: FsmData

    constructor ()
      ensures state == Idle && data == EmptyData
    {
      state := Idle;
      data := EmptyData;
    }

    function Value(): Conv
      reads this
    {
      Conv(state, data)
    }

    /** `state.set_state(s)`: the data stays. */
    method SetState(s: State)
      modifies this
      ensures state == s && data == old(data)
    {
      state := s;
    }

    /** `state.clear()`. */
    method Clear()
      modifies this
      ensures Value() == Cleared
    {
      state := Idle;
      data := EmptyData;
    }

    /** `state.update_data(answers=..., current=...)`: only those two keys change. */
    method UpdateAnswers(answers: seq<Option<string>>, current: int)
      modifies this
      ensures data == old(data).(answers := Some(answers), current := Some(current))
      ensures state == old(state)
    {
      data := data.(answers := Some(answers), current := Some(current));
    }

    /** `state.update_data(profile=...)`. */
    method UpdateProfile(p: Profile)
      modifies this
      ensures data == old(data).(profile := Some(p)) && state == old(state)
    {
      data := data.(profile := Some(p));
    }

    /** `state.update_data(pending_goal=...)`. */
    method UpdatePendingGoal(g: Goal)
      modifies this
      ensures data == old(data).(pendingGoal := Some(g)) && state == old(state)
    {
      data := data.(pendingGoal := Some(g));
    }

    /** `state.update_data(pending_meal=...)`. */
    method UpdatePendingMeal(text: string)
      modifies this
      ensures data == old(data).(pendingMeal := Some(text)) && state == old(state)
    {
      data := data.(pendingMeal := Some(text));
    }
  }
}
