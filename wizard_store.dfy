/**
 * The wizard provider: `useReducer(wizardReducer, initialState)` held as one
 * store object that every wizard component dispatches into
 * (src/context/WizardContext.jsx, WizardProvider).
 */
module WizardProvider {
  import opened Wizard

  class WizardStore {
    /** The current wizard state. */
    var state: WizardState
    /** Every action dispatched so far, oldest first. */
    var log: seq<WizardAction>

    constructor ()
      ensures state == Initial() && log == []
    {
      state := Initial();
      log := [];
    }

    /** `dispatch(action)`: run the reducer and record the action. */
    method Dispatch(a: WizardAction)
      modifies this
      ensures state == Reduce(old(state), a)
      ensures log == old(log) + [a]
      ensures Valid(old(state)) ==> Valid(state)
    {
      state := Reduce(state, a);
      log := log + [a];
    }
  }
}
