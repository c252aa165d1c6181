/**
 * The wizard's navigation policy (src/components/wizard/FinanceWizard.jsx):
 * the `canProceed` gate on the Next/Complete control and the handlers that
 * drive the wizard store by dispatching step actions.
 */
module FinanceWizard {
  import opened Wizard
  import opened WizardProvider

  /** `canProceed`: may the user leave the current step forwards? */
  function CanProceed(s: WizardState): (r: bool)
    ensures r ==> 1 <= s.currentStep <= 5
    ensures s.currentStep == 3 || s.currentStep == 5 ==> r
    ensures r && s.currentStep == 2 && s.userData.budgetRule == "custom" ==> CustomTotal(s.userData.customBudget) == 100
  {
    var d := s.userData;
    if s.currentStep == 1 then
      d.income.monthly > 0.0 || d.income.annual > 0.0
    else if s.currentStep == 2 then
      d.budgetRule != "" && (d.budgetRule != "custom" || CustomTotal(d.customBudget) == 100)
    else if s.currentStep == 3 then
      true  // expenses are optional
    else if s.currentStep == 4 then
      d.riskAppetite != ""
    else
      s.currentStep == 5
  }

  /** The gate, step by step. */
  lemma CanProceedByStep(s: WizardState)
    ensures s.currentStep == 1 ==>
      (CanProceed(s) <==> s.userData.income.monthly > 0.0 || s.userData.income.annual > 0.0)
    ensures s.currentStep == 2 ==>
      (CanProceed(s) <==>
         s.userData.budgetRule != "" &&
         (s.userData.budgetRule != "custom" || CustomTotal(s.userData.customBudget) == 100))
    ensures s.currentStep == 3 || s.currentStep == 5 ==> CanProceed(s)
    ensures s.currentStep == 4 ==> (CanProceed(s) <==> s.userData.riskAppetite != "")
    ensures !(1 <= s.currentStep <= 5) ==> !CanProceed(s)
  {
  }

  /** At the budget-rule step a custom split must total exactly 100: 99 and 101 both block. */
  lemma CustomSplitMustBeExact(s: WizardState)
    requires s.currentStep == 2 && s.userData.budgetRule == "custom"
    ensures !CanProceed(s.(userData := s.userData.(customBudget := CustomBudget(50, 30, 19))))
    ensures !CanProceed(s.(userData := s.userData.(customBudget := CustomBudget(50, 30, 21))))
    ensures CanProceed(s.(userData := s.userData.(customBudget := CustomBudget(50, 30, 20))))
  {
  }

  /** The state after `n` PREV_STEP actions. */
  function PrevSteps(s: WizardState, n: nat): WizardState
  {
    if n == 0 then s else Reduce(PrevSteps(s, n - 1), PrevStep)
  }

  /** `n` copies of one action. */
  function Repeat(a: WizardAction, n: nat): (r: seq<WizardAction>)
    ensures |r| == n
    ensures forall k :: 0 <= k < n ==> r[k] == a
  {
    if n == 0 then [] else Repeat(a, n - 1) + [a]
  }

  /** `n` PREV_STEP actions move the step back by `n`, stopping at step 1, and change nothing else. */
  lemma {:induction false} PrevStepsLand(s: WizardState, n: nat)
    requires Valid(s)
    ensures PrevSteps(s, n) == s.(currentStep := Max(s.currentStep - n, 1))
  {
    if n > 0 {
      PrevStepsLand(s, n - 1);
    }
  }

  /**
   * `handleNext`: below the last step, one NEXT_STEP; at the last step,
   * COMPLETE_WIZARD followed by the `onComplete` callback, whose call is reported.
   */
  method HandleNext(store: WizardStore) returns (calledOnComplete: bool)
    modifies store
    ensures var s := old(store.state);
      if s.currentStep < s.totalSteps then
        store.log == old(store.log) + [NextStep] && store.state == Reduce(s, NextStep) && !calledOnComplete
      else
        store.log == old(store.log) + [CompleteWizard] && store.state == s.(isComplete := true) && calledOnComplete
    ensures Valid(old(store.state)) ==> Valid(store.state)
  {
    if store.state.currentStep < store.state.totalSteps {
      store.Dispatch(NextStep);
      calledOnComplete := false;
    } else {
      store.Dispatch(CompleteWizard);
      calledOnComplete := true;
    }
  }

  /** `handlePrevious`: one PREV_STEP above step 1, nothing at step 1. */
  method HandlePrevious(store: WizardStore)
    modifies store
    ensures var s := old(store.state);
      if s.currentStep > 1 then
        store.log == old(store.log) + [PrevStep] && store.state == s.(currentStep := s.currentStep - 1)
      else
        store.log == old(store.log) && store.state == s
  {
    if store.state.currentStep > 1 {
      store.Dispatch(PrevStep);
    }
  }

  /**
   * `handleStepClick`: a click on an earlier (or the current) step issues one
   * PREV_STEP per step to go back; a click on a later step does nothing.
   */
  method HandleStepClick(store: WizardStore, stepNumber: int)
    modifies store
    ensures stepNumber > old(store.state.currentStep) ==>
      store.state == old(store.state) && store.log == old(store.log)
    ensures stepNumber <= old(store.state.currentStep) ==>
      var n := old(store.state.currentStep) - stepNumber;
      store.state == PrevSteps(old(store.state), n) && store.log == old(store.log) + Repeat(PrevStep, n)
    ensures Valid(old(store.state)) && 1 <= stepNumber <= old(store.state.currentStep) ==>
      store.state == old(store.state).(currentStep := stepNumber)
  {
    if stepNumber <= store.state.currentStep {
      var diff := stepNumber - store.state.currentStep;
      if diff > 0 {
        // The forward branch: unreachable under the enclosing guard.
        assert false;
      } else {
        var n := -diff;
        ghost var s0 := store.state;
        ghost var log0 := store.log;
        for i := 0 to n
          invariant store.state == PrevSteps(s0, i)
          invariant store.log == log0 + Repeat(PrevStep, i)
        {
          store.Dispatch(PrevStep);
        }
        if Valid(s0) {
          PrevStepsLand(s0, n);
        }
      }
    }
  }

  /**
   * The Next/Complete button: disabled while `canProceed` is false, so the
   * wizard only advances or completes from a state that passes the gate.
   */
  method ClickNext(store: WizardStore) returns (calledOnComplete: bool)
    modifies store
    ensures !CanProceed(old(store.state)) ==>
      store.state == old(store.state) && store.log == old(store.log) && !calledOnComplete
    ensures store.log != old(store.log) ==> CanProceed(old(store.state))
    ensures CanProceed(old(store.state)) ==>
      var s := old(store.state);
      store.state == (if s.currentStep < s.totalSteps then Reduce(s, NextStep) else s.(isComplete := true))
    ensures CanProceed(old(store.state)) ==>
      (calledOnComplete <==> old(store.state).currentStep >= old(store.state).totalSteps)
    ensures CanProceed(old(store.state)) ==>
      store.log == old(store.log) + [if old(store.state).currentStep < old(store.state).totalSteps then NextStep else CompleteWizard]
    ensures Valid(old(store.state)) ==> Valid(store.state)
  {
    calledOnComplete := false;
    if CanProceed(store.state) {
      calledOnComplete := HandleNext(store);
    }
  }
}
