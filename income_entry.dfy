/**
 * The income step (src/components/wizard/IncomeEntry.jsx): editing one of
 * source, monthly or annual income recomputes the other amount so that
 * annual = 12 × monthly, and the whole record is dispatched to the wizard.
 */
module IncomeEntry {
  import opened Wrappers
  import opened Wizard
  import opened WizardProvider

  /** One `handleIncomeChange(field, value)` call. */
  datatype IncomeEdit = EditSource(source: string) | EditMonthly(monthly: real) | EditAnnual(annual: real)

  /** `parseFloat(e.target.value) || 0`: empty or non-numeric input (`None`) reads as 0. */
  function NumberOrZero(parsed: Option<real>): (v: real)
    ensures parsed.Some? ==> v == parsed.value
    ensures parsed.None? ==> v == 0.0
  {
    parsed.GetOr(0.0)
  }

  /** The income record an edit produces. */
  function Edited(i: Income, edit: IncomeEdit): (r: Income)
    ensures edit.EditMonthly? ==> r.monthly == edit.monthly && r.annual == 12.0 * edit.monthly
    ensures edit.EditAnnual? ==> r.annual == edit.annual && 12.0 * r.monthly == edit.annual
    ensures edit.EditSource? ==> r.source == edit.source && r.monthly == i.monthly && r.annual == i.annual
    ensures !edit.EditSource? ==> r.source == i.source
  {
    match edit
    case EditSource(s) => i.(source := s)
    case EditMonthly(v) => i.(monthly := v, annual := v * 12.0)
    case EditAnnual(v) => i.(annual := v, monthly := v / 12.0)
  }

  predicate Consistent(i: Income)
  {
    i.annual == 12.0 * i.monthly
  }

  /** The record after a sequence of edits. */
  function EditAll(i: Income, edits: seq<IncomeEdit>): Income
    decreases |edits|
  {
    if edits == [] then i else EditAll(Edited(i, edits[0]), edits[1..])
  }

  /**
   * Once any amount has been edited, annual = 12 × monthly holds for good:
   * amount edits re-establish it and source edits leave the amounts alone.
   */
  lemma {:induction false} EditsKeepAnnualTwelveTimesMonthly(i: Income, edits: seq<IncomeEdit>)
    requires Consistent(i)
    ensures Consistent(EditAll(i, edits))
    decreases |edits|
  {
    if edits != [] {
      EditsKeepAnnualTwelveTimesMonthly(Edited(i, edits[0]), edits[1..]);
    }
  }

  /** The initial record (both amounts 0) is consistent, so every reachable record is. */
  lemma EditsFromInitialAreConsistent(edits: seq<IncomeEdit>)
    ensures Consistent(EditAll(Initial().userData.income, edits))
  {
    EditsKeepAnnualTwelveTimesMonthly(Initial().userData.income, edits);
  }

  /** Entering the annual figure that a monthly edit produced gives back the same record. */
  lemma MonthlyAnnualRoundTrip(i: Income, v: real)
    ensures var m := Edited(i, EditMonthly(v));
      Edited(m, EditAnnual(m.annual)) == m
  {
  }

  /** The payload of UPDATE_INCOME: the whole record. */
  function FullIncomePatch(i: Income): (p: IncomePatch)
    ensures forall prior: Income :: MergeIncome(prior, p) == i
  {
    IncomePatch(Some(i.monthly), Some(i.annual), Some(i.source))
  }

  /** The component's local income record, seeded from the wizard. */
  class IncomePanel {
    const store: WizardStore
    var income: Income

    /** `useState(userData.income)`. */
    constructor (store: WizardStore)
      ensures this.store == store && income == store.state.userData.income
    {
      this.store := store;
      income := store.state.userData.income;
    }

    /**
     * `handleIncomeChange`: copy the record, set the edited field, recompute
     * the other amount, keep it locally and dispatch it whole.
     */
    method HandleIncomeChange(edit: IncomeEdit)
      modifies this, store
      ensures income == Edited(old(income), edit)
      ensures store.log == old(store.log) + [UpdateIncome(FullIncomePatch(income))]
      ensures store.state == old(store.state).(userData := old(store.state).userData.(income := income))
      ensures store.state.userData.income == income
      ensures !edit.EditSource? ==> Consistent(income)
    {
      var updated := income;
      match edit {
        case EditSource(s) =>
          updated := updated.(source := s);
        case EditMonthly(v) =>
          updated := updated.(monthly := v);
          updated := updated.(annual := v * 12.0);
        case EditAnnual(v) =>
          updated := updated.(annual := v);
          updated := updated.(monthly := v / 12.0);
      }
      income := updated;
      store.Dispatch(UpdateIncome(FullIncomePatch(updated)));
    }

    /** The monthly input's `onChange`: convert the text, then edit. */
    method OnMonthlyInput(parsed: Option<real>)
      modifies this, store
      ensures income.monthly == NumberOrZero(parsed) && income.annual == 12.0 * NumberOrZero(parsed)
      ensures income.source == old(income.source)
      ensures store.state.userData.income == income
      ensures store.state == old(store.state).(userData := old(store.state).userData.(income := income))
      ensures store.log == old(store.log) + [UpdateIncome(FullIncomePatch(income))]
    {
      HandleIncomeChange(EditMonthly(NumberOrZero(parsed)));
    }

    /** The annual input's `onChange`: convert the text, then edit. */
    method OnAnnualInput(parsed: Option<real>)
      modifies this, store
      ensures income.annual == NumberOrZero(parsed) && 12.0 * income.monthly == NumberOrZero(parsed)
      ensures income.source == old(income.source)
      ensures store.state.userData.income == income
      ensures store.state == old(store.state).(userData := old(store.state).userData.(income := income))
      ensures store.log == old(store.log) + [UpdateIncome(FullIncomePatch(income))]
    {
      HandleIncomeChange(EditAnnual(NumberOrZero(parsed)));
    }
  }
}
