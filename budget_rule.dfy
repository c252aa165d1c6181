/**
 * The budget-rule step (src/components/wizard/BudgetRuleSelection.jsx): the
 * rule picker, the custom-percentage editor that refuses any change pushing
 * the total above 100, and the per-rule preview amounts.
 */
module BudgetRuleSelection {
  import opened Wrappers
  import opened Wizard
  import opened WizardProvider

  /** Which custom percentage an input edits. */
  datatype Share = NeedsShare | WantsShare | SavingsShare

  /** `parseInt(value) || 0`: a failed parse (`None`) reads as 0. */
  function IntOrZero(parsed: Option<int>): (n: int)
    ensures parsed.Some? ==> n == parsed.value
    ensures parsed.None? ==> n == 0
  {
    parsed.GetOr(0)
  }

  /** `{ ...customBudget, [field]: v }`. */
  function WithShare(b: CustomBudget, field: Share, v: int): (r: CustomBudget)
    ensures field == NeedsShare ==> r == b.(needs := v)
    ensures field == WantsShare ==> r == b.(wants := v)
    ensures field == SavingsShare ==> r == b.(savings := v)
  {
    match field
    case NeedsShare => CustomBudget(v, b.wants, b.savings)
    case WantsShare => CustomBudget(b.needs, v, b.savings)
    case SavingsShare => CustomBudget(b.needs, b.wants, v)
  }

  /** The percentage a share currently holds. */
  function ShareOf(b: CustomBudget, field: Share): int
  {
    match field
    case NeedsShare => b.needs
    case WantsShare => b.wants
    case SavingsShare => b.savings
  }

  /**
   * The total `needs + wants + savings` moves by exactly the change in the
   * edited share: the edited share is replaced, the other two still count.
   */
  lemma ShareEditShiftsTotal(b: CustomBudget, field: Share, v: int)
    ensures ShareOf(WithShare(b, field, v), field) == v
    ensures CustomTotal(WithShare(b, field, v)) == CustomTotal(b) - ShareOf(b, field) + v
    ensures v <= ShareOf(b, field) ==> CustomTotal(WithShare(b, field, v)) <= CustomTotal(b)
  {
  }

  /**
   * The decision inside `handleCustomBudgetChange`: the edited triple when its
   * total stays at most 100, nothing otherwise.
   */
  function CustomChange(b: CustomBudget, field: Share, parsed: Option<int>): (r: Option<CustomBudget>)
    ensures r.Some? <==> CustomTotal(WithShare(b, field, IntOrZero(parsed))) <= 100
    ensures r.Some? ==> CustomTotal(r.value) <= 100 && r.value == WithShare(b, field, IntOrZero(parsed))
  {
    var updated := WithShare(b, field, IntOrZero(parsed));
    if CustomTotal(updated) <= 100 then Some(updated) else None
  }

  /** An accepted change alters the edited share only; an unparseable input sets it to 0. */
  lemma CustomChangeTouchesOneShare(b: CustomBudget, field: Share, parsed: Option<int>)
    requires CustomChange(b, field, parsed).Some?
    ensures var r := CustomChange(b, field, parsed).value;
      && (field != NeedsShare ==> r.needs == b.needs)
      && (field != WantsShare ==> r.wants == b.wants)
      && (field != SavingsShare ==> r.savings == b.savings)
      && (parsed.None? && field == NeedsShare ==> r.needs == 0)
      && (parsed.None? && field == WantsShare ==> r.wants == 0)
      && (parsed.None? && field == SavingsShare ==> r.savings == 0)
  {
  }

  /** The triple after a sequence of edits, each applied only when accepted. */
  function ApplyChanges(b: CustomBudget, edits: seq<(Share, Option<int>)>): CustomBudget
    decreases |edits|
  {
    if edits == [] then b
    else
      var c := CustomChange(b, edits[0].0, edits[0].1);
      ApplyChanges(if c.Some? then c.value else b, edits[1..])
  }

  /** Starting at most 100 (the initial 50/30/20 is exactly 100), no sequence of edits exceeds 100. */
  lemma {:induction false} EditsKeepTotalBounded(b: CustomBudget, edits: seq<(Share, Option<int>)>)
    requires CustomTotal(b) <= 100
    ensures CustomTotal(ApplyChanges(b, edits)) <= 100
    decreases |edits|
  {
    if edits != [] {
      var c := CustomChange(b, edits[0].0, edits[0].1);
      EditsKeepTotalBounded(if c.Some? then c.value else b, edits[1..]);
    }
  }

  lemma EditsFromInitialStayBounded(edits: seq<(Share, Option<int>)>)
    ensures CustomTotal(ApplyChanges(Initial().userData.customBudget, edits)) <= 100
  {
    EditsKeepTotalBounded(Initial().userData.customBudget, edits);
  }

  /** The payload of UPDATE_CUSTOM_BUDGET: the whole triple. */
  function FullBudgetPatch(b: CustomBudget): (p: CustomBudgetPatch)
    ensures forall prior: CustomBudget :: MergeCustomBudget(prior, p) == b
  {
    CustomBudgetPatch(Some(b.needs), Some(b.wants), Some(b.savings))
  }

  /**
   * `calculateAmount(percentage)`: the preview of one share, taken from the
   * monthly figure alone (`income.monthly || 0`).
   */
  function PreviewAmount(income: Income, percentage: int): (r: real)
    ensures 100.0 * r == income.monthly * percentage as real
  {
    income.monthly * percentage as real / 100.0
  }

  /**
   * Unlike the allocator, the preview has no annual fallback: with only an
   * annual figure `calculateAmount` gives 0 (and the preview block, shown only
   * for a positive monthly figure, is hidden), while the allocator allocates
   * annual/12 · pct/100 > 0.
   */
  lemma PreviewIgnoresAnnual(income: Income, percentage: int)
    requires income.monthly == 0.0 && income.annual > 0.0 && percentage > 0
    ensures PreviewAmount(income, percentage) == 0.0
    ensures 100.0 * Allocate(income, "custom", CustomBudget(percentage, 0, 0)).needs
            == income.annual / 12.0 * percentage as real
    ensures Allocate(income, "custom", CustomBudget(percentage, 0, 0)).needs > 0.0
  {
    var m := MonthlyBase(income);
    assert m == income.annual / 12.0;
    assert m > 0.0;
    var r := Allocate(income, "custom", CustomBudget(percentage, 0, 0));
    assert 100.0 * r.needs == m * percentage as real;
    assert m * percentage as real > 0.0;
  }

  /** With a non-zero monthly figure, the preview of a custom share is the allocator's amount. */
  lemma PreviewMatchesAllocation(income: Income, custom: CustomBudget)
    requires income.monthly != 0.0
    ensures var a := Allocate(income, "custom", custom);
      && PreviewAmount(income, custom.needs) == a.needs
      && PreviewAmount(income, custom.wants) == a.wants
      && PreviewAmount(income, custom.savings) == a.savings
  {
  }

  /** The component's local state: the highlighted rule and the custom triple. */
  class BudgetRulePanel {
    const store: WizardStore
    var selectedRule: string
    var customBudget: CustomBudget

    /** `useState(userData.budgetRule)`, `useState(userData.customBudget)`. */
    constructor (store: WizardStore)
      ensures this.store == store
      ensures selectedRule == store.state.userData.budgetRule
      ensures customBudget == store.state.userData.customBudget
    {
      this.store := store;
      selectedRule := store.state.userData.budgetRule;
      customBudget := store.state.userData.customBudget;
    }

    /** `handleRuleChange(rule)`: select it locally and dispatch UPDATE_BUDGET_RULE with it. */
    method HandleRuleChange(rule: string)
      modifies this, store
      ensures selectedRule == rule && customBudget == old(customBudget)
      ensures store.log == old(store.log) + [UpdateBudgetRule(rule)]
      ensures store.state == old(store.state).(userData := old(store.state).userData.(budgetRule := rule))
    {
      selectedRule := rule;
      store.Dispatch(UpdateBudgetRule(rule));
    }

    /**
     * `handleCustomBudgetChange(field, value)`: an edit keeping the total at
     * most 100 replaces the local triple and is dispatched whole; any other
     * edit is dropped, locally and in the store.
     */
    method HandleCustomBudgetChange(field: Share, parsed: Option<int>)
      modifies this, store
      ensures var c := CustomChange(old(customBudget), field, parsed);
        if c.Some? then
          && customBudget == c.value
          && store.log == old(store.log) + [UpdateCustomBudget(FullBudgetPatch(c.value))]
          && store.state == old(store.state).(userData := old(store.state).userData.(customBudget := c.value))
        else
          customBudget == old(customBudget) && store.log == old(store.log) && store.state == old(store.state)
      ensures CustomTotal(old(customBudget)) <= 100 ==> CustomTotal(customBudget) <= 100
      ensures selectedRule == old(selectedRule)
    {
      var updated := WithShare(customBudget, field, IntOrZero(parsed));
      var total := updated.needs + updated.wants + updated.savings;
      if total <= 100 {
        customBudget := updated;
        store.Dispatch(UpdateCustomBudget(FullBudgetPatch(updated)));
      }
    }
  }
}
