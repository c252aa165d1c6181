/**
 * The onboarding wizard's state and its reducer, the budget allocator and the
 * recommendation catalogue (src/context/WizardContext.jsx).
 *
 * The reducer is a total function from a state and an action to a new state;
 * every action that is not recognised leaves the state as it was.
 */
module Wizard {
  import opened Wrappers

  /** The number of wizard steps: income, budget rule, expenses, risk, recommendations. */
  const TotalSteps: int := 5

  datatype Income = Income(monthly: real, annual: real, source: string)

  /** Custom split of the monthly income, in whole percentages. */
  datatype CustomBudget = CustomBudget(needs: int, wants: int, savings: int)

  datatype Category = Needs | Wants

  datatype Expense = Expense(id: int, name: string, amount: real, category: Category)

  /** Two ordered expense lists and their cached totals. */
  datatype Expenses = Expenses(needs: seq<Expense>, wants: seq<Expense>, totalNeeds: real, totalWants: real)

  datatype Stock = Stock(symbol: string, name: string, price: real, change: real, allocation: int)

  datatype Fund = Fund(name: string, nav: real, annualReturn: real, allocation: int)

  /** No bond is ever listed: the initial record holds an empty list and the catalogue has no bond key. */
  datatype Bond = Bond(name: string)

  /** `bonds` is `None` when the record has no bond key at all, as in every catalogue entry. */
  datatype Recommendations = Recommendations(stocks: seq<Stock>, mutualFunds: seq<Fund>, bonds: Option<seq<Bond>>)

  datatype UserData = UserData(
    income: Income,
    budgetRule: string,
    customBudget: CustomBudget,
    expenses: Expenses,
    riskAppetite: string,
    investmentGoals: seq<string>,
    recommendations: Recommendations)

  datatype WizardState = WizardState(currentStep: int, totalSteps: int, userData: UserData, isComplete: bool)

  /** The budget split produced by the allocator, in the income's currency. */
  datatype Allocation = Allocation(needs: real, wants: real, savings: real)

  // Payloads of the merging actions: a key that is `None` is absent from the payload.
  datatype IncomePatch = IncomePatch(monthly: Option<real>, annual: Option<real>, source: Option<string>)
  datatype CustomBudgetPatch = CustomBudgetPatch(needs: Option<int>, wants: Option<int>, savings: Option<int>)
  datatype ExpensesPatch = ExpensesPatch(
    needs: Option<seq<Expense>>, wants: Option<seq<Expense>>,
    totalNeeds: Option<real>, totalWants: Option<real>)

  datatype WizardAction =
    | NextStep
    | PrevStep
    | UpdateIncome(incomePatch: IncomePatch)
    | UpdateBudgetRule(rule: string)
    | UpdateCustomBudget(budgetPatch: CustomBudgetPatch)
    | UpdateExpenses(expensesPatch: ExpensesPatch)
    | UpdateRiskAppetite(risk: string)
    | UpdateGoals(goals: seq<string>)
    | SetRecommendations(recommendations: Recommendations)
    | CompleteWizard
    | ResetWizard
    | Unrecognised(kind: string)

  const EmptyRecommendations: Recommendations := Recommendations([], [], Some([]))

  /** The state a fresh wizard starts in, and the one RESET_WIZARD returns. */
  function Initial(): (s: WizardState)
    ensures Valid(s) && s.currentStep == 1 && !s.isComplete
    ensures s.userData.expenses.needs == [] && s.userData.expenses.wants == []
    ensures s.userData.customBudget == CustomBudget(50, 30, 20)
    ensures s.userData.customBudget.needs + s.userData.customBudget.wants + s.userData.customBudget.savings == 100
  {
    WizardState(
      1, TotalSteps,
      UserData(
        Income(0.0, 0.0, "salary"),
        "50-30-20",
        CustomBudget(50, 30, 20),
        Expenses([], [], 0.0, 0.0),
        "Balanced",
        [],
        EmptyRecommendations),
      false)
  }

  /** The step invariant: the step count is the fixed five and the step lies within it. */
  predicate Valid(s: WizardState)
  {
    s.totalSteps == TotalSteps && 1 <= s.currentStep <= s.totalSteps
  }

  function Min(a: int, b: int): int { if a < b then a else b }

  function Max(a: int, b: int): int { if a < b then b else a }

  /** Shallow merge `{ ...income, ...patch }`. */
  function MergeIncome(i: Income, p: IncomePatch): (r: Income)
    ensures p.monthly.Some? ==> r.monthly == p.monthly.value
    ensures p.annual.Some? ==> r.annual == p.annual.value
    ensures p.source.Some? ==> r.source == p.source.value
    ensures p.monthly.None? ==> r.monthly == i.monthly
    ensures p.annual.None? ==> r.annual == i.annual
    ensures p.source.None? ==> r.source == i.source
  {
    Income(p.monthly.GetOr(i.monthly), p.annual.GetOr(i.annual), p.source.GetOr(i.source))
  }

  /** Shallow merge `{ ...customBudget, ...patch }`. */
  function MergeCustomBudget(b: CustomBudget, p: CustomBudgetPatch): (r: CustomBudget)
    ensures p.needs.Some? ==> r.needs == p.needs.value
    ensures p.wants.Some? ==> r.wants == p.wants.value
    ensures p.savings.Some? ==> r.savings == p.savings.value
    ensures p.needs.None? ==> r.needs == b.needs
    ensures p.wants.None? ==> r.wants == b.wants
    ensures p.savings.None? ==> r.savings == b.savings
  {
    CustomBudget(p.needs.GetOr(b.needs), p.wants.GetOr(b.wants), p.savings.GetOr(b.savings))
  }

  /** Shallow merge `{ ...expenses, ...patch }`. */
  function MergeExpenses(e: Expenses, p: ExpensesPatch): (r: Expenses)
    ensures p.needs.Some? ==> r.needs == p.needs.value
    ensures p.wants.Some? ==> r.wants == p.wants.value
    ensures p.totalNeeds.Some? ==> r.totalNeeds == p.totalNeeds.value
    ensures p.totalWants.Some? ==> r.totalWants == p.totalWants.value
    ensures p.needs.None? ==> r.needs == e.needs
    ensures p.wants.None? ==> r.wants == e.wants
    ensures p.totalNeeds.None? ==> r.totalNeeds == e.totalNeeds
    ensures p.totalWants.None? ==> r.totalWants == e.totalWants
  {
    Expenses(p.needs.GetOr(e.needs), p.wants.GetOr(e.wants),
             p.totalNeeds.GetOr(e.totalNeeds), p.totalWants.GetOr(e.totalWants))
  }

  /** `wizardReducer`. */
  function Reduce(s: WizardState, a: WizardAction): (r: WizardState)
    ensures Valid(s) ==> Valid(r)
    ensures a.ResetWizard? ==> r == Initial()
    ensures !a.ResetWizard? ==> r.totalSteps == s.totalSteps
    ensures !(a.NextStep? || a.PrevStep? || a.ResetWizard?) ==> r.currentStep == s.currentStep
    ensures s.isComplete && !a.ResetWizard? ==> r.isComplete
    ensures a.NextStep? || a.PrevStep? || a.CompleteWizard? ==> r.userData == s.userData
  {
    match a
    case NextStep => s.(currentStep := Min(s.currentStep + 1, s.totalSteps))
    case PrevStep => s.(currentStep := Max(s.currentStep - 1, 1))
    case UpdateIncome(p) =>
      s.(userData := s.userData.(income := MergeIncome(s.userData.income, p)))
    case UpdateBudgetRule(rule) => s.(userData := s.userData.(budgetRule := rule))
    case UpdateCustomBudget(p) =>
      s.(userData := s.userData.(customBudget := MergeCustomBudget(s.userData.customBudget, p)))
    case UpdateExpenses(p) =>
      s.(userData := s.userData.(expenses := MergeExpenses(s.userData.expenses, p)))
    case UpdateRiskAppetite(risk) => s.(userData := s.userData.(riskAppetite := risk))
    case UpdateGoals(goals) => s.(userData := s.userData.(investmentGoals := goals))
    case SetRecommendations(recs) => s.(userData := s.userData.(recommendations := recs))
    case CompleteWizard => s.(isComplete := true)
    case ResetWizard => Initial()
    case Unrecognised(_) => s
  }

  /** The state after dispatching `actions` one by one, starting from `s`. */
  function Run(s: WizardState, actions: seq<WizardAction>): WizardState
    decreases |actions|
  {
    if actions == [] then s else Run(Reduce(s, actions[0]), actions[1..])
  }

  lemma NextStepClamps(s: WizardState)
    ensures Reduce(s, NextStep) == s.(currentStep := Min(s.currentStep + 1, s.totalSteps))
    ensures Valid(s) && s.currentStep == TotalSteps ==> Reduce(s, NextStep) == s
    ensures Valid(s) && s.currentStep < TotalSteps ==> Reduce(s, NextStep).currentStep == s.currentStep + 1
  {
  }

  lemma PrevStepClamps(s: WizardState)
    ensures Reduce(s, PrevStep) == s.(currentStep := Max(s.currentStep - 1, 1))
    ensures Valid(s) && s.currentStep == 1 ==> Reduce(s, PrevStep) == s
    ensures Valid(s) && s.currentStep > 1 ==> Reduce(s, PrevStep).currentStep == s.currentStep - 1
  {
  }

  /** COMPLETE_WIZARD raises the flag, keeps step and data, and a second one changes nothing. */
  lemma CompleteIsIdempotent(s: WizardState)
    ensures Reduce(s, CompleteWizard) == s.(isComplete := true)
    ensures Reduce(Reduce(s, CompleteWizard), CompleteWizard) == Reduce(s, CompleteWizard)
  {
  }

  /** RESET_WIZARD forgets everything, including a completed wizard. */
  lemma ResetIsInitial(s: WizardState)
    ensures Reduce(s, ResetWizard) == Initial()
    ensures !Reduce(s, ResetWizard).isComplete && Reduce(s, ResetWizard).currentStep == 1
  {
  }

  /**
   * Each field update touches only its own field of the user data and
   * neither the step nor the flag; an unrecognised action changes nothing.
   */
  lemma FieldUpdatesAreLocal(s: WizardState, a: WizardAction)
    requires !(a.NextStep? || a.PrevStep? || a.CompleteWizard? || a.ResetWizard?)
    ensures var r := Reduce(s, a);
      && r.currentStep == s.currentStep && r.totalSteps == s.totalSteps && r.isComplete == s.isComplete
      && (!a.UpdateIncome? ==> r.userData.income == s.userData.income)
      && (!a.UpdateBudgetRule? ==> r.userData.budgetRule == s.userData.budgetRule)
      && (!a.UpdateCustomBudget? ==> r.userData.customBudget == s.userData.customBudget)
      && (!a.UpdateExpenses? ==> r.userData.expenses == s.userData.expenses)
      && (!a.UpdateRiskAppetite? ==> r.userData.riskAppetite == s.userData.riskAppetite)
      && (!a.UpdateGoals? ==> r.userData.investmentGoals == s.userData.investmentGoals)
      && (!a.SetRecommendations? ==> r.userData.recommendations == s.userData.recommendations)
      && (a.UpdateIncome? ==> r.userData.income == MergeIncome(s.userData.income, a.incomePatch))
      && (a.UpdateCustomBudget? ==> r.userData.customBudget == MergeCustomBudget(s.userData.customBudget, a.budgetPatch))
      && (a.UpdateExpenses? ==> r.userData.expenses == MergeExpenses(s.userData.expenses, a.expensesPatch))
      && (a.UpdateBudgetRule? ==> r.userData.budgetRule == a.rule)
      && (a.UpdateRiskAppetite? ==> r.userData.riskAppetite == a.risk)
      && (a.UpdateGoals? ==> r.userData.investmentGoals == a.goals)
      && (a.SetRecommendations? ==> r.userData.recommendations == a.recommendations)
      && (a.Unrecognised? ==> r == s)
  {
  }

  /** From a valid state, any sequence of actions keeps the step in 1..5 and the count at 5. */
  lemma {:induction false} RunKeepsValid(s: WizardState, actions: seq<WizardAction>)
    requires Valid(s)
    ensures Valid(Run(s, actions))
    decreases |actions|
  {
    if actions != [] {
      RunKeepsValid(Reduce(s, actions[0]), actions[1..]);
    }
  }

  /** Every state reachable from the initial one satisfies the step invariant. */
  lemma ReachableIsValid(actions: seq<WizardAction>)
    ensures Valid(Run(Initial(), actions))
    ensures Run(Initial(), actions).totalSteps == TotalSteps
  {
    RunKeepsValid(Initial(), actions);
  }

  /** Once complete, the wizard stays complete until a RESET_WIZARD. */
  lemma {:induction false} CompletionIsSticky(s: WizardState, actions: seq<WizardAction>)
    requires s.isComplete
    requires ResetWizard !in actions
    ensures Run(s, actions).isComplete
    decreases |actions|
  {
    if actions != [] {
      assert actions[0] != ResetWizard;
      assert ResetWizard !in actions[1..] by {
        assert forall k :: 0 <= k < |actions| - 1 ==> actions[1..][k] == actions[k + 1];
      }
      CompletionIsSticky(Reduce(s, actions[0]), actions[1..]);
    }
  }

  // ---------------------------------------------------------------------------
  // calculateBudgetAllocation

  /** `income.monthly || income.annual / 12`: the monthly figure unless it is zero. */
  function MonthlyBase(income: Income): (m: real)
    ensures income.monthly != 0.0 ==> m == income.monthly
    ensures income.monthly == 0.0 ==> 12.0 * m == income.annual
  {
    if income.monthly != 0.0 then income.monthly else income.annual / 12.0
  }

  /** `needs + wants + savings`: with no negative share, it bounds each share. */
  function CustomTotal(b: CustomBudget): (r: int)
    ensures b.needs >= 0 && b.wants >= 0 && b.savings >= 0 ==>
      r >= b.needs && r >= b.wants && r >= b.savings
  {
    b.needs + b.wants + b.savings
  }

  /**
   * `calculateBudgetAllocation`. Only "50-30-20" and "custom" are recognised;
   * every other rule, "60-20-20" included, yields a zero split.
   */
  function Allocate(income: Income, rule: string, custom: CustomBudget): (r: Allocation)
    ensures rule == "50-30-20" ==>
      && r.needs + r.wants + r.savings == MonthlyBase(income)
      && 10.0 * r.needs == 5.0 * MonthlyBase(income)
      && 10.0 * r.wants == 3.0 * MonthlyBase(income)
      && 10.0 * r.savings == 2.0 * MonthlyBase(income)
    ensures rule == "custom" ==>
      && 100.0 * r.needs == MonthlyBase(income) * custom.needs as real
      && 100.0 * r.wants == MonthlyBase(income) * custom.wants as real
      && 100.0 * r.savings == MonthlyBase(income) * custom.savings as real
    ensures rule != "50-30-20" && rule != "custom" ==> r == Allocation(0.0, 0.0, 0.0)
  {
    var m := MonthlyBase(income);
    if rule == "50-30-20" then
      Allocation(m * 0.5, m * 0.3, m * 0.2)
    else if rule == "custom" then
      Allocation(m * (custom.needs as real / 100.0),
                 m * (custom.wants as real / 100.0),
                 m * (custom.savings as real / 100.0))
    else
      Allocation(0.0, 0.0, 0.0)
  }

  /** A custom split whose percentages total 100 divides the whole monthly base. */
  lemma CustomSplitSumsToBase(income: Income, custom: CustomBudget)
    requires CustomTotal(custom) == 100
    ensures var r := Allocate(income, "custom", custom);
      r.needs + r.wants + r.savings == MonthlyBase(income)
  {
    var m := MonthlyBase(income);
    var r := Allocate(income, "custom", custom);
    calc {
      100.0 * (r.needs + r.wants + r.savings);
      m * custom.needs as real + m * custom.wants as real + m * custom.savings as real;
      m * (custom.needs + custom.wants + custom.savings) as real;
      m * 100.0;
    }
  }

  /** The "60-20-20" rule, though offered for selection, allocates nothing. */
  lemma SixtyTwentyTwentyAllocatesNothing(income: Income, custom: CustomBudget)
    ensures Allocate(income, "60-20-20", custom) == Allocation(0.0, 0.0, 0.0)
  {
  }

  /** A monthly income of 50000 under 50-30-20 gives 25000 / 15000 / 10000. */
  lemma FiftyThousandExample()
    ensures Allocate(Income(50000.0, 600000.0, "salary"), "50-30-20", CustomBudget(50, 30, 20))
            == Allocation(25000.0, 15000.0, 10000.0)
  {
  }

  // ---------------------------------------------------------------------------
  // generateRecommendations

  const ConservativePicks: Recommendations := Recommendations(
    [ Stock("HDFC", "HDFC Bank", 1650.0, 1.2, 20),
      Stock("ITC", "ITC Limited", 425.0, 0.8, 15),
      Stock("TCS", "Tata Consultancy Services", 3450.0, 0.5, 15) ],
    [ Fund("HDFC Balanced Advantage Fund", 45.67, 8.5, 30),
      Fund("SBI Conservative Hybrid Fund", 32.89, 7.2, 20) ],
    None)

  const BalancedPicks: Recommendations := Recommendations(
    [ Stock("INFY", "Infosys Limited", 1789.0, 2.1, 25),
      Stock("HDFC", "HDFC Bank", 1650.0, 1.2, 20),
      Stock("RELIANCE", "Reliance Industries", 2890.0, 1.8, 20),
      Stock("ICICIBANK", "ICICI Bank", 1234.0, 1.5, 15) ],
    [ Fund("Axis Bluechip Fund", 67.45, 12.3, 20) ],
    None)

  const AggressivePicks: Recommendations := Recommendations(
    [ Stock("ADANIPORTS", "Adani Ports", 1456.0, 3.2, 20),
      Stock("TATASTEEL", "Tata Steel", 145.0, 2.8, 20),
      Stock("RELIANCE", "Reliance Industries", 2890.0, 1.8, 25),
      Stock("INFY", "Infosys Limited", 1789.0, 2.1, 20),
      Stock("TECHM", "Tech Mahindra", 1567.0, 2.5, 15) ],
    [ Fund("Parag Parikh Flexi Cap Fund", 89.23, 16.7, 0) ],
    None)

  /** The stock symbols of a recommendation record, in order. */
  function Symbols(stocks: seq<Stock>): (r: seq<string>)
    ensures |r| == |stocks|
    ensures forall k :: 0 <= k < |stocks| ==> r[k] == stocks[k].symbol
  {
    if stocks == [] then [] else [stocks[0].symbol] + Symbols(stocks[1..])
  }

  /**
   * `generateRecommendations`: a lookup keyed by the risk label that falls back
   * to the Balanced entry. The budget argument is accepted and not consulted.
   */
  function Recommend(riskAppetite: string, budget: Allocation): (r: Recommendations)
    ensures riskAppetite == "Conservative" ==> r == ConservativePicks
    ensures riskAppetite == "Aggressive" ==> r == AggressivePicks
    ensures riskAppetite != "Conservative" && riskAppetite != "Aggressive" ==> r == BalancedPicks
    ensures r.bonds == None && |r.stocks| >= 3 && |r.mutualFunds| >= 1
  {
    if riskAppetite == "Conservative" then ConservativePicks
    else if riskAppetite == "Aggressive" then AggressivePicks
    else BalancedPicks
  }

  /** An unrecognised risk label gets the Balanced entry; the budget never matters. */
  lemma RecommendFallsBackToBalanced(riskAppetite: string, b1: Allocation, b2: Allocation)
    requires riskAppetite !in {"Conservative", "Balanced", "Aggressive"}
    ensures Recommend(riskAppetite, b1) == Recommend("Balanced", b2)
  {
  }

  /** The answer depends on the risk label alone. */
  lemma RecommendIgnoresBudget(riskAppetite: string, b1: Allocation, b2: Allocation)
    ensures Recommend(riskAppetite, b1) == Recommend(riskAppetite, b2)
  {
  }

  /** The Aggressive tier lists five stocks, among them ADANIPORTS and RELIANCE. */
  lemma AggressiveHasFiveStocks(b: Allocation)
    ensures var r := Recommend("Aggressive", b);
      |r.stocks| == 5 && "ADANIPORTS" in Symbols(r.stocks) && "RELIANCE" in Symbols(r.stocks)
  {
    var r := Recommend("Aggressive", b);
    assert Symbols(r.stocks)[0] == "ADANIPORTS";
    assert Symbols(r.stocks)[2] == "RELIANCE";
  }
}
