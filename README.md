# Trackmint onboarding wizard and session gate, in Dafny

This project models the deterministic core of the Trackmint personal-finance
web client. That core is:

- the onboarding wizard's state machine: the step position, the user data it
  collects over five steps, and the completion flag;
- the two calculations built on that state: the budget allocator and the
  recommendation catalogue;
- the navigation policy that gates the Next/Complete button and drives the
  wizard by dispatching single-step actions;
- the expense lists with their cached totals and the chart and progress
  figures derived from them;
- the income and custom-budget editors;
- the authentication status reducer and the `ProtectedRoute` decision.

Modules: one per modelled source file, plus `Wrappers` (a shared `Option` type) and `WizardProvider` (the store that `WizardContext.jsx` creates with `useReducer`):

| module | file | form |
|---|---|---|
| `Wrappers` | `wrappers.dfy` | `Option`: a payload key that may be absent, a parse that may fail |
| `Wizard` | `wizard.dfy` | `src/context/WizardContext.jsx`: datatypes, the reducer `Reduce`, `Allocate`, `Recommend` |
| `WizardProvider` | `wizard_store.dfy` | the `useReducer` store as a class: the current state plus the log of dispatched actions |
| `FinanceWizard` | `finance_wizard.dfy` | `src/components/wizard/FinanceWizard.jsx`: `CanProceed`, and the handlers as methods that dispatch into the store |
| `ExpensesAllocation` | `expenses.dfy` | `src/components/wizard/ExpensesAllocation.jsx`: a class whose invariant ties each cached total to its list, and the chart figures |
| `BudgetRuleSelection` | `budget_rule.dfy` | `src/components/wizard/BudgetRuleSelection.jsx`: a class with the selected rule and the custom triple |
| `IncomeEntry` | `income_entry.dfy` | `src/components/wizard/IncomeEntry.jsx`: a class with the local income record |
| `Auth` | `auth.dfy` | `src/context/AuthContext.jsx`: the reducer and `ProtectedRoute` |

Modelling choices:

- Money is `real`, with exact arithmetic. So "the three parts sum to the
  monthly base" is an exact statement here.
- Custom percentages are `int`, because `parseInt` produces them.
- A merging payload (`{ ...old, ...payload }`) is a record of `Option` fields.
  An absent key is `None`.
- The expense id, which comes from `Date.now()`, is a method parameter.
- `parseFloat(...) || 0` and `parseInt(...) || 0` take the parse result as an
  `Option`. `None` stands for NaN or empty input.
- The store records every dispatched action. This lets the driver methods
  state exactly which actions they issue.
- Over a zero needs+wants budget, `budgetUsed` is a JavaScript infinity, or
  NaN, which `|| 0` turns into 0. `ExpensesAllocation.Extended` models these
  cases.

Behaviour of the code worth noting, which the model reproduces:

- The allocator recognises only `"50-30-20"` and `"custom"`. `"60-20-20"` is
  offered by the rule picker (src/components/wizard/BudgetRuleSelection.jsx:39-46),
  yet it allocates `{0, 0, 0}` (src/context/WizardContext.jsx:190).
  `Wizard.SixtyTwentyTwentyAllocatesNothing` states this.
- The monthly base is `income.monthly || income.annual / 12`. So the monthly
  figure is used whenever it is non-zero, including when it is negative.
- Catalogue entries have no `bonds` key. `Recommend` returns `bonds == None`,
  while the initial record holds an empty bond list.
- Clicking a step only ever moves back. The forward loop in `handleStepClick`
  is unreachable, and `FinanceWizard.HandleStepClick` proves that branch dead
  with `assert false`.
- The income source is any string, not a closed enumeration.

## Model

| member | source | states |
|---|---|---|
| Wizard.Initial | src/context/WizardContext.jsx:4-34 | the initial state is at step 1 of 5, not complete, with empty expense lists and the custom split 50/30/20, which totals 100 |
| Wizard.Reduce | src/context/WizardContext.jsx:52-141 | the reducer keeps `1 <= currentStep <= totalSteps == 5`; only RESET_WIZARD can change `totalSteps`, and it returns the initial state; only NEXT/PREV/RESET move the step; a completed wizard stays complete except under RESET; step and completion actions leave the user data alone |
| Wizard.MergeIncome | src/context/WizardContext.jsx:66-73 | UPDATE_INCOME merges: keys in the payload take its values, absent keys keep the old ones |
| Wizard.MergeCustomBudget | src/context/WizardContext.jsx:84-91 | UPDATE_CUSTOM_BUDGET merges key by key |
| Wizard.MergeExpenses | src/context/WizardContext.jsx:93-100 | UPDATE_EXPENSES merges key by key |
| Wizard.NextStepClamps | src/context/WizardContext.jsx:54-58 | NEXT_STEP sets the step to `min(step+1, totalSteps)`; at step 5 it is a no-op, below it advances by one |
| Wizard.PrevStepClamps | src/context/WizardContext.jsx:60-64 | PREV_STEP sets the step to `max(step-1, 1)`; at step 1 it is a no-op, above it goes back by one |
| Wizard.CompleteIsIdempotent | src/context/WizardContext.jsx:129-133 | COMPLETE_WIZARD sets only the flag, and applying it twice equals applying it once |
| Wizard.ResetIsInitial | src/context/WizardContext.jsx:135-136 | RESET_WIZARD returns exactly the initial state from any state, completed ones included |
| Wizard.FieldUpdatesAreLocal | src/context/WizardContext.jsx:66-139 | each field update changes only its own user-data field and never the step, the step count or the flag; the three merging ones give the key-by-key merge of their payload, the wholesale ones store their payload; an unrecognised action changes nothing |
| Wizard.RunKeepsValid | src/context/WizardContext.jsx:52-141 | from a state in range, any sequence of actions keeps the step in 1..5 and the count at 5 |
| Wizard.ReachableIsValid | src/context/WizardContext.jsx:4-6 | every state reachable from the initial one satisfies the step invariant |
| Wizard.CompletionIsSticky | src/context/WizardContext.jsx:129-136 | once complete, no sequence of actions without RESET_WIZARD clears the flag |
| Wizard.MonthlyBase | src/context/WizardContext.jsx:174 | the base is the monthly figure when non-zero, otherwise one twelfth of the annual figure |
| Wizard.Allocate | src/context/WizardContext.jsx:173-191 | 50-30-20 splits the base 5:3:2 and the parts sum to the base; custom gives each part `pct/100` of the base; every other rule gives zeros |
| Wizard.CustomSplitSumsToBase | src/context/WizardContext.jsx:182-187 | a custom split whose percentages total 100 sums to the monthly base |
| Wizard.SixtyTwentyTwentyAllocatesNothing | src/context/WizardContext.jsx:176-190 | the 60-20-20 rule allocates `{0, 0, 0}` |
| Wizard.FiftyThousandExample | src/context/WizardContext.jsx:176-181 | monthly 50000 under 50-30-20 allocates 25000 / 15000 / 10000 |
| Wizard.Recommend | src/context/WizardContext.jsx:193-232 | Conservative and Aggressive get their own entries and every other label gets the Balanced entry; no entry lists bonds |
| Wizard.RecommendFallsBackToBalanced | src/context/WizardContext.jsx:231 | an unrecognised risk label yields the same record as "Balanced" |
| Wizard.RecommendIgnoresBudget | src/context/WizardContext.jsx:193 | the budget argument never affects the result |
| Wizard.AggressiveHasFiveStocks | src/context/WizardContext.jsx:217-224 | the Aggressive tier has five stocks, among them ADANIPORTS and RELIANCE |
| WizardProvider.WizardStore.constructor | src/context/WizardContext.jsx:148 | the store starts at the initial state with nothing dispatched |
| WizardProvider.WizardStore.Dispatch | src/context/WizardContext.jsx:148-153 | dispatching runs the reducer on the current state, records the action and preserves the step invariant |
| FinanceWizard.CanProceed | src/components/wizard/FinanceWizard.jsx:24-42 | the gate passes only at steps 1 to 5; steps 3 and 5 always pass; under the custom rule step 2 passes only with percentages totalling 100 |
| FinanceWizard.CanProceedByStep | src/components/wizard/FinanceWizard.jsx:24-42 | step 1 passes iff monthly > 0 or annual > 0; step 2 passes iff a rule is set and it is not custom or its percentages total 100; steps 3 and 5 always pass; step 4 passes iff a risk label is set; any other step fails |
| FinanceWizard.CustomSplitMustBeExact | src/components/wizard/FinanceWizard.jsx:28-32 | at step 2 with the custom rule, totals of 99 and 101 block and 100 passes |
| FinanceWizard.PrevStepsLand | src/components/wizard/FinanceWizard.jsx:67-69 | n PREV_STEP actions from a valid state set the step to `max(step-n, 1)` and change nothing else |
| FinanceWizard.HandleNext | src/components/wizard/FinanceWizard.jsx:44-51 | below the last step it dispatches exactly one NEXT_STEP; at the last step it dispatches COMPLETE_WIZARD, leaves the step where it is, and calls `onComplete` |
| FinanceWizard.HandlePrevious | src/components/wizard/FinanceWizard.jsx:53-57 | above step 1 it dispatches one PREV_STEP; at step 1 it dispatches nothing |
| FinanceWizard.HandleStepClick | src/components/wizard/FinanceWizard.jsx:59-72 | a later step changes nothing; an earlier or equal step dispatches `current - target` PREV_STEPs and, for a target of at least 1, lands exactly on it |
| FinanceWizard.ClickNext | src/components/wizard/FinanceWizard.jsx:154-158 | the button does nothing while `canProceed` is false, so any dispatched advance or completion started from a state that passed the gate; when the gate passes, exactly one NEXT_STEP (below the last step) or COMPLETE_WIZARD (at it) is dispatched, and `onComplete` is called iff the wizard was at its last step |
| ExpensesAllocation.Total | src/components/wizard/ExpensesAllocation.jsx:37-38 | the sum of the amounts, folded from the left; it is non-negative when every amount is |
| ExpensesAllocation.TotalAppend | src/components/wizard/ExpensesAllocation.jsx:33-38 | the sum of two lists end to end is the sum of their sums, so appending an expense adds its amount to the total |
| ExpensesAllocation.SumAmounts | src/components/wizard/ExpensesAllocation.jsx:37-38 | the reduce loop returns the sum of the amounts |
| ExpensesAllocation.Without | src/components/wizard/ExpensesAllocation.jsx:48 | the filter never lengthens the list |
| ExpensesAllocation.WithoutKeepsOthers | src/components/wizard/ExpensesAllocation.jsx:48 | an entry survives the filter iff it was in the list and its id differs |
| ExpensesAllocation.WithoutAppend | src/components/wizard/ExpensesAllocation.jsx:48 | filtering distributes over concatenation, so the survivors keep their order |
| ExpensesAllocation.WithoutAbsentId | src/components/wizard/ExpensesAllocation.jsx:45-49 | removing an id that is not in the list returns the list unchanged |
| ExpensesAllocation.AddThenRemove | src/components/wizard/ExpensesAllocation.jsx:22-56 | appending an expense with a fresh id and then filtering out that id restores the list and its total |
| ExpensesAllocation.ExpensesPanel.constructor | src/components/wizard/ExpensesAllocation.jsx:9-10 | local expenses start as the wizard's, with an empty form on the needs category; a seed whose totals equal its sums starts the panel valid |
| ExpensesAllocation.InitialExpensesConsistent | src/context/WizardContext.jsx:19-24 | the wizard's initial expenses (empty lists, totals 0) have totals equal to their sums, so a panel seeded from them starts valid |
| ExpensesAllocation.ExpensesPanel.EditDraft | src/components/wizard/ExpensesAllocation.jsx:133-160 | the form handlers change only the form |
| ExpensesAllocation.ExpensesPanel.AddExpense | src/components/wizard/ExpensesAllocation.jsx:22-43 | with an empty name or amount nothing changes; otherwise the expense goes to the end of its own category's list, the other list is untouched, both totals equal their sums and the form is cleared |
| ExpensesAllocation.ExpensesPanel.RemoveExpense | src/components/wizard/ExpensesAllocation.jsx:45-56 | only the named category is filtered, both totals equal their sums afterwards, and the form is untouched |
| ExpensesAllocation.RemoveMissing | src/components/wizard/ExpensesAllocation.jsx:45-56 | removing an id missing from its category leaves both lists and both totals unchanged |
| ExpensesAllocation.AddThenRemoveRestores | src/components/wizard/ExpensesAllocation.jsx:22-56 | adding an expense under a fresh id and then removing it restores both lists and both totals |
| ExpensesAllocation.Available | src/components/wizard/ExpensesAllocation.jsx:74-80 | the available amount is never negative, is at least budget minus total, and equals one of the two |
| ExpensesAllocation.ChartCandidates | src/components/wizard/ExpensesAllocation.jsx:59-83 | the four slices, in order: needs allocated (the needs total, with the needs budget), wants allocated (likewise), and the needs and wants available amounts `max(0, budget - total)` with budget 0 |
| ExpensesAllocation.KeepPositive | src/components/wizard/ExpensesAllocation.jsx:84 | an entry is kept iff its value is positive; a single entry is kept alone or dropped |
| ExpensesAllocation.KeepPositiveAppend | src/components/wizard/ExpensesAllocation.jsx:84 | the filter distributes over concatenation, so it keeps the order and the count of the surviving entries |
| ExpensesAllocation.ChartData | src/components/wizard/ExpensesAllocation.jsx:59-84 | the chart is the four candidate slices in their fixed order, each present iff its value is positive, and nothing else |
| ExpensesAllocation.BudgetUsed | src/components/wizard/ExpensesAllocation.jsx:86-88 | over a non-zero budget it is `100·(totalNeeds+totalWants)/(needs+wants)`, within 0..100 when spending is within the budget; over a zero budget it is +∞, −∞ or 0 by the sign of the spending |
| ExpensesAllocation.ProgressWidth | src/components/wizard/ExpensesAllocation.jsx:209 | the bar width is `min(budgetUsed, 100)`: never above 100, the percentage itself below 100 (−∞ included), and 100 at or above it |
| BudgetRuleSelection.IntOrZero | src/components/wizard/BudgetRuleSelection.jsx:16 | a failed parse reads as 0; a parsed integer reads as itself |
| BudgetRuleSelection.WithShare | src/components/wizard/BudgetRuleSelection.jsx:16 | the edited triple replaces the named share and keeps the other two |
| Wizard.CustomTotal | src/components/wizard/BudgetRuleSelection.jsx:26 | `customTotal`, the sum the step-2 gate also compares with 100 (src/components/wizard/FinanceWizard.jsx:31); with no negative share it bounds each share |
| BudgetRuleSelection.ShareEditShiftsTotal | src/components/wizard/BudgetRuleSelection.jsx:16-19 | `customTotal` after an edit is the old total minus the old share plus the new value, so lowering a share never raises the total |
| BudgetRuleSelection.CustomChange | src/components/wizard/BudgetRuleSelection.jsx:15-24 | an edit is accepted iff the edited triple totals at most 100, and an accepted triple is the edited one |
| BudgetRuleSelection.CustomChangeTouchesOneShare | src/components/wizard/BudgetRuleSelection.jsx:16 | an accepted edit changes only its own share, and an unparseable input sets that share to 0 |
| BudgetRuleSelection.EditsKeepTotalBounded | src/components/wizard/BudgetRuleSelection.jsx:19-23 | from a triple totalling at most 100, no sequence of edits exceeds 100 |
| BudgetRuleSelection.EditsFromInitialStayBounded | src/context/WizardContext.jsx:14-18 | starting from the initial 50/30/20, every sequence of edits stays at most 100 |
| BudgetRuleSelection.FullBudgetPatch | src/components/wizard/BudgetRuleSelection.jsx:22 | the dispatched payload carries the whole triple, so merging it yields that triple whatever was stored |
| BudgetRuleSelection.PreviewAmount | src/components/wizard/BudgetRuleSelection.jsx:27 | the preview of a share is `monthly·pct/100` |
| BudgetRuleSelection.PreviewIgnoresAnnual | src/components/wizard/BudgetRuleSelection.jsx:27 | with only an annual figure `calculateAmount` gives 0 (and the preview block is hidden, line 119), while the allocator allocates `annual/12·pct/100 > 0` |
| BudgetRuleSelection.PreviewMatchesAllocation | src/components/wizard/BudgetRuleSelection.jsx:57-59 | with a non-zero monthly figure, the custom previews equal the allocator's parts |
| BudgetRuleSelection.BudgetRulePanel.constructor | src/components/wizard/BudgetRuleSelection.jsx:7-8 | the selected rule and the triple start as the wizard's |
| BudgetRuleSelection.BudgetRulePanel.HandleRuleChange | src/components/wizard/BudgetRuleSelection.jsx:10-13 | selects the rule and dispatches UPDATE_BUDGET_RULE with that same rule |
| BudgetRuleSelection.BudgetRulePanel.HandleCustomBudgetChange | src/components/wizard/BudgetRuleSelection.jsx:15-24 | an accepted edit replaces the local triple and stores that whole triple in the wizard; a rejected one changes nothing and dispatches nothing; a total of at most 100 stays so |
| IncomeEntry.Edited | src/components/wizard/IncomeEntry.jsx:10-17 | a monthly edit v sets annual to 12·v; an annual edit v sets monthly to v/12; a source edit keeps both amounts |
| IncomeEntry.EditsKeepAnnualTwelveTimesMonthly | src/components/wizard/IncomeEntry.jsx:13-16 | once annual = 12·monthly holds, it holds after any sequence of edits |
| IncomeEntry.EditsFromInitialAreConsistent | src/context/WizardContext.jsx:8-12 | starting from the initial 0/0 income, annual = 12·monthly always holds |
| IncomeEntry.MonthlyAnnualRoundTrip | src/components/wizard/IncomeEntry.jsx:13-16 | entering the annual figure that a monthly edit produced leaves the record unchanged |
| IncomeEntry.FullIncomePatch | src/components/wizard/IncomeEntry.jsx:20 | the dispatched payload carries the whole record, so merging it yields that record |
| IncomeEntry.NumberOrZero | src/components/wizard/IncomeEntry.jsx:66 | empty or non-numeric input converts to 0; a number converts to itself |
| IncomeEntry.IncomePanel.constructor | src/components/wizard/IncomeEntry.jsx:7 | the local record starts as the wizard's |
| IncomeEntry.IncomePanel.HandleIncomeChange | src/components/wizard/IncomeEntry.jsx:9-21 | the local record becomes the edited one and the wizard's income equals it afterwards; after an amount edit annual = 12·monthly |
| IncomeEntry.IncomePanel.OnMonthlyInput | src/components/wizard/IncomeEntry.jsx:66 | the converted monthly input v gives monthly v and annual 12·v, and the source is unchanged; exactly one UPDATE_INCOME carrying the whole record is dispatched, and the rest of the wizard state is unchanged |
| IncomeEntry.IncomePanel.OnAnnualInput | src/components/wizard/IncomeEntry.jsx:83 | the converted annual input v gives annual v and monthly v/12, and the source is unchanged; exactly one UPDATE_INCOME carrying the whole record is dispatched, and the rest of the wizard state is unchanged |
| Auth.Initial | src/context/AuthContext.jsx:11-16 | the session starts signed out, with no user, loading, and no error |
| Auth.Reduce | src/context/AuthContext.jsx:32-86 | the reducer preserves "signed out ⇒ no user"; it is signed in after it iff it received a success, or was signed in and received no failure or logout; an error after it is a new failure message or the old one kept |
| Auth.StartSetsLoading | src/context/AuthContext.jsx:34-40 | LOGIN_START and REGISTER_START set loading and clear the error, and keep the sign-in status and the user |
| Auth.SuccessSignsIn | src/context/AuthContext.jsx:42-50 | a success signs in with the payload's user, stops loading and clears the error |
| Auth.FailureSignsOut | src/context/AuthContext.jsx:52-60 | a failure signs out, drops the user, stops loading and stores the message |
| Auth.LogoutSignsOut | src/context/AuthContext.jsx:62-69 | LOGOUT signs out, drops the user, stops loading and clears the error |
| Auth.ClearErrorIsIdempotent | src/context/AuthContext.jsx:71-75 | CLEAR_ERROR changes only the error, and applying it twice equals applying it once |
| Auth.SetLoadingIsLocal | src/context/AuthContext.jsx:77-84 | SET_LOADING changes only the loading flag, and an unrecognised action changes nothing |
| Auth.FailedLoginThenClear | src/context/AuthContext.jsx:52-75 | a failed login leaves the user signed out with the message, and clearing the error keeps the sign-in status and the user |
| Auth.RunKeepsNoUserWhenSignedOut | src/context/AuthContext.jsx:32-86 | no sequence of actions breaks "signed out ⇒ no user" |
| Auth.ReachableHasNoUserWhenSignedOut | src/context/AuthContext.jsx:11-16 | every state reachable from the initial one satisfies "signed out ⇒ no user" |
| Auth.ProtectedRoute | src/context/AuthContext.jsx:213-228 | the spinner shows iff loading; otherwise the children render iff signed in, and nothing renders when signed out |
| Auth.LogoutHidesContent | src/context/AuthContext.jsx:62-69 | after LOGOUT the protected content is not rendered |

## Left out

- The identity service client and the asynchronous flows around it (src/context/AuthContext.jsx:5-8, 96-185): session restore, the `onAuthStateChange` subscription, and `login`, `register` and `logout`. They are foreign asynchronous calls. Only the reducer they drive is modelled.
- The dashboard, the recommendation and risk-selection screens, the sidebar, the login and sign-up forms and `App.jsx`. These are rendering, static description tables, mocked random and date-based chart series, and form validation delegated to a library that is not part of this model.
- The `useEffect` re-dispatches: local expenses into the wizard, and recommendations on a risk change. These are React scheduling. `ExpensesPanel` keeps its local lists, and `Snapshot` is the record that such an effect would dispatch.
- `onComplete` is an unseen callback. `HandleNext` reports that it was called. In the application that callback dispatches COMPLETE_WIZARD again, and `Wizard.CompleteIsIdempotent` shows that this second dispatch changes nothing.
- Floating point: amounts are exact reals, so IEEE-754 rounding (for example of `monthly * 0.3`) is not modelled. Neither is display formatting (`toLocaleString`, `toFixed`).
- String parsing by `parseFloat` and `parseInt` is not modelled. Its result is an `Option` input. A NaN amount reaching `addExpense` from a non-numeric non-empty text is not modelled either, because the number input prevents it.
- The range limits of the custom-percentage sliders (30-70, 10-50, 10-40) are markup. The handler does not check them, and neither does the model.
- Wizard.Recommend: JavaScript property lookup on the catalogue object would also answer inherited keys such as "toString". The model treats every label other than the three tiers as unrecognised.
- Truthiness of `budgetRule` and `riskAppetite` is modelled as "non-empty string". `null` and `undefined` values are not represented.
- Auth.Reduce: a success payload always carries a user. A `null` user from the identity service is not represented.
- Expense categories are the two values the select offers. `expenses[category]` with any other key is not represented.
