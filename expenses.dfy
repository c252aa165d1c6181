/**
 * The expense-allocation step (src/components/wizard/ExpensesAllocation.jsx):
 * two ordered expense lists with cached totals, the add/remove handlers that
 * keep the totals equal to the sums, and the chart and progress figures
 * derived from them.
 */
module ExpensesAllocation {
  import opened Wrappers
  import opened Wizard

  /** Sum of the amounts, folded from the left as `reduce((sum, exp) => sum + exp.amount, 0)`. */
  function Total(s: seq<Expense>): (r: real)
    ensures (forall k :: 0 <= k < |s| ==> s[k].amount >= 0.0) ==> r >= 0.0
  {
    if s == [] then 0.0 else Total(s[..|s| - 1]) + s[|s| - 1].amount
  }

  /** The sum of two lists end to end is the sum of their sums. */
  lemma {:induction false} TotalAppend(a: seq<Expense>, b: seq<Expense>)
    ensures Total(a + b) == Total(a) + Total(b)
    decreases |b|
  {
    if b != [] {
      var init := b[..|b| - 1];
      assert (a + b)[..|a + b| - 1] == a + init;
      TotalAppend(a, init);
    } else {
      assert a + b == a;
    }
  }

  /** The `reduce` loop that recomputes a cached total. */
  method SumAmounts(s: seq<Expense>) returns (t: real)
    ensures t == Total(s)
  {
    t := 0.0;
    for i := 0 to |s|
      invariant t == Total(s[..i])
    {
      assert s[..i + 1][..i] == s[..i];
      t := t + s[i].amount;
    }
    assert s[..|s|] == s;
  }

  /** `filter(exp => exp.id !== id)`: drop the entries carrying `id`, keep the others in order. */
  function Without(s: seq<Expense>, id: int): (r: seq<Expense>)
    ensures |r| <= |s|
  {
    if s == [] then []
    else
      var last := s[|s| - 1];
      Without(s[..|s| - 1], id) + (if last.id == id then [] else [last])
  }

  /** What survives the filter: exactly the entries whose id differs. */
  lemma {:induction false} WithoutKeepsOthers(s: seq<Expense>, id: int, e: Expense)
    ensures e in Without(s, id) <==> e in s && e.id != id
    decreases |s|
  {
    if s != [] {
      var init, last := s[..|s| - 1], s[|s| - 1];
      assert s == init + [last];
      WithoutKeepsOthers(init, id, e);
    }
  }

  predicate HasId(s: seq<Expense>, id: int)
  {
    exists k :: 0 <= k < |s| && s[k].id == id
  }

  /** Filtering distributes over concatenation: the survivors keep their relative order. */
  lemma {:induction false} WithoutAppend(a: seq<Expense>, b: seq<Expense>, id: int)
    ensures Without(a + b, id) == Without(a, id) + Without(b, id)
    decreases |b|
  {
    if b != [] {
      var ab, b', last := a + b, b[..|b| - 1], b[|b| - 1];
      var tail := if last.id == id then [] else [last];
      assert ab[..|ab| - 1] == a + b';
      assert ab[|ab| - 1] == last;
      WithoutAppend(a, b', id);
      calc {
        Without(ab, id);
        Without(a + b', id) + tail;
        (Without(a, id) + Without(b', id)) + tail;
        Without(a, id) + (Without(b', id) + tail);
        Without(a, id) + Without(b, id);
      }
    } else {
      assert a + b == a;
    }
  }

  /** Removing an id that is not present changes nothing. */
  lemma {:induction false} WithoutAbsentId(s: seq<Expense>, id: int)
    requires !HasId(s, id)
    ensures Without(s, id) == s
    decreases |s|
  {
    if s != [] {
      var init := s[..|s| - 1];
      assert !HasId(init, id) by {
        forall k | 0 <= k < |init| ensures init[k].id != id {
          assert init[k] == s[k];
        }
      }
      WithoutAbsentId(init, id);
      assert s == init + [s[|s| - 1]];
    }
  }

  /** Appending an expense with a fresh id and then removing that id restores the list and its total. */
  lemma AddThenRemove(s: seq<Expense>, e: Expense)
    requires !HasId(s, e.id)
    ensures Without(s + [e], e.id) == s
    ensures Total(Without(s + [e], e.id)) == Total(s)
  {
    assert (s + [e])[..|s + [e]| - 1] == s;
    WithoutAbsentId(s, e.id);
  }

  /** An expenses record whose cached totals equal the sums of its lists. */
  predicate Consistent(e: Expenses)
  {
    e.totalNeeds == Total(e.needs) && e.totalWants == Total(e.wants)
  }

  /** The record the wizard starts with (empty lists, totals 0) is consistent. */
  lemma InitialExpensesConsistent()
    ensures Consistent(Initial().userData.expenses)
  {
  }

  /** The component's local expenses state and the "new expense" form. */
  class ExpensesPanel {
    var needs: seq<Expense>
    var wants: seq<Expense>
    var totalNeeds: real
    var totalWants: real
    /** The form: category select, name field and amount field (`None` while the field is empty). */
    var draftCategory: Category
    var draftName: string
    var draftAmount: Option<real>

    /** The cached totals equal the sums of their lists. */
    predicate Valid()
      reads this
    {
      totalNeeds == Total(needs) && totalWants == Total(wants)
    }

    /** `useState(userData.expenses)` and an empty form on the needs category. */
    constructor (initial: Expenses)
      ensures needs == initial.needs && wants == initial.wants
      ensures totalNeeds == initial.totalNeeds && totalWants == initial.totalWants
      ensures draftCategory == Needs && draftName == "" && draftAmount == None
      ensures Consistent(initial) ==> Valid()
    {
      needs, wants := initial.needs, initial.wants;
      totalNeeds, totalWants := initial.totalNeeds, initial.totalWants;
      draftCategory, draftName, draftAmount := Needs, "", None;
    }

    /** The form's `onChange` handlers. */
    method EditDraft(category: Category, name: string, amount: Option<real>)
      modifies this
      ensures draftCategory == category && draftName == name && draftAmount == amount
      ensures needs == old(needs) && wants == old(wants)
      ensures totalNeeds == old(totalNeeds) && totalWants == old(totalWants)
    {
      draftCategory, draftName, draftAmount := category, name, amount;
    }

    /** The expenses record as the wizard stores it. */
    function Snapshot(): Expenses
      reads this
    {
      Expenses(needs, wants, totalNeeds, totalWants)
    }

    /**
     * `addExpense`, with the `Date.now()` id passed in. With an empty name or
     * amount nothing happens; otherwise the expense is appended to its own
     * category's list, both totals are recomputed and the form is cleared.
     */
    method AddExpense(id: int)
      modifies this
      ensures old(draftName) == "" || old(draftAmount).None? ==>
        && needs == old(needs) && wants == old(wants)
        && totalNeeds == old(totalNeeds) && totalWants == old(totalWants)
        && draftCategory == old(draftCategory) && draftName == old(draftName) && draftAmount == old(draftAmount)
      ensures old(draftName) != "" && old(draftAmount).Some? ==>
        var e := Expense(id, old(draftName), old(draftAmount).value, old(draftCategory));
        && needs == (if e.category == Needs then old(needs) + [e] else old(needs))
        && wants == (if e.category == Wants then old(wants) + [e] else old(wants))
        && Valid()
        && draftCategory == Needs && draftName == "" && draftAmount == None
      ensures old(Valid()) ==> Valid()
    {
      if draftName != "" && draftAmount.Some? {
        var expense := Expense(id, draftName, draftAmount.value, draftCategory);
        if draftCategory == Needs {
          needs := needs + [expense];
        } else {
          wants := wants + [expense];
        }
        totalNeeds := SumAmounts(needs);
        totalWants := SumAmounts(wants);
        draftCategory, draftName, draftAmount := Needs, "", None;
      }
    }

    /** `removeExpense(category, id)`: filter that category's list and recompute both totals. */
    method RemoveExpense(category: Category, id: int)
      modifies this
      ensures needs == (if category == Needs then Without(old(needs), id) else old(needs))
      ensures wants == (if category == Wants then Without(old(wants), id) else old(wants))
      ensures Valid()
      ensures draftCategory == old(draftCategory) && draftName == old(draftName) && draftAmount == old(draftAmount)
    {
      if category == Needs {
        needs := Without(needs, id);
      } else {
        wants := Without(wants, id);
      }
      totalNeeds := SumAmounts(needs);
      totalWants := SumAmounts(wants);
    }
  }

  /** Removing an id missing from the category leaves both lists and both totals as they were. */
  method RemoveMissing(p: ExpensesPanel, category: Category, id: int)
    requires p.Valid()
    requires !HasId(if category == Needs then p.needs else p.wants, id)
    modifies p
    ensures p.Snapshot() == old(p.Snapshot())
  {
    WithoutAbsentId(if category == Needs then p.needs else p.wants, id);
    p.RemoveExpense(category, id);
  }

  /** Adding an expense under a fresh id and removing it again restores the lists and totals. */
  method AddThenRemoveRestores(p: ExpensesPanel, id: int)
    requires p.Valid()
    requires p.draftName != "" && p.draftAmount.Some?
    requires !HasId(p.needs, id) && !HasId(p.wants, id)
    modifies p
    ensures p.Snapshot() == old(p.Snapshot())
  {
    var category := p.draftCategory;
    ghost var e := Expense(id, p.draftName, p.draftAmount.value, category);
    ghost var n0, w0 := p.needs, p.wants;
    p.AddExpense(id);
    p.RemoveExpense(category, id);
    if category == Needs { AddThenRemove(n0, e); } else { AddThenRemove(w0, e); }
  }

  // ---------------------------------------------------------------------------
  // Chart and progress figures

  /** `Math.max(0, budget - total)`: what is left of a budget, never negative. */
  function Available(budget: real, total: real): (r: real)
    ensures r >= 0.0 && r >= budget - total
    ensures r == 0.0 || r == budget - total
  {
    if budget - total > 0.0 then budget - total else 0.0
  }

  datatype ChartEntry = ChartEntry(name: string, value: real, budget: real)

  /** The four pie slices before filtering: allocated and available, for needs and wants. */
  function ChartCandidates(alloc: Allocation, totalNeeds: real, totalWants: real): (r: seq<ChartEntry>)
    ensures |r| == 4
    ensures r[0].name == "Needs (Allocated)" && r[0].value == totalNeeds && r[0].budget == alloc.needs
    ensures r[1].name == "Wants (Allocated)" && r[1].value == totalWants && r[1].budget == alloc.wants
    ensures r[2].name == "Available Needs" && r[2].value == Available(alloc.needs, totalNeeds) && r[2].budget == 0.0
    ensures r[3].name == "Available Wants" && r[3].value == Available(alloc.wants, totalWants) && r[3].budget == 0.0
    ensures r[2].value >= 0.0 && r[3].value >= 0.0
  {
    [ ChartEntry("Needs (Allocated)", totalNeeds, alloc.needs),
      ChartEntry("Wants (Allocated)", totalWants, alloc.wants),
      ChartEntry("Available Needs", Available(alloc.needs, totalNeeds), 0.0),
      ChartEntry("Available Wants", Available(alloc.wants, totalWants), 0.0) ]
  }

  /** One entry as the filter leaves it: kept when its value is positive. */
  function IfPositive(e: ChartEntry): seq<ChartEntry>
  {
    if e.value > 0.0 then [e] else []
  }

  /** `filter(item => item.value > 0)`. */
  function KeepPositive(s: seq<ChartEntry>): (r: seq<ChartEntry>)
    ensures |r| <= |s|
    ensures |s| == 1 ==> r == IfPositive(s[0])
    ensures forall k :: 0 <= k < |r| ==> r[k].value > 0.0
    ensures forall e :: e in r <==> e in s && e.value > 0.0
  {
    if s == [] then []
    else IfPositive(s[0]) + KeepPositive(s[1..])
  }

  /** The filter distributes over concatenation, so it keeps order and multiplicity. */
  lemma {:induction false} KeepPositiveAppend(a: seq<ChartEntry>, b: seq<ChartEntry>)
    ensures KeepPositive(a + b) == KeepPositive(a) + KeepPositive(b)
    decreases |a|
  {
    if a == [] {
      assert a + b == b;
    } else {
      assert (a + b)[0] == a[0];
      assert (a + b)[1..] == a[1..] + b;
      KeepPositiveAppend(a[1..], b);
    }
  }

  /** `chartData`: the slices with a positive value, in their fixed order. */
  function ChartData(alloc: Allocation, totalNeeds: real, totalWants: real): (r: seq<ChartEntry>)
    ensures var c := ChartCandidates(alloc, totalNeeds, totalWants);
      r == IfPositive(c[0]) + IfPositive(c[1]) + IfPositive(c[2]) + IfPositive(c[3])
    ensures |r| <= 4
    ensures forall k :: 0 <= k < |r| ==> r[k].value > 0.0
    ensures forall e :: e in r <==> e in ChartCandidates(alloc, totalNeeds, totalWants) && e.value > 0.0
  {
    var c := ChartCandidates(alloc, totalNeeds, totalWants);
    assert c == [c[0]] + [c[1]] + [c[2]] + [c[3]];
    KeepPositiveAppend([c[0]] + [c[1]] + [c[2]], [c[3]]);
    KeepPositiveAppend([c[0]] + [c[1]], [c[2]]);
    KeepPositiveAppend([c[0]], [c[1]]);
    KeepPositive(c)
  }

  /** A number that may have overflowed to an infinity in the source's arithmetic. */
  datatype Extended = Finite(value: real) | PlusInfinity | MinusInfinity

  /**
   * `budgetUsed`: the allocated total as a percentage of the needs+wants budget.
   * Over a zero budget the quotient is an infinity, or NaN (read as 0) when
   * nothing is allocated either.
   */
  function BudgetUsed(alloc: Allocation, totalNeeds: real, totalWants: real): (r: Extended)
    ensures alloc.needs + alloc.wants != 0.0 ==>
      r.Finite? && r.value * (alloc.needs + alloc.wants) == 100.0 * (totalNeeds + totalWants)
    ensures alloc.needs + alloc.wants > 0.0 && 0.0 <= totalNeeds + totalWants <= alloc.needs + alloc.wants ==>
      r.Finite? && 0.0 <= r.value <= 100.0
    ensures alloc.needs + alloc.wants == 0.0 ==>
      (r == PlusInfinity <==> totalNeeds + totalWants > 0.0) &&
      (r == MinusInfinity <==> totalNeeds + totalWants < 0.0) &&
      (r == Finite(0.0) <==> totalNeeds + totalWants == 0.0)
  {
    var spent := totalNeeds + totalWants;
    var budget := alloc.needs + alloc.wants;
    if budget != 0.0 then
      RatioBound(spent, budget);
      Finite(spent / budget * 100.0)
    else if spent > 0.0 then PlusInfinity
    else if spent < 0.0 then MinusInfinity
    else Finite(0.0)
  }

  lemma RatioBound(x: real, y: real)
    requires y != 0.0
    ensures (x / y) * y == x
    ensures y > 0.0 && 0.0 <= x <= y ==> 0.0 <= x / y <= 1.0
  {
  }

  /** The progress bar width `Math.min(budgetUsed, 100)`: never above 100. */
  function ProgressWidth(used: Extended): (w: Extended)
    ensures !w.PlusInfinity?
    ensures w.Finite? ==> w.value <= 100.0
    ensures used.Finite? && used.value <= 100.0 ==> w == used
    ensures used.PlusInfinity? || (used.Finite? && used.value >= 100.0) ==> w == Finite(100.0)
    ensures used.MinusInfinity? ==> w == used
  {
    match used
    case Finite(v) => if v < 100.0 then used else Finite(100.0)
    case PlusInfinity => Finite(100.0)
    case MinusInfinity => MinusInfinity
  }
}
